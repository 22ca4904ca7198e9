# wsrepeater, modelled in Dafny

wsrepeater is a small weather-station service. It has four parts:

- It receives a station's readings as an HTTP form post (`/ecowitt/report`). It validates and smooths them, and relays a corrected record to Weather Underground through a bounded job queue drained by workers.
- It proxies third-party data for a dashboard. That data is Weather Underground observations and history, moon phase, sunrise/sunset and RSS alert feeds. It serves them through one shared in-memory cache whose entries carry an expiry instant.
- Middleware sets Cache-Control headers and keeps per-endpoint request statistics.
- A browser dashboard (plain JavaScript) colours alert badges, groups forecast entries into cards, names wind directions, picks sun/moon icons, and plots a week of observations.

The Dafny project models the decision logic of these parts: the validation order, the smoothing window, the job queue, the read-through cache policies with their exact freshness comparisons, the daily-extremes fold, the weekly composition, the small classifiers, and the JavaScript folds and state machines. It proves what each one promises.

Modelling conventions:

- Time is an integer Unix-seconds clock passed in as `now`. Every handler call reads a single `now`.
- Every upstream call is a parameter. It is a `Reply` that is either a network error or a status with an optional body. The parameters are bundled in `Upstream.Services`.
- A JSON body is represented by the value it decodes to. A body that is not the expected object or array is rejected. Inside the observations list, each record is taken to be an object that has every member the handlers read (see "## Left out").
- A Go panic (nil type assertion, index out of range, a nil location) ends the call as the failure `Panic`. In an HTTP handler the server recovers it and drops the connection (`Aborted`). In a prefetcher goroutine nothing recovers it, so it ends the whole process: the prefetch steps report `running` false.
- Floating-point values are `real`. Time zones are fixed UTC offsets looked up in a map. A name that is absent fails to load.

One module per source file:

- `Utils`: utils.go.
- `Repeater` and `Form`: repeater.go, plus the `application/x-www-form-urlencoded` parsing it relies on.
- `Cache`: the shared store.
- `Rss`, `Wu`, `Moon` and `Sun`: the four proxy files.
- `CacheControl` and `Stats`: the middleware.
- `Warnings`, `Daily`, `Script` and `Plot`: the JavaScript files.
- `Upstream`, `Text` and `Wrappers`: shared types and library semantics.

Stateful code keeps its form:

- The cache is a class `Cache.Store`, which the handlers modify.
- The smoother window is a class `Utils.Smoother`.
- The repeater service is a class `Repeater.Service` holding its queue.
- The statistics are a class `Stats.Stats`.
- The source's loops are `for`/`while` loops with invariants.
- The weekly sort works in place on an array.

## Model

| member | source | states |
|---|---|---|
| Cache.Store.constructor | internal/handlers/proxy_rss.go:12-21 | the shared cache starts empty with no upstream calls counted |
| Utils.LastWindow | internal/utils/utils.go:16-19 | the retained window has length min(calls so far, 5) |
| Utils.PushKeepsLastWindow | internal/utils/utils.go:16-19 | appending and dropping the oldest beyond 5 keeps exactly the last five inputs, in order |
| Utils.Smoother.constructor | internal/utils/utils.go:12-27 | a smoother starts with an empty window |
| Utils.Smoother.SmoothValue | internal/utils/utils.go:12-27 | the new window is the last (at most 5, at least 1) inputs and the result is their arithmetic mean |
| Utils.FirstSmoothedValueIsInput | internal/utils/utils.go:12-27 | the first value smoothed on an empty window is returned unchanged |
| Utils.SixInputs | internal/utils/utils.go:12-27 | after inputs 1..6 the window is 2..6 and the mean is 4 |
| Utils.NormalizedAngle | internal/utils/utils.go:39-43 | normalisation puts every angle in [0, 360) |
| Utils.PhaseBandsPartition | internal/utils/utils.go:46-65 | every normalised angle lies in exactly one of the eight bands, its phase is that band's name, and "Unknown Phase" is unreachable |
| Utils.PhaseOfNormalized | internal/utils/utils.go:46-65 | the switch names one of the eight phases for every angle: only NaN, which has no real counterpart, reaches "Unknown Phase" |
| Utils.BandsDisjoint | internal/utils/utils.go:46-65 | no angle lies in two of the eight bands |
| Utils.MoonPhaseFromAngle | internal/utils/utils.go:38-66 | the loop adds whole turns to negative angles, then the result is the band classification of the normalised angle, always one of the eight names |
| Utils.LoopStuckBelowTwoPow62 | internal/utils/utils.go:40-42 | as written, in float64 arithmetic an angle below -2^62 is unchanged and still negative after any number of passes of the loop |
| Utils.PhaseFromAngleByMod | internal/utils/utils.go:38-66 | reducing with math.Mod first and adding one turn to a negative remainder gives every angle one of the eight phases, the one whose band holds the angle shifted into [0, 360) |
| Utils.ModIsNormalized | internal/utils/utils.go:43 | math.Mod(x, 360), plus one turn when negative, is x shifted by whole turns into [0, 360) |
| Utils.MoonPhaseSamples | internal/utils/utils.go:38-66 | 0 and 355 give New Moon, 90 gives First Quarter, 180 gives Full Moon, 270 and -90 give Last Quarter, and 720 gives New Moon |
| Utils.Ext | internal/utils/utils.go:74 | the extension is a suffix of the path that is empty or a dot followed by no dot and no slash |
| Utils.ExtNonEmptyIff | internal/utils/utils.go:74 | the extension is non-empty iff the final path element contains a dot |
| Utils.HasExtension | internal/utils/utils.go:73-76 | true iff the extension is non-empty and not ".xml" |
| Utils.HasExtensionIff | internal/utils/utils.go:73-76 | true iff the final path element has a dot and its extension is not ".xml" |
| Utils.ExtOfSuffix | internal/utils/utils.go:74 | a path ending in a dotted suffix with no further dot or slash has that suffix as its extension |
| Utils.ExtOfPlain | internal/utils/utils.go:74 | a final path element with no dot gives no extension |
| Utils.HasExtensionSamples | internal/utils/utils.go:73-76 | "/rss/nb10_e.xml", "/stats" and "/" have none, "/script.js" has one |
| Form.HexDigit | internal/handlers/repeater.go:173 | the hex digit written for a value reads back as that value |
| Form.Cut | internal/handlers/repeater.go:45-50 | splitting at the first separator: both halves around it, and the first half free of it |
| Form.EscapeChar | internal/handlers/repeater.go:173 | an escaped byte contains no '&', ';' or '=' |
| Form.Escape | internal/handlers/repeater.go:173 | an escaped string contains no '&', ';' or '=' |
| Form.UnescapeEscape | internal/handlers/repeater.go:45-50 | unescaping an escaped byte string gives it back |
| Form.ParseEncode | internal/handlers/repeater.go:45-50 | parsing an encoded list of pairs adds every pair's value under its key, in order |
| Form.SemicolonRefused | internal/handlers/repeater.go:45-50 | a query holding ';' is a parse error |
| Form.BadEscapeRefused | internal/handlers/repeater.go:45-50 | a truncated percent escape is a parse error |
| Repeater.FirstBadFieldReported | internal/handlers/repeater.go:52-85 | the first numeric field, in the order uv, solarradiation, tempf, humidity, windspeedmph, that fails to parse is the one reported with 400 |
| Repeater.ReadingParsed | internal/handlers/repeater.go:52-85 | the reading is accepted iff all five fields parse |
| Repeater.ReadingValues | internal/handlers/repeater.go:52-85 | an accepted reading holds the parsed value of each field |
| Repeater.AdmitPolicy | internal/handlers/repeater.go:32-85 | a non-POST request is refused with 405 before the body is read; every other refusal is 400; acceptance iff body, form and all five fields are good; the admitted form is the parsed body |
| Repeater.Admit | internal/handlers/repeater.go:32-85 | a refusal is a 405 exactly when the method is not POST, and otherwise a 400 |
| Repeater.BuildRecord | internal/handlers/repeater.go:101-125 | the record is a real-time "updateraw" upload with the environment's credentials and software name; it forwards dateutc, tempf, humidity, windgustmph, winddir and the daily, weekly, monthly and yearly rain totals under their own names, and baromrelin, baromabsin, rainratein, tempinf, humidityin and interval under Weather Underground's names; it sends the dew point and wind speed with two decimals, the rounded corrected UV and the corrected solar radiation |
| Repeater.RecordIgnoresOtherFormKeys | internal/handlers/repeater.go:101-125 | two forms that agree on the fifteen forwarded keys give the same record, whatever else they hold |
| Repeater.Validate | internal/handlers/repeater.go:32-85 | the sequential checks reach exactly the verdict of the admission policy |
| Repeater.Round | internal/handlers/repeater.go:94 | the nearest integer, halves rounded away from zero |
| Repeater.UVIsRoundedCorrection | internal/handlers/repeater.go:94-112 | the record's UV text reads back as a whole number within a half of 0.94 times the smoothed UV |
| Repeater.RoundSamples | internal/handlers/repeater.go:94 | 2 gives 2, 2.5 gives 3, -2.5 gives -3, 2.49 gives 2 |
| Repeater.FirstValuesAgreeWithGet | internal/handlers/repeater.go:135-145 | the snapshot holds exactly the keys with a value, each with its first value |
| Repeater.RelayedSamples | internal/handlers/repeater.go:187 | a reply containing "success" is a success; a failed post, a failed read or any other reply is not |
| Repeater.Service.constructor | internal/handlers/repeater.go:22-30 | both windows, the snapshot and the queue start empty |
| Repeater.Service.UpdateLatestData | internal/handlers/repeater.go:135-145 | the snapshot is replaced wholesale by the first values of the request |
| Repeater.Service.Enqueue | internal/handlers/repeater.go:128-129 | the record is appended iff fewer than 100 (the channel capacity, line 29) are queued, otherwise the send blocks; the queue never exceeds 100 |
| Repeater.Service.ConvertAndForward | internal/handlers/repeater.go:32-133 | a refused request answers its status and touches nothing; an accepted one smooths UV and solar radiation once each, replaces the snapshot, enqueues exactly one record, and only then answers 202 |
| Repeater.Service.WorkerStep | internal/handlers/repeater.go:171-191 | a worker takes the oldest record, posts it once, and counts a success iff the reply contains "success"; there is no retry |
| Rss.FeedURL | internal/handlers/proxy_rss.go:72-83 | exactly the three known paths map to an upstream URL |
| Rss.FetchAndCacheRSSFeed | internal/handlers/proxy_rss.go:71-121 | the result and the new cache are those of the read-through policy |
| Rss.FeedStep | internal/handlers/proxy_rss.go:71-121 | an unknown feed path is refused with the cache untouched; only the path's own entry can change, and only to the fetched body with the 15-minute expiry |
| Rss.ProxyRSSFeed | internal/handlers/proxy_rss.go:58-69 | the feed body is served, or 500 on any failure |
| Rss.UnknownPathRefused | internal/handlers/proxy_rss.go:81-83 | any other path fails with "invalid feed request" and leaves the cache unchanged |
| Rss.ServedFromCacheIffFresh | internal/handlers/proxy_rss.go:85-94 | under the key equal to the path, a present entry with now < expiry is served without a fetch; otherwise the feed is fetched |
| Rss.FeedStepEffect | internal/handlers/proxy_rss.go:96-120 | a failure leaves the cache unchanged; a fetch stores the body for 15 minutes and returns that same body; no other key changes |
| Rss.RepeatWithinLifetime | internal/handlers/proxy_rss.go:88-117 | a feed obtained once is served again, unchanged, until just before its expiry |
| Rss.PrefetchRSSFeeds | internal/handlers/proxy_rss.go:41-55 | the loop fetches the feeds in order |
| Rss.PrefetchEachFeed | internal/handlers/proxy_rss.go:48-53 | each feed's entry after the prefetch is what its own step does, whatever the other feeds do |
| Rss.FeedStepAgrees | internal/handlers/proxy_rss.go:85-94 | a feed's step depends only on that feed's entry |
| Rss.PrefetchVisitsEveryFeed | internal/handlers/proxy_rss.go:42-53 | all three feeds are visited and one's failure does not stop the others |
| Wu.EveryExtremeListed | internal/handlers/proxy_wu.go:59-74 | the fold seeds every extreme |
| Wu.HighestIsMaximum | internal/handlers/proxy_wu.go:59-95 | each high is the maximum of -9999 and every record's value |
| Wu.LowestIsMinimum | internal/handlers/proxy_wu.go:59-95 | each low is the minimum of 9999 and every record's value |
| Wu.SeedsAreExtremesOfNothing | internal/handlers/proxy_wu.go:59-74 | the seeds are the extremes of no records |
| Wu.Raise | internal/handlers/proxy_wu.go:197-199 | the key becomes max(old, value) and no other key changes |
| Wu.Lower | internal/handlers/proxy_wu.go:200-202 | the key becomes min(old, value) and no other key changes |
| Wu.UpdateExtremes | internal/handlers/proxy_wu.go:193-203 | raises the high key, lowers the low key, changes nothing else, and panics exactly when a reading is missing |
| Wu.UpdateExtremeValue | internal/handlers/proxy_wu.go:205-211 | only ever raises its key, changes nothing else, and panics exactly when the reading is missing |
| Wu.ApplyUpdateFails | internal/handlers/proxy_wu.go:193-211 | one update call succeeds iff its readings are present, and otherwise panics |
| Wu.ApplyUpdatesFails | internal/handlers/proxy_wu.go:87-94 | the record's calls succeed iff every call's readings are present |
| Wu.RecordUpdatesSound | internal/handlers/proxy_wu.go:87-94 | every call pairs a high key with a low key, or raises a single high |
| Wu.CompleteIffReadings | internal/handlers/proxy_wu.go:87-94 | a record is complete iff every call's readings are present |
| Wu.ApplyRecordFails | internal/handlers/proxy_wu.go:76-94 | one record's updates succeed iff the record is complete, and otherwise panic |
| Wu.ApplyRecordExtends | internal/handlers/proxy_wu.go:76-95 | applying one complete record to the extremes of a prefix gives the extremes of the prefix extended by it |
| Wu.LatestIsMaximum | internal/handlers/proxy_wu.go:80-85 | the latest epoch is the maximum epoch floored at 0 |
| Wu.LatestIsFirstMaximum | internal/handlers/proxy_wu.go:80-85 | the QC status comes from the first record attaining the latest epoch |
| Wu.DailyExtremes | internal/handlers/proxy_wu.go:57-95 | the loop succeeds iff every record is complete, and then yields the latest epoch, its QC status and the extremes |
| Wu.GetCached1DayObservations | internal/handlers/proxy_wu.go:142-191 | the result, cache and call count are those of the 1-day policy |
| Wu.Day1Step | internal/handlers/proxy_wu.go:142-191 | the call count grows by one exactly when the "wutoday" entry is expired; only that entry can change, and only to the fetched body; the 1-day fetch never panics |
| Wu.Day1Policy | internal/handlers/proxy_wu.go:145-183 | a call is made and counted iff the entry is absent or now > expiry; failure changes nothing; a fetch stores the body for 2 minutes |
| Wu.Day1RepeatWithinLifetime | internal/handlers/proxy_wu.go:145-148 | a result is obtained again, with no call, up to and including the instant its entry expires |
| Wu.ProxyWUToday | internal/handlers/proxy_wu.go:46-140 | the handler's cache effects are the 1-day policy's and its answer is built from the observations it obtained |
| Wu.GetTodayHistory | internal/handlers/proxy_wu.go:229-311 | cache, call count and result are those of the today-history step |
| Wu.TodayStep | internal/handlers/proxy_wu.go:229-311 | the call count grows by one exactly when the "wuTodayHistory" entry is expired; only that entry can change, and only to the fetched body; this half never panics |
| Wu.FirstFailingDay | internal/handlers/proxy_wu.go:324-358 | the first prior day whose fetch fails, every earlier one having succeeded |
| Wu.PriorDays | internal/handlers/proxy_wu.go:324-358 | six prior-day lists when all fetches succeed |
| Wu.FetchRestOfWeek | internal/handlers/proxy_wu.go:318-358 | the loop counts one call per attempted day, stops at the first failure, and on success holds the six prior days in order |
| Wu.CombineWeek | internal/handlers/proxy_wu.go:381-387 | the weekly body is today's list followed by the six rest lists |
| Wu.GetCached7DayHistory | internal/handlers/proxy_wu.go:225-399 | cache, call count and result are those of the 7-day step |
| Wu.WeekStep | internal/handlers/proxy_wu.go:225-399 | at most seven calls are made, and only the "wuTodayHistory" and "wuRestHistory" entries can change |
| Wu.ProxyWUHistory | internal/handlers/proxy_wu.go:213-223 | the handler serves the 7-day result, or 500 with its message |
| Wu.Prefetch | internal/handlers/proxy_wu.go:34-44 | the prefetch runs the 1-day step, then the 7-day step whatever the first's outcome, and reports a crash exactly when the 7-day step panics |
| Wu.WuPrefetchCrashNeedsUnknownZone | internal/handlers/proxy_wu.go:295-301 | with a well-formed rest-of-the-week entry, the prefetch crashes only when the day's cached history is fresh and its station zone does not load |
| Wu.PriorDayDate | internal/handlers/proxy_wu.go:328-329 | base - i*86400 falls i local days before the base instant |
| Wu.WeeklyShape | internal/handlers/proxy_wu.go:381-391 | a weekly body has 7 lists: index 0 is today's, index i is the rest entry's i-1 |
| Wu.TodayKeepsRestEntry | internal/handlers/proxy_wu.go:229-311 | today's half never touches the rest-of-the-week entry |
| Wu.RestUntouchedOnFailure | internal/handlers/proxy_wu.go:313-379 | a failed 7-day call leaves "wuRestHistory" unchanged |
| Wu.RestWrittenShape | internal/handlers/proxy_wu.go:360-374 | a written rest entry means all six days were fetched, and holds them until the next local midnight after the base instant |
| Wu.PriorDaysAreHistory | internal/handlers/proxy_wu.go:324-358 | prior day j+1 is the history reply for the local date j+1 days before the base instant's |
| Wu.RestWrittenOnSuccess | internal/handlers/proxy_wu.go:360-374 | the written entry holds the six prior local dates' replies and expires at the first local midnight after the base instant |
| Wu.WeekCallBound | internal/handlers/proxy_wu.go:236-358 | a 7-day call makes at most seven upstream calls, and none exactly when both entries are served fresh |
| Wu.WeekStepKeepsRestWellFormed | internal/handlers/proxy_wu.go:313-387 | the rest entry always holds six days, so the only panic comes from a cached today's list whose zone does not load |
| Wu.Day1KeepsRestEntry | internal/handlers/proxy_wu.go:142-191 | the 1-day fetch never touches the rest-of-the-week entry |
| Moon.FetchMoonData | internal/handlers/proxy_moon.go:93-172 | result, cache and call count are those of the moon fetch step |
| Moon.MoonFetch | internal/handlers/proxy_moon.go:93-172 | the moon fetch changes the cache and counter only through the 1-day step, and a success is a moon body naming one of the eight phases |
| Moon.ProxyMoon | internal/handlers/proxy_moon.go:57-91 | answer and cache are those of the moon cache policy |
| Moon.ProxyMoonStep | internal/handlers/proxy_moon.go:57-91 | a fresh "moon" entry changes nothing; the connection is dropped exactly when the fetch panics; every other answer is a 200 or the 500 "Failed to fetch moon data"; a 200 body is what the "moon" entry then holds |
| Moon.PrefetchMoonData | internal/handlers/proxy_moon.go:38-54 | the prefetch stores a fetched body for an hour, writes nothing on error, and reports a crash exactly when the fetch panics |
| Moon.PrefetchCrashesOnEmptyDay | internal/handlers/proxy_moon.go:102-103 | as written, a fresh 1-day entry with an empty or missing observation list makes the prefetch end the process, with the cache unchanged |
| Moon.MoonPrefetchRecovered | internal/handlers/proxy_moon.go:38-43 | with the panic recovered, the prefetcher keeps running, every failed fetch leaves "moon" as it was, and a prefetch that did not panic is unchanged |
| Moon.MoonFetchKeepsMoonEntry | internal/handlers/proxy_moon.go:93-105 | fetching the moon data never writes the "moon" entry itself |
| Moon.ServesFreshEntry | internal/handlers/proxy_moon.go:61-70 | a present entry with now < expiry is served with no fetch and no change |
| Moon.MissPolicy | internal/handlers/proxy_moon.go:72-90 | on a miss a fetched body is stored for an hour and served; a failure leaves "moon" untouched and answers 500 |
| Moon.PrefetchErrorKeepsEntry | internal/handlers/proxy_moon.go:39-43 | a failed fetch leaves "moon" untouched; the prefetch keeps the process running iff the failure is not a panic |
| Moon.UsesLatestPosition | internal/handlers/proxy_moon.go:102-113 | the astronomy service is asked only about the last observation's position: services that agree there give the same outcome |
| Moon.MoonBodyContents | internal/handlers/proxy_moon.go:141-164 | an unreadable angle is an error; otherwise the body carries the phase of the angle and the angle string itself |
| Sun.FetchAndCacheSunriseSunset | internal/handlers/sunrisesunset.go:37-94 | result, cache and call count are those of the sunrise-sunset step |
| Sun.SunStep | internal/handlers/sunrisesunset.go:37-94 | the call count is the 1-day step's; only the "wutoday" and "sunriseSunset" entries can change; a successful result is what the sun entry then holds |
| Sun.ProxySunriseSunset | internal/handlers/sunrisesunset.go:97-107 | the body is served, or 500 on failure |
| Sun.PrefetchSunriseSunset | internal/handlers/sunrisesunset.go:29-35 | the prefetch has exactly the step's effect on the cache, and reports a crash exactly when the step panics |
| Sun.SunPrefetchCrashesIffNoRecord | internal/handlers/sunrisesunset.go:43-44 | the sun prefetch ends the process iff the 1-day observations are readable but hold no record, leaving the 1-day fetch's effect only |
| Sun.ObservationsFirst | internal/handlers/sunrisesunset.go:38-41 | a failed observations lookup is the error, even when the sun entry is fresh |
| Sun.UnknownZoneRefused | internal/handlers/sunrisesunset.go:47-52 | a time zone that does not load is an error |
| Sun.ServedFromCacheIffFresh | internal/handlers/sunrisesunset.go:57-63 | the cached body is returned iff present and now < expiry |
| Sun.FailureKeepsEntry | internal/handlers/sunrisesunset.go:65-78 | on any failure the sun entry is unchanged |
| Sun.SuccessStoresUntilMidnight | internal/handlers/sunrisesunset.go:80-91 | a fetched body is stored until the next local midnight in the station zone |
| CacheControl.MaxAge | internal/middleware/cache.go:31 | the whole seconds of the duration, truncated toward zero |
| CacheControl.ChooseDuration | internal/middleware/cache.go:16-22 | a path with an extension gets the static duration; any other gets its listed duration or the default |
| CacheControl.HeaderValue | internal/middleware/cache.go:30-33 | the header starts "public, max-age=" and its number is negative exactly when the duration is a second or more below zero |
| CacheControl.DurationCases | internal/middleware/cache.go:16-22 | a path with an extension gets the static duration even if listed; otherwise a listed path gets its own, and any other the default |
| CacheControl.HeaderReadsBack | internal/middleware/cache.go:30-33 | the header is "public, max-age=" followed by the decimal seconds, which read back to the max-age |
| CacheControl.CacheControlHeader | internal/middleware/cache.go:16-33 | the header the middleware sets starts "public, max-age=" and its number reads back as the whole seconds of the static duration for a path with an extension, of the listed duration for another listed path, and of the default otherwise |
| CacheControl.RouteSamples | cmd/wsrepeater/main.go:23-36 | with the route table, an RSS path gets 300 s, "/script.js" 86400 s and "/stats" 0 s |
| CacheControl.RouteDuration | cmd/wsrepeater/main.go:23-36 | a listed route without an extension gets its listed duration |
| Stats.ExponentBounds | internal/middleware/stats.go:69-73 | for b at least 1024, div = 1024^(exp+1) and 1 <= b/div < 1024 |
| Stats.ExponentInRange | internal/middleware/stats.go:69-74 | exp <= 5 for every 64-bit count, so the unit letter is in range |
| Stats.FormatBytes | internal/middleware/stats.go:64-75 | the loop's text is the formatted size |
| Stats.FormatBytesSamples | internal/middleware/stats.go:64-75 | 1023 is "1023 B", 1024 is "1.00 KB" and 1048576 is "1.00 MB" |
| Stats.Recorded | internal/middleware/stats.go:48-57 | a request adds one hit and its elapsed time, and the slowest time becomes max(old, elapsed) |
| Stats.ReplayFromZero | internal/middleware/stats.go:48-57 | after a run of requests, hits count them, total time sums them and the slowest time is their maximum |
| Stats.SlowestNeverDecreases | internal/middleware/stats.go:52-57 | the slowest time never decreases |
| Stats.AverageAtMostSlowest | internal/middleware/stats.go:87-94 | the average TotalTime/Hits (0 with no hits) never exceeds the slowest time |
| Stats.ObserveEffect | internal/middleware/stats.go:39-46 | a path with a non-xml extension is never recorded; any other adds to its own counters only |
| Stats.Observe | internal/middleware/stats.go:39-46 | a static-file path leaves the key set as it was, any other adds its own key; all other entries are unchanged, and the path's total time grows by the elapsed time |
| Stats.Stats.constructor | internal/middleware/stats.go:30-32 | statistics start empty |
| Stats.Stats.Middleware | internal/middleware/stats.go:34-62 | a request updates the statistics as its observation says |
| Stats.Stats.EndpointReport | internal/middleware/stats.go:82-105 | the keys are every endpoint once, in ascending order, with each row's averages |
| Text.Contains | html/warnings.js:22 | true iff the word occurs at some position |
| Text.Lower | html/warnings.js:20 | lower-casing maps each letter A-Z to a-z and keeps length and every other character |
| Text.NatToString | internal/middleware/cache.go:32 | decimal digits with no leading zero |
| Text.IntToString | internal/middleware/cache.go:32 | decimal text with a minus sign exactly for negatives |
| Text.DigitsValueOfNatToString | internal/middleware/cache.go:32 | the digits of a number read back as that number |
| Text.ParseDecimalOfIntToString | internal/middleware/cache.go:32 | formatting an integer and parsing it back gives the integer |
| Text.ParseDecimal | internal/handlers/repeater.go:52 | an empty string does not parse as a number |
| Text.ParseUnsignedSyntax | internal/handlers/repeater.go:52-85 | unsigned text is read iff it has a digit, only digits and points, and at most one point |
| Text.ParseDecimalSyntax | internal/handlers/repeater.go:52-85 | text is read iff it is unsigned decimal text after an optional sign; any other character, or a second point, is a syntax error |
| Text.ParseDecimalFraction | internal/handlers/repeater.go:52-85 | digits, a point and digits read as the whole part plus the fraction digits over ten to the number of places |
| Text.ParseDecimalNegativeFraction | internal/handlers/proxy_moon.go:153 | the same text after a minus sign reads as the negated value |
| Text.ReplaceFirst | cmd/wsrepeater/static/daily.js:139-144 | a text without the pattern is unchanged; a leading pattern is replaced |
| Text.ReplaceFirstAt | cmd/wsrepeater/static/daily.js:139-144 | wherever the first occurrence starts, it is replaced and the text before and after it is kept |
| Text.InsertString | internal/middleware/stats.go:105 | insertion keeps the keys sorted and adds exactly the new one |
| Text.SortStrings | internal/middleware/stats.go:105 | the result is sorted and a permutation of the keys |
| Upstream.Body200 | internal/handlers/proxy_rss.go:97-110 | a fetch yields a body iff the reply is 200 with a readable body; a network error is a transport failure |
| Upstream.DecodeDay | internal/handlers/proxy_wu.go:257-262 | decoding fails iff the body is not a JSON object; the observations are present iff the member is an array |
| Upstream.NextMidnight | internal/handlers/sunrisesunset.go:81-83 | the next local midnight is strictly later, at most a day later, and starts the next local date |
| Warnings.Severity | html/warnings.js:16-33 | the badge is green iff no summary mentions a warning, a watch or a statement, and red iff some summary mentions a warning |
| Warnings.FetchWarning | html/warnings.js:8-41 | the loop's colour is the feed's severity and its count is the number of relevant summaries; the new inner HTML is built from the badge's current text, and the text left behind is that text followed by the count's digits when the count is positive |
| Warnings.RelevantCount | html/warnings.js:19-33 | the count never exceeds the number of summaries |
| Warnings.SeveritySnoc | html/warnings.js:19-33 | the loop body's update of the colour is the severity of the longer prefix |
| Warnings.CountPositive | html/warnings.js:19-33 | the count is positive iff some summary mentions a warning, a watch or a statement |
| Warnings.CountedIffColored | html/warnings.js:19-33 | count > 0 iff the colour is not green |
| Warnings.BadgeShowsCountIffColored | html/warnings.js:35-41 | for a badge whose HTML is rebuilt from its label, the count appears iff the colour is not green (the corrected behaviour) |
| Warnings.TextAfterAppend | html/warnings.js:36-41 | the count's digits join the end of the badge text, whatever text precedes them |
| Warnings.DigitsPileUp | html/warnings.js:36-55 | as written, after any sequence of refreshes the badge's text is its label followed by the digits of every positive count so far |
| Warnings.StaleCountOnGreen | html/warnings.js:36-41 | as written, a counted refresh followed by a green one leaves the earlier count's digits on the green badge |
| Warnings.MentionsAt | html/warnings.js:20-21 | a word found in the lower-cased summary is mentioned |
| Warnings.OneWarningCounted | html/warnings.js:19-33 | a one-summary feed that mentions a warning is red with count one |
| Warnings.StaleKentBadge | html/warnings.js:36-55 | as written, a "Tornado Warning" refresh then an empty feed leave the Kent badge green with text "Kent1" |
| Warnings.CaseIgnored | html/warnings.js:20 | a summary and its lower-cased copy mention the same words |
| Warnings.WarningDominates | html/warnings.js:22-24 | one warning makes the badge red whatever else the feed holds |
| Daily.JsMax | cmd/wsrepeater/static/daily.js:53-56 | Math.max: NaN when either side is unreadable, else the larger |
| Daily.JsMin | cmd/wsrepeater/static/daily.js:57-60 | Math.min: NaN when either side is unreadable, else the smaller |
| Daily.DailyExtremesBracketCurrent | cmd/wsrepeater/static/daily.js:53-60 | the shown high is at least, and the shown low at most, both the history value and the current one |
| Daily.UpdateDailyData | cmd/wsrepeater/static/daily.js:36-84 | each high is Math.max and each low Math.min of the history value and the displayed reading: NaN when the reading is, otherwise the larger (smaller) of the two |
| Daily.UnreadableCurrentGivesNaN | cmd/wsrepeater/static/daily.js:36-80 | an unreadable current value makes the shown extreme NaN |
| Daily.WordEnd | cmd/wsrepeater/static/daily.js:119 | the end of the run of word characters starting at i |
| Daily.BackOff | cmd/wsrepeater/static/daily.js:119 | the last position after i and up to k where the regex's tail (an optional " night" then ":") matches, if any |
| Daily.GroupAtWordEnd | cmd/wsrepeater/static/daily.js:119 | the captured group can end at k iff k lies inside the word run starting at i and the tail matches at k |
| Daily.MatchFrom | cmd/wsrepeater/static/daily.js:119 | a match found lies inside the text from i on |
| Daily.MatchFromIsLeftmostLongest | cmd/wsrepeater/static/daily.js:119 | the match found is the leftmost one with the longest group |
| Daily.TitleDayIsLeftmostLongest | cmd/wsrepeater/static/daily.js:119-120 | the captured day name is the regex's leftmost-longest capture |
| Daily.TitleDayOfForecast | cmd/wsrepeater/static/daily.js:119-120 | a title "<day>: ..." or "<day> night: ..." gives the day's name |
| Daily.ForecastTitles | cmd/wsrepeater/static/daily.js:111-116 | no more titles are kept than there are entries |
| Daily.Runs | cmd/wsrepeater/static/daily.js:123-135 | there are no runs exactly when there are no titles |
| Daily.ShownCards | cmd/wsrepeater/static/daily.js:124-131 | at most one card per run, and every card has a non-empty part |
| Daily.ForecastCards | cmd/wsrepeater/static/daily.js:105-156 | at most 4 cards are emitted |
| Daily.RunsNewDay | cmd/wsrepeater/static/daily.js:123-135 | a title of a new day closes the open run into the cards and opens a run of its own |
| Daily.RunsSameDay | cmd/wsrepeater/static/daily.js:123 | a title of the same day extends the open run and closes nothing |
| Daily.PartsSnoc | cmd/wsrepeater/static/daily.js:138-145 | a night title sets the night part, any other sets the day part, with the day-name prefix replaced |
| Daily.TracksOtherCategory | cmd/wsrepeater/static/daily.js:105-147 | an entry of another category leaves the loop state as it was |
| Daily.TracksSkip | cmd/wsrepeater/static/daily.js:105-147 | past the card limit, or for another category, an entry leaves the loop state as it was |
| Daily.TracksFull | cmd/wsrepeater/static/daily.js:105-147 | once four cards are out, a forecast entry changes nothing |
| Daily.TracksNewDay | cmd/wsrepeater/static/daily.js:105-147 | a new day flushes the current card and starts the next run |
| Daily.TracksSameDay | cmd/wsrepeater/static/daily.js:105-147 | a same-day title updates the current run's parts |
| Daily.TracksEnd | cmd/wsrepeater/static/daily.js:150-156 | the final flush emits the last run's card when it has a part and there is room |
| Daily.ScanTracks | cmd/wsrepeater/static/daily.js:105-147 | the loop state after the entries tracks their runs |
| Daily.ScanCards | cmd/wsrepeater/static/daily.js:150-156 | the loop's output is the cards of the grouped runs |
| Daily.UpdateForecastData | cmd/wsrepeater/static/daily.js:99-158 | the loop emits exactly the forecast cards of the entries |
| Daily.OtherCategoryIgnored | cmd/wsrepeater/static/daily.js:115 | entries of other categories do not change the cards |
| Daily.RunsJoined | cmd/wsrepeater/static/daily.js:123-135 | the runs, joined, give back the titles in order |
| Daily.RunsUniform | cmd/wsrepeater/static/daily.js:123-135 | every title of a run has that run's day |
| Daily.RunsMaximal | cmd/wsrepeater/static/daily.js:123-135 | consecutive runs have different days |
| Daily.LastDayTitleWins | cmd/wsrepeater/static/daily.js:143-145 | a later day title overwrites an earlier one |
| Daily.LastNightTitleWins | cmd/wsrepeater/static/daily.js:138-142 | a later night title overwrites an earlier one |
| Daily.NightTitle | cmd/wsrepeater/static/daily.js:138 | a title "Day night: ..." is a night title |
| Daily.SameDayOneRun | cmd/wsrepeater/static/daily.js:123 | titles of one day form a single run |
| Daily.DayAndNightParts | cmd/wsrepeater/static/daily.js:138-145 | a run of a day title and a night title has both parts filled from them |
| Daily.DayAndNightMakeOneCard | cmd/wsrepeater/static/daily.js:105-156 | a day's forecast and night forecast make one card |
| Script.JsRem16 | html/script.js:153 | JavaScript's % 16: the sign of the dividend, magnitude below 16 |
| Script.Cardinal | html/script.js:134-153 | no direction gives no name; a name is always one of the sixteen |
| Script.SectorOf | html/script.js:152 | a direction within 11.25 degrees of sector k falls in sector k |
| Script.CardinalNearest | html/script.js:134-153 | a direction within 11.25 degrees of sector k is named Directions[k mod 16] |
| Script.CardinalDefined | html/script.js:152-153 | every direction from -11.25 upward has a name; just below it has none |
| Script.CardinalPeriodic | html/script.js:152-153 | adding 360 degrees does not change the name |
| Script.CardinalSamples | html/script.js:134-153 | 0 and 360 give N, 90 gives E, 180 S, 270 W, 348.75 N, 348.7 NNW, 11.25 NNE |
| Script.TemperatureIcon | html/script.js:32-38 | the sun icon or the moon icon |
| Script.SunIffDaylight | html/script.js:34-38 | the sun icon iff sunrise <= now < sunset |
| Script.InvalidTimesGiveMoon | html/script.js:34-38 | unreadable sunrise or sunset times give the moon icon |
| Script.MoonGlyph | html/script.js:56-83 | a single moon-phase glyph character |
| Script.MoonGlyphOfPhase | html/script.js:56-83 | the i-th phase name maps to the i-th moon glyph |
| Script.MoonGlyphDistinct | html/script.js:56-83 | the eight phases map to eight different glyphs |
| Script.MoonGlyphDefault | html/script.js:80-82 | any other string maps to the new-moon glyph |
| Script.ExtraFor | html/script.js:177-201 | wind chill is chosen only for a readable temperature of at most 10 °C |
| Script.HumidexIff | html/script.js:178 | humidex iff tempC > 20 |
| Script.WindChillIff | html/script.js:201 | wind chill iff tempC <= 10 and wind > 4.8 km/h |
| Script.NoExtraBetween | html/script.js:177-209 | otherwise nothing extra |
| Script.ExtraHtml | html/script.js:177-209 | the extra text is empty iff nothing extra is chosen |
| Script.PanelAsWritten | html/script.js:211-214 | the panel as written: rewritten only when the text is non-empty |
| Script.Panel | html/script.js:211-214 | the corrected panel shows the latest text, cleared when it is empty |
| Script.StaleHumidex | html/script.js:211-214 | as written, a refresh at 25 °C then one at 15 °C still shows humidex |
| Script.PanelShowsLatest | html/script.js:211-214 | what the corrected panel shows depends only on the latest readings, never on a previous refresh, and it is empty iff nothing extra is chosen |
| Plot.SliceEnd | html/plot.js:168 | the end of slice(0, days) never exceeds the number of day lists | 
| Plot.FlattenDays | html/plot.js:167-170 | the loop's list is the concatenation, in order, of the first days' lists |
| Plot.SliceEndCounts | html/plot.js:168 | slice(0, days) keeps min(days, length) lists for non-negative days, counts back from the end for negative days, and keeps none below minus the length |
| Plot.DefaultIsAWeek | html/plot.js:158 | the default keeps seven lists |
| Plot.ConcatSplit | html/plot.js:167-170 | the flattened list is the lists before, the list itself and the lists after |
| Plot.ConcatMember | html/plot.js:167-170 | an observation is in the flattened list iff it is in one of the lists |
| Plot.ConcatAppend | html/plot.js:169 | flattening distributes over appending day lists |
| Plot.InsertByTime | html/plot.js:17-19 | one insertion step extends the sorted prefix and permutes the array |
| Plot.SortByTime | html/plot.js:17-19 | the observations end in non-decreasing obsTimeLocal order, a permutation of the input |
| Plot.PrepareData | html/plot.js:1-14 | x and y have the observations' length, y holds each reading, and the colour is orange iff the trace is named "Gusts" |
| Plot.TraceName | html/plot.js:86 | the trace name at a position, if any |
| Plot.Traces | html/plot.js:80-99 | one trace per extractor, named from traceNames by position |
| Plot.Times | html/plot.js:21 | one time per observation |
| Plot.TracesMatchObservations | html/plot.js:1-21 | every trace's x and y have the length of the observation list |
| Plot.PlotTraceShapes | html/plot.js:24-99 | the wind plot has a Speed trace and an orange Gusts trace; every other plot has one cyan trace; the temperature trace is named "Temperature (Â°C)", the source's own doubly encoded degree sign |
| Plot.PlotData | html/plot.js:16-99 | the observations are sorted in place, then each plot gets the traces of the sorted list |

## Left out

- HTTP, network and JSON: requests, responses and encoders are abstracted. Upstream replies are parameters and bodies are decoded values. JSON encoding of `GetLatestData` and of the dashboard bodies is not modelled.
- Concurrency: goroutines, mutexes, the worker pool's parallel scheduling and the compare-and-swap loop are left out. State is sequential, and the CAS loop is its sequential meaning, a maximum. A full queue is modelled as a recorded blocked send instead of a blocked goroutine.
- The infinite ticker loops of the `Start*Prefetcher` functions are left out. One prefetch step is modelled for each.
- Clocks: every handler call reads one `now`, while the Go code calls `time.Now()` several times.
- Time zones are fixed UTC offsets, so DST transitions are not modelled. `time.LoadLocation` is a map lookup.
- Floating point: dew point (log), moon illumination (cos), unit conversions, the humidex and wind-chill values, and `%.2f`/`toFixed` formatting are parameters or left out. `Stats.FormatBytes` takes the `%.2f` formatter as a parameter.
- Text.ParseDecimal: only optional-sign decimal text is read. Exponents, `Inf`, `NaN`, hexadecimal floats and underscores, which `strconv.ParseFloat` also accepts, are not. Magnitudes beyond the float64 range, for which `strconv.ParseFloat` returns a range error, are read as exact reals: the repeater's 400 answers (internal/handlers/repeater.go:52-85) and the moon proxy's angle error (internal/handlers/proxy_moon.go:153-156) for such text are not modelled.
- Utils.MoonPhaseFromAngle: the loop runs on exact reals and always ends. Float64 rounding is not modelled, so for an angle below -2^62, where `angle + 360` rounds back to `angle`, and for `-Inf`, the Go loop never ends while the method returns (Utils.LoopStuckBelowTwoPow62 states the first case on a float64 model of the step).
- Script.Cardinal: JavaScript's `Infinity` and `NaN` directions are not modelled (reals are finite). An unreadable direction is `None`.
- Script.TemperatureIcon: times are plain integers. Date parsing and the millisecond clock are left out.
- Plot.SortByTime: the stability of `Array.prototype.sort` is not stated, only the order and the permutation. The comparison is on `obsTimeLocal` as an integer.
- Plot.PrepareData: `toFixed` throwing on a missing member is modelled as a `None` y value.
- DOM, Plotly layout and rendering, `fetch` and its catch branches are left out, as are the HTML stats template, `runtime` memory statistics, env loading in internal/config/config.go and middleware wiring in cmd/wsrepeater/main.go. Only the route duration table is used.
- The sunrise-sunset, AstronomyAPI and Weather Underground URL formats and headers are left out. A call is a function of what its URL encodes, with one exception: the AstronomyAPI call is keyed on latitude and longitude only. The `from_date`, `to_date` and `time` it also sends (internal/handlers/proxy_moon.go:107-113) are not parameters, so one `Upstream.Services` value stands for the replies at a single instant.
- Observation records with missing members: the model's `Upstream.Observation` always has the unit block (`units`, the JSON member `imperial`), `epoch`, `qcStatus`, `tz`, `lat` and `lon`. Each observations element is taken to be an object. In Go, `json.Unmarshal` also accepts an element that is not an object, or a record without one of these members. The type assertion that follows then panics, and those panics are not modelled. Those assertions are at internal/handlers/proxy_wu.go:76-80, proxy_moon.go:103-105 and sunrisesunset.go:44-47. Each panic drops the handler's connection, and in the WU, moon and sun prefetchers it ends the process. A missing extreme reading inside a record is modelled, as `Panic` (Wu.UpdateExtremes, Wu.UpdateExtremeValue).

## Findings

| source | as written | input that shows it | evidently intended | confidence | as-written member | corrected member |
|---|---|---|---|---|---|---|
| html/script.js:211-214 | the extra-info panel is rewritten only when the new text is non-empty | a refresh at 25 °C (humidex shown), then one at 15 °C with light wind: the panel keeps the stale humidex (updateWeatherData reruns every 30 s, html/script.js:222) | the panel shows the latest refresh's text, cleared when it is empty | medium, not executed | Script.StaleHumidex | Script.PanelShowsLatest |
| html/warnings.js:36-41 | a badge's new HTML is built from its current `textContent`, which already ends with the previous refresh's count | the Kent badge refreshed (every 10 minutes, html/warnings.js:52-55) once with a "Tornado Warning" feed and then with an empty feed: it is green and reads "Kent1" | the badge shows its label followed by the current count only, and just its label when green | high, not executed | Warnings.StaleKentBadge | Warnings.BadgeShowsCountIffColored |
| internal/handlers/proxy_moon.go:38-43 | the prefetcher goroutine started at cmd/wsrepeater/main.go:56 has no recover, so a panic in fetchMoonData ends the server | a fresh "wutoday" entry whose "observations" list is empty: `observations[len(observations)-1]` (internal/handlers/proxy_moon.go:103) panics and the process exits | a failed prefetch is logged like any other error and the prefetcher keeps running | medium, not executed | Moon.PrefetchCrashesOnEmptyDay | Moon.MoonPrefetchRecovered |
| internal/utils/utils.go:40-42 | negative angles are normalised by adding 360 until they are not negative | an angle below -2^62, such as -10000000000000000000: in float64, `angle + 360` rounds back to `angle`, so the loop never ends | the angle is reduced with math.Mod first and one turn added to a negative remainder, which ends for every finite angle | low, not executed | Utils.LoopStuckBelowTwoPow62 | Utils.PhaseFromAngleByMod |
