/**
 * internal/middleware/cache.go: the Cache-Control header. Durations are
 * time.Duration values, whole nanoseconds.
 */
module CacheControl {

  import opened Wrappers
  import opened Text
  import Utils

  const Second: int := 1000000000
  const Minute: int := 60 * Second
  const Hour: int := 60 * Minute

  /** The duration the middleware picks for a path: static files first, then the table, then the default. */
  function ChooseDuration(cacheDurations: map<string, int>, defaultDuration: int, staticDuration: int, path: string): (d: int)
    ensures Utils.HasExtension(path) ==> d == staticDuration
    ensures !Utils.HasExtension(path) ==> d == (if path in cacheDurations then cacheDurations[path] else defaultDuration)
  {
    if Utils.HasExtension(path) then staticDuration
    else if path in cacheDurations then cacheDurations[path]
    else defaultDuration
  }

  /** int(duration.Seconds()): the whole seconds of a duration, truncated toward zero. */
  function MaxAge(duration: int): (s: int)
    ensures duration >= 0 ==> s * Second <= duration < (s + 1) * Second
    ensures duration < 0 ==> (s - 1) * Second < duration <= s * Second
  {
    if duration >= 0 then duration / Second else -((-duration) / Second)
  }

  /** setCacheControl: the header value. */
  function HeaderValue(duration: int): (h: string)
    ensures IsPrefix("public, max-age=", h) && |h| > |"public, max-age="|
    ensures h[|"public, max-age="|] == '-' <==> duration <= -Second
  {
    "public, max-age=" + IntToString(MaxAge(duration))
  }

  /**
   * The value the middleware sets for one request: "public, max-age=" and a
   * number that reads back as the whole seconds of the static duration for a
   * path with an extension, of the listed duration for another listed path,
   * and of the default for the rest.
   */
  function CacheControlHeader(cacheDurations: map<string, int>, defaultDuration: int, staticDuration: int, path: string): (h: string)
    ensures IsPrefix("public, max-age=", h)
    ensures Utils.HasExtension(path) ==> ParseDecimal(h[|"public, max-age="|..]) == Some(MaxAge(staticDuration) as real)
    ensures !Utils.HasExtension(path) && path in cacheDurations ==> ParseDecimal(h[|"public, max-age="|..]) == Some(MaxAge(cacheDurations[path]) as real)
    ensures !Utils.HasExtension(path) && path !in cacheDurations ==> ParseDecimal(h[|"public, max-age="|..]) == Some(MaxAge(defaultDuration) as real)
  {
    var d := ChooseDuration(cacheDurations, defaultDuration, staticDuration, path);
    HeaderReadsBack(d);
    HeaderValue(d)
  }

  /**
   * The three cases: a path with an extension always gets the static
   * duration, listed or not; any other listed path gets its own; the rest
   * get the default.
   */
  lemma DurationCases(cacheDurations: map<string, int>, defaultDuration: int, staticDuration: int, path: string)
    ensures var d := ChooseDuration(cacheDurations, defaultDuration, staticDuration, path);
      (Utils.Ext(path) != "" && Utils.Ext(path) != ".xml" ==> d == staticDuration)
      && (!(Utils.Ext(path) != "" && Utils.Ext(path) != ".xml") && path in cacheDurations ==> d == cacheDurations[path])
      && (!(Utils.Ext(path) != "" && Utils.Ext(path) != ".xml") && path !in cacheDurations ==> d == defaultDuration)
  {
  }

  /** The header is "public, max-age=" followed by a number that reads back as the duration's whole seconds. */
  lemma HeaderReadsBack(duration: int)
    ensures var h := HeaderValue(duration);
      IsPrefix("public, max-age=", h)
      && ParseDecimal(h[|"public, max-age="|..]) == Some(MaxAge(duration) as real)
  {
    var h := HeaderValue(duration);
    assert h[|"public, max-age="|..] == IntToString(MaxAge(duration));
    ParseDecimalOfIntToString(MaxAge(duration));
  }

  /** The route table of cmd/wsrepeater/main.go. */
  const RouteDurations: map<string, int> := map[
    "/" := 120 * Minute,
    "/stats" := 0,
    "/latest" := 1 * Minute,
    "/weekly" := 5 * Minute,
    "/moon" := 20 * Minute,
    "/wutoday" := 5 * Minute,
    "/rss/nb10_e.xml" := 5 * Minute,
    "/rss/nb16_e.xml" := 5 * Minute,
    "/rss/city/nb-17_e.xml" := 5 * Minute
  ]

  const DefaultDuration: int := 1 * Minute

  const StaticDuration: int := 24 * Hour

  /** A listed path without an extension gets its listed duration. */
  lemma RouteDuration(path: string, d: int)
    requires path in RouteDurations && RouteDurations[path] == d && !Utils.HasExtension(path)
    ensures ChooseDuration(RouteDurations, DefaultDuration, StaticDuration, path) == d
  {
  }

  /** With that table: a feed gets its five minutes, a script the static day, /stats no caching at all. */
  lemma RouteSamples(feed: string, script: string, stats: string)
    requires feed == "/rss/nb10_e.xml" && script == "/script.js" && stats == "/stats"
    ensures MaxAge(ChooseDuration(RouteDurations, DefaultDuration, StaticDuration, feed)) == 300
    ensures MaxAge(ChooseDuration(RouteDurations, DefaultDuration, StaticDuration, script)) == 86400
    ensures MaxAge(ChooseDuration(RouteDurations, DefaultDuration, StaticDuration, stats)) == 0
  {
    Utils.HasExtensionSamples();
    RouteDuration(feed, 5 * Minute);
    RouteDuration(stats, 0);
    assert MaxAge(5 * Minute) == 300 && MaxAge(StaticDuration) == 86400 && MaxAge(0) == 0;
  }
}
