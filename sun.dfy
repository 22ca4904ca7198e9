/**
 * The sunrise-sunset proxy: the cached 1-day observations give the station's
 * latest position and time zone; the sunrise-sunset reply for that position is
 * cached under "sunriseSunset" until the next local midnight.
 */
module Sun {

  import opened Wrappers
  import opened Upstream
  import opened Cache
  import Wu

  const SunKey: string := "sunriseSunset"

  /**
   * fetchAndCacheSunriseSunset. The observations come first, then the latest
   * record's time zone, and only then the cache: a failure of either is an
   * error even while the sun entry is fresh.
   */
  function SunStep(items: map<string, CachedItem>, hits: nat, now: int, sv: Services): (f: Step<Body>)
    ensures f.hits == Wu.Day1Step(items, hits, now, sv).hits
    ensures f.items.Keys <= items.Keys + {Wu.TodayKey, SunKey}
    ensures forall k :: k in items && k != Wu.TodayKey && k != SunKey ==> k in f.items && f.items[k] == items[k]
    ensures f.result.Ok? ==> SunKey in f.items && f.items[SunKey].content == f.result.value
  {
    var s := Wu.Day1Step(items, hits, now, sv);
    match s.result
    case Err(e) => Step(Err(e), s.items, s.hits)
    case Ok(None) => Step(Err(Panic), s.items, s.hits)
    case Ok(Some(obs)) =>
      if obs == [] then Step(Err(Panic), s.items, s.hits)
      else
        var latest := obs[|obs| - 1];
        if latest.tz !in sv.zones then Step(Err(BadTimezone), s.items, s.hits)
        else if FreshBefore(s.items, SunKey, now) then Step(Ok(s.items[SunKey].content), s.items, s.hits)
        else
          match Body200(sv.sunriseSunset(latest.lat, latest.lon))
          case Err(e) => Step(Err(e), s.items, s.hits)
          case Ok(body) =>
            Step(Ok(body), s.items[SunKey := CachedItem(body, NextMidnight(now, sv.zones[latest.tz]))], s.hits)
  }

  method FetchAndCacheSunriseSunset(store: Store, now: int, sv: Services) returns (r: Result<Body, Failure>)
    modifies store
    ensures Step(r, store.items, store.wuHits) == SunStep(old(store.items), old(store.wuHits), now, sv)
  {
    var observationsResponse := Wu.GetCached1DayObservations(store, now, sv);
    if observationsResponse.Err? {
      return Err(observationsResponse.error);
    }
    if observationsResponse.value.None? {
      return Err(Panic);
    }
    var observations := observationsResponse.value.value;
    if |observations| == 0 {
      return Err(Panic);
    }
    var latestObservation := observations[|observations| - 1];
    var timezone := latestObservation.tz;
    if timezone !in sv.zones {
      return Err(BadTimezone);
    }
    var loc := sv.zones[timezone];
    var cacheKeySun := SunKey;
    if cacheKeySun in store.items && now < store.items[cacheKeySun].expiryTime {
      return Ok(store.items[cacheKeySun].content);
    }
    var fetched := Body200(sv.sunriseSunset(latestObservation.lat, latestObservation.lon));
    if fetched.Err? {
      return Err(fetched.error);
    }
    var localMidnight := NextMidnight(now, loc);
    store.items := store.items[cacheKeySun := CachedItem(fetched.value, localMidnight)];
    r := Ok(fetched.value);
  }

  /** ProxySunriseSunset: the fetched or cached body, or a 500 error. */
  method ProxySunriseSunset(store: Store, now: int, sv: Services) returns (a: Answer)
    modifies store
    ensures var f := SunStep(old(store.items), old(store.wuHits), now, sv);
      a == Serve(f.result, "Failed to fetch sunrise-sunset data") && store.items == f.items && store.wuHits == f.hits
  {
    var data := FetchAndCacheSunriseSunset(store, now, sv);
    a := Serve(data, "Failed to fetch sunrise-sunset data");
  }

  /** prefetchSunriseSunset as written: one fetch, whose error is only logged and whose panic ends the process. */
  function SunPrefetch(items: map<string, CachedItem>, hits: nat, now: int, sv: Services): Prefetched {
    var f := SunStep(items, hits, now, sv);
    Prefetched(f.result != Err(Panic), f.items, f.hits)
  }

  method PrefetchSunriseSunset(store: Store, now: int, sv: Services) returns (crashed: bool)
    modifies store
    ensures Prefetched(!crashed, store.items, store.wuHits) == SunPrefetch(old(store.items), old(store.wuHits), now, sv)
  {
    var r := FetchAndCacheSunriseSunset(store, now, sv);
    crashed := r == Err(Panic);
  }

  /**
   * The sun prefetch ends the process exactly when the 1-day observations
   * are readable but hold no record, and then it changes nothing but the
   * 1-day fetch's own effect.
   */
  lemma SunPrefetchCrashesIffNoRecord(items: map<string, CachedItem>, hits: nat, now: int, sv: Services)
    ensures var s := Wu.Day1Step(items, hits, now, sv);
      !SunPrefetch(items, hits, now, sv).running <==> s.result.Ok? && (s.result.value.None? || s.result.value.value == [])
    ensures var s := Wu.Day1Step(items, hits, now, sv);
      !SunPrefetch(items, hits, now, sv).running ==> SunPrefetch(items, hits, now, sv).items == s.items
  {
  }

  /** A failure to get the observations is the result, whatever the sun entry holds. */
  lemma ObservationsFirst(items: map<string, CachedItem>, hits: nat, now: int, sv: Services)
    requires Wu.Day1Step(items, hits, now, sv).result.Err?
    ensures SunStep(items, hits, now, sv).result == Err(Wu.Day1Step(items, hits, now, sv).result.error)
  {
  }

  /** A latest record whose time zone cannot be loaded is an error, whatever the sun entry holds. */
  lemma UnknownZoneRefused(items: map<string, CachedItem>, hits: nat, now: int, sv: Services)
    requires var s := Wu.Day1Step(items, hits, now, sv);
      s.result.Ok? && s.result.value.Some? && |s.result.value.value| > 0
      && s.result.value.value[|s.result.value.value| - 1].tz !in sv.zones
    ensures SunStep(items, hits, now, sv).result == Err(BadTimezone)
  {
  }

  /**
   * Once the observations and the zone are in hand, the cached entry is
   * returned exactly when it is present and strictly unexpired; then nothing changes.
   */
  lemma ServedFromCacheIffFresh(items: map<string, CachedItem>, hits: nat, now: int, sv: Services)
    requires var s := Wu.Day1Step(items, hits, now, sv);
      s.result.Ok? && s.result.value.Some? && |s.result.value.value| > 0
      && s.result.value.value[|s.result.value.value| - 1].tz in sv.zones
    ensures var s := Wu.Day1Step(items, hits, now, sv);
      FreshBefore(items, SunKey, now) ==>
        SunStep(items, hits, now, sv) == Step(Ok(items[SunKey].content), s.items, s.hits)
    ensures var s := Wu.Day1Step(items, hits, now, sv);
      var latest := s.result.value.value[|s.result.value.value| - 1];
      !FreshBefore(items, SunKey, now) ==>
        SunStep(items, hits, now, sv).result == Body200(sv.sunriseSunset(latest.lat, latest.lon))
  {
    Wu.Day1Policy(items, hits, now, sv);
  }

  /** Every failure leaves the sun entry as it was. */
  lemma FailureKeepsEntry(items: map<string, CachedItem>, hits: nat, now: int, sv: Services)
    requires SunStep(items, hits, now, sv).result.Err?
    ensures var f := SunStep(items, hits, now, sv);
      (SunKey in f.items <==> SunKey in items) && (SunKey in items ==> f.items[SunKey] == items[SunKey])
  {
  }

  /**
   * A changed sun entry holds the reply fetched for the latest record's
   * position, and expires at the first local midnight after now in that
   * record's zone: later than now, at most a day away, on the next local day.
   */
  lemma SuccessStoresUntilMidnight(items: map<string, CachedItem>, hits: nat, now: int, sv: Services)
    requires var f := SunStep(items, hits, now, sv);
      SunKey in f.items && (SunKey !in items || f.items[SunKey] != items[SunKey])
    ensures var s := Wu.Day1Step(items, hits, now, sv);
      s.result.Ok? && s.result.value.Some? && |s.result.value.value| > 0
    ensures var s := Wu.Day1Step(items, hits, now, sv);
      var latest := s.result.value.value[|s.result.value.value| - 1];
      var f := SunStep(items, hits, now, sv);
      var expiry := f.items[SunKey].expiryTime;
      latest.tz in sv.zones && !FreshBefore(items, SunKey, now)
      && Body200(sv.sunriseSunset(latest.lat, latest.lon)) == Ok(f.items[SunKey].content)
      && f.result == Ok(f.items[SunKey].content)
      && expiry == NextMidnight(now, sv.zones[latest.tz])
      && now < expiry <= now + SecondsPerDay
      && LocalDay(expiry, sv.zones[latest.tz]) == LocalDay(now, sv.zones[latest.tz]) + 1
  {
    Wu.Day1Policy(items, hits, now, sv);
  }
}
