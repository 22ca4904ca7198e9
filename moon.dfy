/**
 * The moon proxy: the phase computed from the astronomy service's phase angle
 * at the station's latest position, cached under "moon" for an hour.
 */
module Moon {

  import opened Wrappers
  import opened Text
  import opened Upstream
  import opened Cache
  import Utils
  import Wu

  const MoonKey: string := "moon"

  /**
   * The phase-angle string of an astronomy reply: a decoding error unless the
   * body is a JSON object, a panic when the nested member is missing.
   */
  function DecodeAngle(b: Body): Result<string, Failure> {
    if !IsJsonObject(b) then Err(BadJson)
    else if b.AstroJson? && b.phaseAngle.Some? then Ok(b.phaseAngle.value)
    else Err(Panic)
  }

  /** The moon body built from an astronomy reply: the phase of the parsed angle, and the angle string itself. */
  function MoonBody(reply: Reply): Result<Body, Failure> {
    match Body200(reply)
    case Err(e) => Err(e)
    case Ok(body) =>
      match DecodeAngle(body)
      case Err(e) => Err(e)
      case Ok(angleStr) =>
        match ParseDecimal(angleStr)
        case None => Err(BadAngle)
        case Some(angle) => Ok(MoonJson(Utils.PhaseOfNormalized(Utils.NormalizedAngle(angle)), angleStr))
  }

  /** fetchMoonData: the cached 1-day observations first, then the astronomy call at the LAST record's position. */
  function MoonFetch(items: map<string, CachedItem>, hits: nat, now: int, sv: Services): (f: Step<Body>)
    ensures f.items == Wu.Day1Step(items, hits, now, sv).items && f.hits == Wu.Day1Step(items, hits, now, sv).hits
    ensures f.result.Ok? ==> f.result.value.MoonJson? && f.result.value.phase in Utils.PhaseNames
  {
    var s := Wu.Day1Step(items, hits, now, sv);
    match s.result
    case Err(e) => Step(Err(e), s.items, s.hits)
    case Ok(None) => Step(Err(Panic), s.items, s.hits)
    case Ok(Some(obs)) =>
      if obs == [] then Step(Err(Panic), s.items, s.hits)
      else
        var latest := obs[|obs| - 1];
        Step(MoonBody(sv.astronomy(latest.lat, latest.lon)), s.items, s.hits)
  }

  method FetchMoonData(store: Store, now: int, sv: Services) returns (r: Result<Body, Failure>)
    modifies store
    ensures Step(r, store.items, store.wuHits) == MoonFetch(old(store.items), old(store.wuHits), now, sv)
  {
    var observationsResponse := Wu.GetCached1DayObservations(store, now, sv);
    if observationsResponse.Err? {
      return Err(observationsResponse.error);
    }
    if observationsResponse.value.None? {
      return Err(Panic);
    }
    var observations := observationsResponse.value.value;
    if |observations| == 0 {
      return Err(Panic);
    }
    var latestObservation := observations[|observations| - 1];
    var fetched := Body200(sv.astronomy(latestObservation.lat, latestObservation.lon));
    if fetched.Err? {
      return Err(fetched.error);
    }
    var angleStr := DecodeAngle(fetched.value);
    if angleStr.Err? {
      return Err(angleStr.error);
    }
    var angle := ParseDecimal(angleStr.value);
    if angle.None? {
      return Err(BadAngle);
    }
    var moonPhase := Utils.MoonPhaseFromAngle(angle.value);
    r := Ok(MoonJson(moonPhase, angleStr.value));
  }

  /** ProxyMoon: a fresh "moon" entry is served as is; otherwise the data is fetched, stored for an hour and served. */
  function ProxyMoonStep(items: map<string, CachedItem>, hits: nat, now: int, sv: Services): (o: Outcome)
    ensures FreshBefore(items, MoonKey, now) ==> o.items == items && o.hits == hits
    ensures o.answer.Aborted? <==> !FreshBefore(items, MoonKey, now) && MoonFetch(items, hits, now, sv).result == Err(Panic)
    ensures o.answer.Answer? ==> o.answer.status == 200 || o.answer == Answer(500, Raw("Failed to fetch moon data\n"))
    ensures o.answer.Answer? && o.answer.status == 200 ==> MoonKey in o.items && o.items[MoonKey].content == o.answer.body
  {
    if FreshBefore(items, MoonKey, now) then Outcome(Answer(200, items[MoonKey].content), items, hits)
    else
      var f := MoonFetch(items, hits, now, sv);
      match f.result
      case Err(Panic) => Outcome(Aborted, f.items, f.hits)
      case Err(_) => Outcome(Answer(500, Raw("Failed to fetch moon data\n")), f.items, f.hits)
      case Ok(body) => Outcome(Answer(200, body), f.items[MoonKey := CachedItem(body, now + MoonTtl)], f.hits)
  }

  method ProxyMoon(store: Store, now: int, sv: Services) returns (a: Answer)
    modifies store
    ensures Outcome(a, store.items, store.wuHits) == ProxyMoonStep(old(store.items), old(store.wuHits), now, sv)
  {
    var cacheKeyMoon := MoonKey;
    if cacheKeyMoon in store.items && now < store.items[cacheKeyMoon].expiryTime {
      return Answer(200, store.items[cacheKeyMoon].content);
    }
    var responseBody := FetchMoonData(store, now, sv);
    if responseBody.Err? {
      if responseBody.error == Panic {
        return Aborted;
      }
      return Answer(500, Raw("Failed to fetch moon data\n"));
    }
    store.items := store.items[cacheKeyMoon := CachedItem(responseBody.value, now + MoonTtl)];
    a := Answer(200, responseBody.value);
  }

  /**
   * prefetchMoonData as written: a successful fetch is stored for an hour, an
   * error stores nothing, and a panic in the fetch ends the process.
   */
  function MoonPrefetch(items: map<string, CachedItem>, hits: nat, now: int, sv: Services): Prefetched {
    var f := MoonFetch(items, hits, now, sv);
    Prefetched(f.result != Err(Panic), if f.result.Ok? then f.items[MoonKey := CachedItem(f.result.value, now + MoonTtl)] else f.items, f.hits)
  }

  method PrefetchMoonData(store: Store, now: int, sv: Services) returns (crashed: bool)
    modifies store
    ensures Prefetched(!crashed, store.items, store.wuHits) == MoonPrefetch(old(store.items), old(store.wuHits), now, sv)
  {
    var responseBody := FetchMoonData(store, now, sv);
    if responseBody.Err? {
      crashed := responseBody.error == Panic;
      return;
    }
    store.items := store.items[MoonKey := CachedItem(responseBody.value, now + MoonTtl)];
    crashed := false;
  }

  /**
   * As written, a cached 1-day body whose observation list is empty (or has
   * no "observations" member) makes the moon prefetch panic and end the process.
   */
  lemma PrefetchCrashesOnEmptyDay(items: map<string, CachedItem>, hits: nat, now: int, sv: Services)
    requires !Expired(items, Wu.TodayKey, now)
    requires items[Wu.TodayKey].content == DayJson(Some([])) || items[Wu.TodayKey].content == DayJson(None)
    ensures !MoonPrefetch(items, hits, now, sv).running
    ensures MoonPrefetch(items, hits, now, sv).items == items
  {
  }

  /**
   * prefetchMoonData with the panic recovered, as the HTTP server does for
   * its handlers: the prefetcher goes on running, and every failed fetch
   * leaves the "moon" entry as it was.
   */
  function MoonPrefetchRecovered(items: map<string, CachedItem>, hits: nat, now: int, sv: Services): (p: Prefetched)
    ensures p.running
    ensures MoonFetch(items, hits, now, sv).result.Err? ==>
      (MoonKey in p.items <==> MoonKey in items) && (MoonKey in items ==> p.items[MoonKey] == items[MoonKey])
    ensures MoonPrefetch(items, hits, now, sv).running ==> p == MoonPrefetch(items, hits, now, sv)
  {
    MoonFetchKeepsMoonEntry(items, hits, now, sv);
    var q := MoonPrefetch(items, hits, now, sv);
    Prefetched(true, q.items, q.hits)
  }

  /** The fetch touches only the 1-day observations entry, never "moon". */
  lemma MoonFetchKeepsMoonEntry(items: map<string, CachedItem>, hits: nat, now: int, sv: Services)
    ensures var f := MoonFetch(items, hits, now, sv);
      (MoonKey in f.items <==> MoonKey in items) && (MoonKey in items ==> f.items[MoonKey] == items[MoonKey])
  {
  }

  /** A fresh "moon" entry is served with no call and no change. */
  lemma ServesFreshEntry(items: map<string, CachedItem>, hits: nat, now: int, sv: Services)
    requires FreshBefore(items, MoonKey, now)
    ensures ProxyMoonStep(items, hits, now, sv) == Outcome(Answer(200, items[MoonKey].content), items, hits)
  {
  }

  /**
   * On a miss, a successful fetch is served and stored for an hour; a failed
   * one answers 500 (or drops the connection on a panic) and leaves "moon" as it was.
   */
  lemma MissPolicy(items: map<string, CachedItem>, hits: nat, now: int, sv: Services)
    requires !FreshBefore(items, MoonKey, now)
    ensures var f := MoonFetch(items, hits, now, sv);
      var o := ProxyMoonStep(items, hits, now, sv);
      f.result.Ok? ==>
        o.answer == Answer(200, f.result.value) && MoonKey in o.items
        && o.items[MoonKey] == CachedItem(f.result.value, now + MoonTtl)
    ensures var f := MoonFetch(items, hits, now, sv);
      var o := ProxyMoonStep(items, hits, now, sv);
      f.result.Err? ==>
        (o.answer.Aborted? || o.answer.status == 500)
        && (MoonKey in o.items <==> MoonKey in items)
        && (MoonKey in items ==> o.items[MoonKey] == items[MoonKey])
  {
    MoonFetchKeepsMoonEntry(items, hits, now, sv);
  }

  /** A prefetch that fails leaves "moon" as it was. */
  lemma PrefetchErrorKeepsEntry(items: map<string, CachedItem>, hits: nat, now: int, sv: Services)
    ensures var f := MoonFetch(items, hits, now, sv);
      f.result.Err? ==> (MoonKey in f.items <==> MoonKey in items) && (MoonKey in items ==> f.items[MoonKey] == items[MoonKey])
    ensures var f := MoonFetch(items, hits, now, sv); var p := MoonPrefetch(items, hits, now, sv);
      (p.running <==> f.result != Err(Panic))
      && (f.result.Err? ==> (MoonKey in p.items <==> MoonKey in items) && (MoonKey in items ==> p.items[MoonKey] == items[MoonKey]))
  {
    MoonFetchKeepsMoonEntry(items, hits, now, sv);
  }

  /**
   * The astronomy service is asked only about the LAST observation's position:
   * services that agree there give the same outcome.
   */
  lemma UsesLatestPosition(items: map<string, CachedItem>, hits: nat, now: int, sv: Services, sv': Services)
    requires sv'.wuToday == sv.wuToday
    requires var s := Wu.Day1Step(items, hits, now, sv);
      s.result.Ok? && s.result.value.Some? && |s.result.value.value| > 0 ==>
        var latest := s.result.value.value[|s.result.value.value| - 1];
        sv'.astronomy(latest.lat, latest.lon) == sv.astronomy(latest.lat, latest.lon)
    ensures MoonFetch(items, hits, now, sv') == MoonFetch(items, hits, now, sv)
  {
    assert Wu.Day1Step(items, hits, now, sv') == Wu.Day1Step(items, hits, now, sv);
  }

  /**
   * A moon body carries the original angle string and the phase of the angle
   * it parses to, which is always one of the eight named phases; an angle that
   * does not parse is an error.
   */
  lemma MoonBodyContents(reply: Reply)
    ensures var r := MoonBody(reply);
      r.Ok? ==>
        Body200(reply).Ok? && DecodeAngle(Body200(reply).value).Ok?
        && var angleStr := DecodeAngle(Body200(reply).value).value;
        ParseDecimal(angleStr).Some? && r.value.MoonJson? && r.value.angle == angleStr
        && r.value.phase == Utils.PhaseOfNormalized(Utils.NormalizedAngle(ParseDecimal(angleStr).value))
        && r.value.phase in Utils.PhaseNames
    ensures
      (Body200(reply).Ok? && DecodeAngle(Body200(reply).value).Ok?
       && ParseDecimal(DecodeAngle(Body200(reply).value).value).None?) ==>
        MoonBody(reply) == Err(BadAngle)
  {
    var r := MoonBody(reply);
    if r.Ok? {
      var angleStr := DecodeAngle(Body200(reply).value).value;
      Utils.PhaseBandsPartition(Utils.NormalizedAngle(ParseDecimal(angleStr).value));
    }
  }
}
