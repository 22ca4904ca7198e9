/**
 * The Weather Underground proxy: the cached 1-day observations, the daily
 * extremes that /wutoday synthesises from them, and the 7-day history that
 * combines today's metric observations with six cached prior days.
 */
module Wu {

  import opened Wrappers
  import opened Upstream
  import opened Cache

  // ---------------------------------------------------------------------
  // Daily extremes
  // ---------------------------------------------------------------------

  function Max(a: real, b: real): real { if b > a then b else a }
  function Min(a: real, b: real): real { if b < a then b else a }

  /** The value under a key, zero when absent (a Go map read). */
  function Get0<K>(m: map<K, real>, k: K): real {
    if k in m then m[k] else 0.0
  }

  /** Extremes kept as maxima; the others are kept as minima. */
  predicate IsHigh(e: Extreme) {
    e.TempHigh? || e.WindspeedHigh? || e.WindgustHigh? || e.DewptHigh? || e.PressureMax?
    || e.HumidityHigh? || e.UvHigh? || e.SolarRadiationHigh?
  }

  /** Extremes read from a record's unit block; the others are top-level members of the record. */
  predicate InUnitBlock(e: Extreme) {
    !(e.HumidityHigh? || e.HumidityLow? || e.UvHigh? || e.SolarRadiationHigh?)
  }

  const AllExtremes: set<Extreme> := {
    TempHigh, TempLow, WindspeedHigh, WindspeedLow, WindgustHigh, WindgustLow,
    DewptHigh, DewptLow, PressureMax, PressureMin, HumidityHigh, HumidityLow, UvHigh, SolarRadiationHigh}

  lemma EveryExtremeListed(e: Extreme)
    ensures e in AllExtremes
  {
    match e
    case TempHigh =>
    case TempLow =>
    case WindspeedHigh =>
    case WindspeedLow =>
    case WindgustHigh =>
    case WindgustLow =>
    case DewptHigh =>
    case DewptLow =>
    case PressureMax =>
    case PressureMin =>
    case HumidityHigh =>
    case HumidityLow =>
    case UvHigh =>
    case SolarRadiationHigh =>
  }

  const HighSentinel: real := -9999.0
  const LowSentinel: real := 9999.0

  /** The seed of the fold. */
  const Seeds: map<Extreme, real> := map[
    TempHigh := -9999.0, TempLow := 9999.0,
    WindspeedHigh := -9999.0, WindspeedLow := 9999.0,
    WindgustHigh := -9999.0, WindgustLow := 9999.0,
    DewptHigh := -9999.0, DewptLow := 9999.0,
    PressureMax := -9999.0, PressureMin := 9999.0,
    HumidityHigh := -9999.0, HumidityLow := 9999.0,
    UvHigh := -9999.0,
    SolarRadiationHigh := -9999.0]

  /** The map of a record that extreme `e` is read from. */
  function Source(o: Observation, e: Extreme): map<string, real> {
    if InUnitBlock(e) then o.units else o.fields
  }

  /** A record has every reading the fold asserts to be a number. */
  predicate Complete(o: Observation) {
    forall e :: ExtremeName(e) in Source(o, e)
  }

  /** The reading of record `o` that feeds extreme `e`. */
  function Reading(o: Observation, e: Extreme): real {
    Get0(Source(o, e), ExtremeName(e))
  }

  /** The largest reading of `e` over the records, or the high sentinel when it is larger. */
  function Highest(obs: seq<Observation>, e: Extreme): real {
    if obs == [] then HighSentinel else Max(Highest(obs[..|obs| - 1], e), Reading(obs[|obs| - 1], e))
  }

  /** The smallest reading of `e` over the records, or the low sentinel when it is smaller. */
  function Lowest(obs: seq<Observation>, e: Extreme): real {
    if obs == [] then LowSentinel else Min(Lowest(obs[..|obs| - 1], e), Reading(obs[|obs| - 1], e))
  }

  /** The extreme `e` of a list of records. */
  function ExtremeOf(obs: seq<Observation>, e: Extreme): real {
    if IsHigh(e) then Highest(obs, e) else Lowest(obs, e)
  }

  /** The extremes of a list of records, one entry per extreme. */
  function Extremes(obs: seq<Observation>): map<Extreme, real> {
    map e | e in AllExtremes :: ExtremeOf(obs, e)
  }

  /** `Highest` is the maximum of the sentinel and the readings. */
  lemma {:induction false} HighestIsMaximum(obs: seq<Observation>, e: Extreme)
    ensures Highest(obs, e) >= HighSentinel
    ensures forall i :: 0 <= i < |obs| ==> Highest(obs, e) >= Reading(obs[i], e)
    ensures Highest(obs, e) == HighSentinel || exists i :: 0 <= i < |obs| && Highest(obs, e) == Reading(obs[i], e)
  {
    if obs != [] {
      var p := obs[..|obs| - 1];
      HighestIsMaximum(p, e);
      assert forall i :: 0 <= i < |p| ==> obs[i] == p[i];
      if Highest(obs, e) != HighSentinel && Highest(obs, e) != Reading(obs[|obs| - 1], e) {
        var i :| 0 <= i < |p| && Highest(p, e) == Reading(p[i], e);
        assert Highest(obs, e) == Reading(obs[i], e);
      }
    }
  }

  /** `Lowest` is the minimum of the sentinel and the readings. */
  lemma {:induction false} LowestIsMinimum(obs: seq<Observation>, e: Extreme)
    ensures Lowest(obs, e) <= LowSentinel
    ensures forall i :: 0 <= i < |obs| ==> Lowest(obs, e) <= Reading(obs[i], e)
    ensures Lowest(obs, e) == LowSentinel || exists i :: 0 <= i < |obs| && Lowest(obs, e) == Reading(obs[i], e)
  {
    if obs != [] {
      var p := obs[..|obs| - 1];
      LowestIsMinimum(p, e);
      assert forall i :: 0 <= i < |p| ==> obs[i] == p[i];
      if Lowest(obs, e) != LowSentinel && Lowest(obs, e) != Reading(obs[|obs| - 1], e) {
        var i :| 0 <= i < |p| && Lowest(p, e) == Reading(p[i], e);
        assert Lowest(obs, e) == Reading(obs[i], e);
      }
    }
  }

  /** The seed map is the extremes of no records. */
  lemma SeedsAreExtremesOfNothing()
    ensures Extremes([]) == Seeds
  {
    assert Extremes([]).Keys == Seeds.Keys;
  }

  /** Raise the extreme `k` to `v` when `v` is larger. */
  function Raise(extremes: map<Extreme, real>, k: Extreme, v: real): (r: map<Extreme, real>)
    ensures Get0(r, k) == Max(Get0(extremes, k), v)
    ensures forall j :: j != k ==> (j in r <==> j in extremes) && (j in extremes ==> r[j] == extremes[j])
    ensures extremes.Keys <= r.Keys <= extremes.Keys + {k}
  {
    if v > Get0(extremes, k) then extremes[k := v] else extremes
  }

  /** Lower the extreme `k` to `v` when `v` is smaller. */
  function Lower(extremes: map<Extreme, real>, k: Extreme, v: real): (r: map<Extreme, real>)
    ensures Get0(r, k) == Min(Get0(extremes, k), v)
    ensures forall j :: j != k ==> (j in r <==> j in extremes) && (j in extremes ==> r[j] == extremes[j])
    ensures extremes.Keys <= r.Keys <= extremes.Keys + {k}
  {
    if v < Get0(extremes, k) then extremes[k := v] else extremes
  }

  /**
   * updateExtremes: takes the record's two readings (a panic when one is
   * missing), then raises the high key and lowers the low key; no other key changes.
   */
  function UpdateExtremes(extremes: map<Extreme, real>, data: map<string, real>, highKey: Extreme, lowKey: Extreme): (r: Result<map<Extreme, real>, Failure>)
    ensures r.Ok? <==> ExtremeName(highKey) in data && ExtremeName(lowKey) in data
    ensures r.Err? ==> r.error == Panic
    ensures r.Ok? && highKey != lowKey ==>
      Get0(r.value, highKey) == Max(Get0(extremes, highKey), data[ExtremeName(highKey)])
      && Get0(r.value, lowKey) == Min(Get0(extremes, lowKey), data[ExtremeName(lowKey)])
    ensures r.Ok? ==> forall k :: k != highKey && k != lowKey ==>
      (k in r.value <==> k in extremes) && (k in extremes ==> r.value[k] == extremes[k])
  {
    if ExtremeName(highKey) !in data || ExtremeName(lowKey) !in data then Err(Panic)
    else
      var high := data[ExtremeName(highKey)];
      var low := data[ExtremeName(lowKey)];
      Ok(Lower(Raise(extremes, highKey, high), lowKey, low))
  }

  /** updateExtremeValue: takes the reading (a panic when missing) and only ever raises the key. */
  function UpdateExtremeValue(extremes: map<Extreme, real>, data: map<string, real>, key: Extreme): (r: Result<map<Extreme, real>, Failure>)
    ensures r.Ok? <==> ExtremeName(key) in data
    ensures r.Err? ==> r.error == Panic
    ensures r.Ok? ==> Get0(r.value, key) == Max(Get0(extremes, key), data[ExtremeName(key)]) && Get0(r.value, key) >= Get0(extremes, key)
    ensures r.Ok? ==> forall k :: k != key ==>
      (k in r.value <==> k in extremes) && (k in extremes ==> r.value[k] == extremes[k])
  {
    if ExtremeName(key) !in data then Err(Panic)
    else Ok(Raise(extremes, key, data[ExtremeName(key)]))
  }

  /** One call of the per-record loop body: updateExtremes on a pair read from the unit block or the record, or updateExtremeValue on a key of the record. */
  datatype Update = Pair(unitBlock: bool, highKey: Extreme, lowKey: Extreme) | Single(key: Extreme)

  /** The calls the loop body makes for each record, in order. */
  const RecordUpdates: seq<Update> := [
    Pair(true, TempHigh, TempLow),
    Pair(true, WindspeedHigh, WindspeedLow),
    Pair(true, WindgustHigh, WindgustLow),
    Pair(true, DewptHigh, DewptLow),
    Pair(true, PressureMax, PressureMin),
    Pair(false, HumidityHigh, HumidityLow),
    Single(UvHigh),
    Single(SolarRadiationHigh)]

  function ApplyUpdate(extremes: map<Extreme, real>, o: Observation, u: Update): Result<map<Extreme, real>, Failure> {
    match u
    case Pair(unitBlock, hi, lo) => UpdateExtremes(extremes, if unitBlock then o.units else o.fields, hi, lo)
    case Single(k) => UpdateExtremeValue(extremes, o.fields, k)
  }

  /** The calls `us` in order, stopping at the first panic. */
  function ApplyUpdates(extremes: map<Extreme, real>, o: Observation, us: seq<Update>): Result<map<Extreme, real>, Failure>
    decreases |us|
  {
    if us == [] then Ok(extremes)
    else
      var next :- ApplyUpdate(extremes, o, us[0]);
      ApplyUpdates(next, o, us[1..])
  }

  /** The loop body for one record. */
  function ApplyRecord(extremes: map<Extreme, real>, o: Observation): Result<map<Extreme, real>, Failure> {
    ApplyUpdates(extremes, o, RecordUpdates)
  }

  function UpdateKeys(u: Update): set<Extreme> {
    match u
    case Pair(_, hi, lo) => {hi, lo}
    case Single(k) => {k}
  }

  /** A call raises highs and lowers lows, each read from the map it belongs to. */
  predicate Sound(u: Update) {
    match u
    case Pair(b, hi, lo) => IsHigh(hi) && !IsHigh(lo) && InUnitBlock(hi) == b && InUnitBlock(lo) == b
    case Single(k) => IsHigh(k) && !InUnitBlock(k)
  }

  /** The record has the readings call `u` asserts. */
  predicate HasReadings(o: Observation, u: Update) {
    forall e :: e in UpdateKeys(u) ==> ExtremeName(e) in Source(o, e)
  }

  /** A sound call succeeds exactly when the record has its readings, and otherwise panics. */
  lemma ApplyUpdateFails(extremes: map<Extreme, real>, o: Observation, u: Update)
    requires Sound(u)
    ensures ApplyUpdate(extremes, o, u).Ok? <==> HasReadings(o, u)
    ensures ApplyUpdate(extremes, o, u).Err? ==> ApplyUpdate(extremes, o, u).error == Panic
  {
    match u {
      case Pair(b, hi, lo) =>
        assert UpdateKeys(u) == {hi, lo};
      case Single(k) =>
        assert UpdateKeys(u) == {k};
    }
  }

  /** The calls succeed exactly when the record has all the readings they take. */
  lemma {:induction false} ApplyUpdatesFails(extremes: map<Extreme, real>, o: Observation, us: seq<Update>)
    requires forall i :: 0 <= i < |us| ==> Sound(us[i])
    ensures ApplyUpdates(extremes, o, us).Ok? <==> forall i :: 0 <= i < |us| ==> HasReadings(o, us[i])
    ensures ApplyUpdates(extremes, o, us).Err? ==> ApplyUpdates(extremes, o, us).error == Panic
    decreases |us|
  {
    if us != [] {
      var step := ApplyUpdate(extremes, o, us[0]);
      ApplyUpdateFails(extremes, o, us[0]);
      if step.Ok? {
        ApplyUpdatesFails(step.value, o, us[1..]);
        assert forall i :: 1 <= i < |us| ==> us[i] == us[1..][i - 1];
      }
    }
  }

  /** The new value of extreme `e` once record `o` joins the records `prefix`. */
  function NextExtreme(prefix: seq<Observation>, o: Observation, e: Extreme): real {
    if IsHigh(e) then Max(Highest(prefix, e), Reading(o, e)) else Min(Lowest(prefix, e), Reading(o, e))
  }

  /**
   * The extremes midway through one record's updates: every extreme is
   * present, and those in `done` already take the record into account.
   */
  predicate Midway(m: map<Extreme, real>, prefix: seq<Observation>, o: Observation, done: set<Extreme>) {
    forall e :: e in m && m[e] == (if e in done then NextExtreme(prefix, o, e) else ExtremeOf(prefix, e))
  }

  /** Raising a high extreme by the record's reading moves it to `done`. */
  lemma RaiseStep(m: map<Extreme, real>, prefix: seq<Observation>, o: Observation, done: set<Extreme>, k0: Extreme)
    requires Midway(m, prefix, o, done) && IsHigh(k0) && k0 !in done
    ensures Midway(Raise(m, k0, Reading(o, k0)), prefix, o, done + {k0})
  {
    var r := Raise(m, k0, Reading(o, k0));
    assert Get0(r, k0) == r[k0] && Get0(m, k0) == m[k0];
  }

  /** Lowering a low extreme by the record's reading moves it to `done`. */
  lemma LowerStep(m: map<Extreme, real>, prefix: seq<Observation>, o: Observation, done: set<Extreme>, k0: Extreme)
    requires Midway(m, prefix, o, done) && !IsHigh(k0) && k0 !in done
    ensures Midway(Lower(m, k0, Reading(o, k0)), prefix, o, done + {k0})
  {
    var r := Lower(m, k0, Reading(o, k0));
    assert Get0(r, k0) == r[k0] && Get0(m, k0) == m[k0];
  }

  /** One updateExtremes call on a high key and a low key read from the same map moves the pair to `done`. */
  lemma UpdatePair(m: map<Extreme, real>, prefix: seq<Observation>, o: Observation, done: set<Extreme>,
                   data: map<string, real>, hi: Extreme, lo: Extreme)
    requires Midway(m, prefix, o, done)
    requires IsHigh(hi) && !IsHigh(lo) && hi !in done && lo !in done
    requires data == Source(o, hi) && data == Source(o, lo)
    requires ExtremeName(hi) in data && ExtremeName(lo) in data
    ensures UpdateExtremes(m, data, hi, lo).Ok?
    ensures Midway(UpdateExtremes(m, data, hi, lo).value, prefix, o, done + {hi, lo})
  {
    RaiseStep(m, prefix, o, done, hi);
    var m1 := Raise(m, hi, Reading(o, hi));
    LowerStep(m1, prefix, o, done + {hi}, lo);
    assert UpdateExtremes(m, data, hi, lo) == Ok(Lower(m1, lo, Reading(o, lo)));
    assert done + {hi} + {lo} == done + {hi, lo};
  }

  /** One updateExtremeValue call on a high key moves it to `done`. */
  lemma UpdateOne(m: map<Extreme, real>, prefix: seq<Observation>, o: Observation, done: set<Extreme>, k0: Extreme)
    requires Midway(m, prefix, o, done)
    requires IsHigh(k0) && !InUnitBlock(k0) && k0 !in done && ExtremeName(k0) in o.fields
    ensures UpdateExtremeValue(m, o.fields, k0).Ok?
    ensures Midway(UpdateExtremeValue(m, o.fields, k0).value, prefix, o, done + {k0})
  {
    RaiseStep(m, prefix, o, done, k0);
  }

  /** One sound call whose readings are present moves its keys to `done`. */
  lemma ApplyUpdateMidway(m: map<Extreme, real>, prefix: seq<Observation>, o: Observation, done: set<Extreme>, u: Update)
    requires Midway(m, prefix, o, done)
    requires Sound(u) && HasReadings(o, u) && done !! UpdateKeys(u)
    ensures ApplyUpdate(m, o, u).Ok?
    ensures Midway(ApplyUpdate(m, o, u).value, prefix, o, done + UpdateKeys(u))
  {
    match u {
      case Pair(b, hi, lo) =>
        assert hi in UpdateKeys(u) && lo in UpdateKeys(u);
        UpdatePair(m, prefix, o, done, if b then o.units else o.fields, hi, lo);
      case Single(k) =>
        assert k in UpdateKeys(u);
        UpdateOne(m, prefix, o, done, k);
    }
  }

  /** The position in RecordUpdates of the call that touches `e`. */
  function Slot(e: Extreme): (i: nat)
    ensures i < |RecordUpdates| && e in UpdateKeys(RecordUpdates[i])
  {
    match e
    case TempHigh => 0
    case TempLow => 0
    case WindspeedHigh => 1
    case WindspeedLow => 1
    case WindgustHigh => 2
    case WindgustLow => 2
    case DewptHigh => 3
    case DewptLow => 3
    case PressureMax => 4
    case PressureMin => 4
    case HumidityHigh => 5
    case HumidityLow => 5
    case UvHigh => 6
    case SolarRadiationHigh => 7
  }

  /** The per-record calls touch each extreme once: call `n` touches exactly the extremes of slot `n`. */
  lemma SlotsOfCall(n: nat)
    requires n < |RecordUpdates|
    ensures forall e :: e in UpdateKeys(RecordUpdates[n]) ==> Slot(e) == n
  {
    if n == 0 {
    } else if n == 1 {
    } else if n == 2 {
    } else if n == 3 {
    } else if n == 4 {
    } else if n == 5 {
    } else if n == 6 {
    } else {
    }
  }

  /** Each per-record call raises highs and lowers lows, reading the map it belongs to. */
  lemma RecordUpdatesSound()
    ensures forall i :: 0 <= i < |RecordUpdates| ==> Sound(RecordUpdates[i])
  {
  }

  /** A record has the readings of all the calls exactly when it is complete. */
  lemma CompleteIffReadings(o: Observation)
    ensures Complete(o) <==> forall i :: 0 <= i < |RecordUpdates| ==> HasReadings(o, RecordUpdates[i])
  {
    if forall i :: 0 <= i < |RecordUpdates| ==> HasReadings(o, RecordUpdates[i]) {
      forall e ensures ExtremeName(e) in Source(o, e) {
        assert HasReadings(o, RecordUpdates[Slot(e)]);
      }
    }
  }

  /** Whether the updates of a record succeed depends only on the record. */
  lemma ApplyRecordFails(extremes: map<Extreme, real>, o: Observation)
    ensures ApplyRecord(extremes, o).Ok? <==> Complete(o)
    ensures ApplyRecord(extremes, o).Err? ==> ApplyRecord(extremes, o).error == Panic
  {
    RecordUpdatesSound();
    ApplyUpdatesFails(extremes, o, RecordUpdates);
    CompleteIffReadings(o);
  }

  /** Before the updates nothing takes the record into account. */
  lemma MidwayStart(prefix: seq<Observation>, o: Observation)
    ensures Midway(Extremes(prefix), prefix, o, {})
  {
    forall e ensures e in Extremes(prefix) {
      EveryExtremeListed(e);
    }
  }

  /** Every extreme takes the record into account. */
  predicate Finished(m: map<Extreme, real>, prefix: seq<Observation>, o: Observation) {
    forall e :: e in m && m[e] == NextExtreme(prefix, o, e)
  }

  /** Call `n` touches only extremes not done yet, and afterwards the slots up to `n` are done. */
  lemma DoneGrows(done: set<Extreme>, n: nat)
    requires n < |RecordUpdates|
    requires forall e :: e in done <==> Slot(e) < n
    ensures done !! UpdateKeys(RecordUpdates[n])
    ensures forall e :: e in done + UpdateKeys(RecordUpdates[n]) <==> Slot(e) < n + 1
  {
    SlotsOfCall(n);
  }

  /** Call `n`, applied midway with the slots before `n` done, succeeds and leaves the slots up to `n` done. */
  lemma UpdateSlot(m: map<Extreme, real>, prefix: seq<Observation>, o: Observation, done: set<Extreme>, n: nat)
    requires n < |RecordUpdates|
    requires Midway(m, prefix, o, done) && forall e :: e in done <==> Slot(e) < n
    requires HasReadings(o, RecordUpdates[n])
    ensures ApplyUpdate(m, o, RecordUpdates[n]).Ok?
    ensures Midway(ApplyUpdate(m, o, RecordUpdates[n]).value, prefix, o, done + UpdateKeys(RecordUpdates[n]))
    ensures forall e :: e in done + UpdateKeys(RecordUpdates[n]) <==> Slot(e) < n + 1
  {
    DoneGrows(done, n);
    RecordUpdatesSound();
    ApplyUpdateMidway(m, prefix, o, done, RecordUpdates[n]);
  }

  /** The calls from slot `n` on, applied midway, take every extreme to its new value. */
  lemma {:induction false} UpdatesFrom(m: map<Extreme, real>, prefix: seq<Observation>, o: Observation,
                                       done: set<Extreme>, n: nat, us: seq<Update>)
    requires n <= |RecordUpdates| && us == RecordUpdates[n..]
    requires Midway(m, prefix, o, done) && forall e :: e in done <==> Slot(e) < n
    requires forall i :: n <= i < |RecordUpdates| ==> HasReadings(o, RecordUpdates[i])
    ensures ApplyUpdates(m, o, us).Ok? && Finished(ApplyUpdates(m, o, us).value, prefix, o)
    decreases |RecordUpdates| - n
  {
    if n < |RecordUpdates| {
      UpdateSlot(m, prefix, o, done, n);
      assert us[0] == RecordUpdates[n] && us[1..] == RecordUpdates[n + 1..];
      UpdatesFrom(ApplyUpdate(m, o, us[0]).value, prefix, o, done + UpdateKeys(us[0]), n + 1, us[1..]);
    }
  }

  /** Every extreme has its entry in the extremes of a list. */
  lemma ExtremesAt(obs: seq<Observation>, e: Extreme)
    ensures e in Extremes(obs) && Extremes(obs)[e] == ExtremeOf(obs, e)
  {
    EveryExtremeListed(e);
  }

  /** The extreme of a list extended by one record. */
  lemma ExtremeOfSnoc(prefix: seq<Observation>, o: Observation, e: Extreme)
    ensures ExtremeOf(prefix + [o], e) == NextExtreme(prefix, o, e)
  {
    assert (prefix + [o])[..|prefix|] == prefix;
  }

  /** Once every extreme is done, the map is the extremes of the list extended by the record. */
  lemma FinishedExtends(m: map<Extreme, real>, prefix: seq<Observation>, o: Observation)
    requires Finished(m, prefix, o)
    ensures m == Extremes(prefix + [o])
  {
    var x := Extremes(prefix + [o]);
    forall e ensures e in m && e in x && m[e] == x[e] {
      ExtremesAt(prefix + [o], e);
      ExtremeOfSnoc(prefix, o, e);
    }
    assert m.Keys == x.Keys;
  }

  /** One record's updates take the extremes of a list to those of the list extended by the record. */
  lemma ApplyRecordExtends(prefix: seq<Observation>, o: Observation)
    requires Complete(o)
    ensures ApplyRecord(Extremes(prefix), o) == Ok(Extremes(prefix + [o]))
  {
    MidwayStart(prefix, o);
    CompleteIffReadings(o);
    assert RecordUpdates[0..] == RecordUpdates;
    UpdatesFrom(Extremes(prefix), prefix, o, {}, 0, RecordUpdates);
    FinishedExtends(ApplyRecord(Extremes(prefix), o).value, prefix, o);
  }

  /** The latest epoch of the records, floored at zero. */
  function LatestEpoch(obs: seq<Observation>): int {
    if obs == [] then 0
    else
      var prev := LatestEpoch(obs[..|obs| - 1]);
      if obs[|obs| - 1].epoch > prev then obs[|obs| - 1].epoch else prev
  }

  /** The quality-control status that goes with the latest epoch. */
  function LatestQc(obs: seq<Observation>): int {
    if obs == [] then 0
    else if obs[|obs| - 1].epoch > LatestEpoch(obs[..|obs| - 1]) then obs[|obs| - 1].qcStatus
    else LatestQc(obs[..|obs| - 1])
  }

  /** The latest epoch is the largest epoch, or zero when none is positive. */
  lemma {:induction false} LatestIsMaximum(obs: seq<Observation>)
    ensures LatestEpoch(obs) >= 0
    ensures forall i :: 0 <= i < |obs| ==> obs[i].epoch <= LatestEpoch(obs)
    ensures LatestEpoch(obs) == 0 ==> LatestQc(obs) == 0
  {
    if obs != [] {
      var p := obs[..|obs| - 1];
      LatestIsMaximum(p);
      assert forall i :: 0 <= i < |p| ==> obs[i] == p[i];
    }
  }

  /**
   * A positive latest epoch is attained, and its status is that of the FIRST
   * record attaining it.
   */
  lemma {:induction false} LatestIsFirstMaximum(obs: seq<Observation>)
    ensures LatestEpoch(obs) > 0 ==>
      exists i :: 0 <= i < |obs| && obs[i].epoch == LatestEpoch(obs) && obs[i].qcStatus == LatestQc(obs)
        && forall j :: 0 <= j < i ==> obs[j].epoch < LatestEpoch(obs)
  {
    if obs != [] {
      var p := obs[..|obs| - 1];
      var n := |obs| - 1;
      LatestIsMaximum(p);
      LatestIsFirstMaximum(p);
      if obs[n].epoch > LatestEpoch(p) {
        assert forall j :: 0 <= j < n ==> obs[j].epoch < LatestEpoch(obs) by {
          assert forall j :: 0 <= j < n ==> obs[j] == p[j];
        }
      } else if LatestEpoch(obs) > 0 {
        var i :| 0 <= i < |p| && p[i].epoch == LatestEpoch(p) && p[i].qcStatus == LatestQc(p)
          && forall j :: 0 <= j < i ==> p[j].epoch < LatestEpoch(p);
        assert obs[i] == p[i];
        assert forall j :: 0 <= j < i ==> obs[j] == p[j];
      }
    }
  }

  /** The result of the fold: the latest epoch, its status, and the extremes. */
  datatype Daily = Daily(latestEpoch: int, latestQcStatus: int, extremes: map<Extreme, real>)

  predicate AllComplete(obs: seq<Observation>) {
    forall i :: 0 <= i < |obs| ==> Complete(obs[i])
  }

  /** How the fold's summaries of a prefix grow by one record. */
  lemma PrefixStep(obs: seq<Observation>, i: nat)
    requires i < |obs|
    ensures obs[..i + 1] == obs[..i] + [obs[i]]
    ensures LatestEpoch(obs[..i + 1]) == if obs[i].epoch > LatestEpoch(obs[..i]) then obs[i].epoch else LatestEpoch(obs[..i])
    ensures LatestQc(obs[..i + 1]) == if obs[i].epoch > LatestEpoch(obs[..i]) then obs[i].qcStatus else LatestQc(obs[..i])
    ensures AllComplete(obs[..i + 1]) <==> AllComplete(obs[..i]) && Complete(obs[i])
    ensures !Complete(obs[i]) ==> !AllComplete(obs)
  {
    assert obs[..i + 1][..i] == obs[..i];
  }

  /** The loop of ProxyWUToday over the records; a record missing a reading panics. */
  method DailyExtremes(observations: seq<Observation>) returns (r: Result<Daily, Failure>)
    ensures r.Ok? <==> AllComplete(observations)
    ensures r.Err? ==> r.error == Panic
    ensures r.Ok? ==> r.value == Daily(LatestEpoch(observations), LatestQc(observations), Extremes(observations))
  {
    var latestEpoch := 0;
    var latestQcStatus := 0;
    var extremes := Seeds;
    SeedsAreExtremesOfNothing();
    for i := 0 to |observations|
      invariant AllComplete(observations[..i])
      invariant latestEpoch == LatestEpoch(observations[..i]) && latestQcStatus == LatestQc(observations[..i])
      invariant extremes == Extremes(observations[..i])
    {
      var observation := observations[i];
      PrefixStep(observations, i);
      if observation.epoch > latestEpoch {
        latestEpoch := observation.epoch;
        latestQcStatus := observation.qcStatus;
      }
      var updated := ApplyRecord(extremes, observation);
      ApplyRecordFails(extremes, observation);
      if updated.Err? {
        return Err(Panic);
      }
      ApplyRecordExtends(observations[..i], observation);
      extremes := updated.value;
    }
    assert observations[..|observations|] == observations;
    return Ok(Daily(latestEpoch, latestQcStatus, extremes));
  }

  /** The /wutoday body for a list of records: the envelope takes its zone and position from the FIRST record. */
  function TodayBody(obs: seq<Observation>, stationID: string): Result<Body, Failure> {
    if !AllComplete(obs) || obs == [] then Err(Panic)
    else Ok(TodayJson(Envelope(stationID, obs[0].tz, LatestEpoch(obs), LatestQc(obs), obs[0].lat, obs[0].lon, Extremes(obs)), obs))
  }

  // ---------------------------------------------------------------------
  // The cached 1-day observations
  // ---------------------------------------------------------------------

  const TodayKey: string := "wutoday"

  /** getCached1DayObservations: the decoded "observations" member (None when it is not an array). */
  function Day1Step(items: map<string, CachedItem>, hits: nat, now: int, sv: Services): (s: Step<Option<seq<Observation>>>)
    ensures s.hits == if Expired(items, TodayKey, now) then hits + 1 else hits
    ensures s.items.Keys <= items.Keys + {TodayKey}
    ensures forall k :: k in items && k != TodayKey ==> k in s.items && s.items[k] == items[k]
    ensures s.result != Err(Panic)
    ensures s.items != items ==>
      s.result.Ok? && Body200(sv.wuToday).Ok? && s.items == items[TodayKey := CachedItem(Body200(sv.wuToday).value, now + WuTodayTtl)]
  {
    if Expired(items, TodayKey, now) then
      match Body200(sv.wuToday)
      case Err(e) => Step(Err(e), items, hits + 1)
      case Ok(body) =>
        match DecodeDay(body)
        case Err(e) => Step(Err(e), items, hits + 1)
        case Ok(o) => Step(Ok(o), items[TodayKey := CachedItem(body, now + WuTodayTtl)], hits + 1)
    else
      match DecodeDay(items[TodayKey].content)
      case Err(e) => Step(Err(e), items, hits)
      case Ok(o) => Step(Ok(o), items, hits)
  }

  method GetCached1DayObservations(store: Store, now: int, sv: Services) returns (r: Result<Option<seq<Observation>>, Failure>)
    modifies store
    ensures Step(r, store.items, store.wuHits) == Day1Step(old(store.items), old(store.wuHits), now, sv)
  {
    var cacheKey := TodayKey;
    if cacheKey !in store.items || now > store.items[cacheKey].expiryTime {
      store.wuHits := store.wuHits + 1;
      var fetched := Body200(sv.wuToday);
      if fetched.Err? {
        return Err(fetched.error);
      }
      var decoded := DecodeDay(fetched.value);
      if decoded.Err? {
        return Err(decoded.error);
      }
      store.items := store.items[cacheKey := CachedItem(fetched.value, now + WuTodayTtl)];
      return decoded;
    }
    r := DecodeDay(store.items[cacheKey].content);
  }

  /**
   * A Weather Underground call is made, and counted, exactly when the entry is
   * absent or strictly past its expiry: an entry is still served at the instant
   * it expires. Only the "wutoday" entry can change, a failure changes nothing,
   * and a fetched body is stored for two minutes.
   */
  lemma Day1Policy(items: map<string, CachedItem>, hits: nat, now: int, sv: Services)
    ensures var s := Day1Step(items, hits, now, sv);
      (s.hits == hits + 1 <==> TodayKey !in items || now > items[TodayKey].expiryTime)
      && (s.hits == hits <==> TodayKey in items && now <= items[TodayKey].expiryTime)
      && (s.result.Err? ==> s.items == items)
      && (s.items != items ==> s.hits == hits + 1 && s.items == items[TodayKey := CachedItem(sv.wuToday.body.value, now + WuTodayTtl)])
      && (s.result.Ok? ==> TodayKey in s.items && DecodeDay(s.items[TodayKey].content) == s.result)
  {
  }

  /** A result once obtained is obtained again, with no call and no change, up to and including the instant its entry expires. */
  lemma Day1RepeatWithinLifetime(items: map<string, CachedItem>, hits: nat, now: int, later: int, sv: Services, sv': Services)
    requires Day1Step(items, hits, now, sv).result.Ok?
    requires var s := Day1Step(items, hits, now, sv); later <= s.items[TodayKey].expiryTime
    ensures var s := Day1Step(items, hits, now, sv);
      Day1Step(s.items, s.hits, later, sv') == s
  {
    Day1Policy(items, hits, now, sv);
  }

  /** What a handler answers for /wutoday, given the fetched observations. */
  function TodayAnswer(r: Result<Option<seq<Observation>>, Failure>, stationID: string): Answer {
    match r
    case Err(_) => Answer(500, Raw("Failed to fetch 1-day observations data\n"))
    case Ok(None) => Aborted
    case Ok(Some(obs)) =>
      match TodayBody(obs, stationID)
      case Ok(b) => Answer(200, b)
      case Err(_) => Aborted
  }

  /** ProxyWUToday. */
  method ProxyWUToday(store: Store, now: int, sv: Services, stationID: string) returns (a: Answer)
    modifies store
    ensures var s := Day1Step(old(store.items), old(store.wuHits), now, sv);
      store.items == s.items && store.wuHits == s.hits && a == TodayAnswer(s.result, stationID)
  {
    var observationsResponse := GetCached1DayObservations(store, now, sv);
    if observationsResponse.Err? {
      return Answer(500, Raw("Failed to fetch 1-day observations data\n"));
    }
    if observationsResponse.value.None? {
      return Aborted;
    }
    var observations := observationsResponse.value.value;
    var daily := DailyExtremes(observations);
    if daily.Err? || |observations| == 0 {
      return Aborted;
    }
    var d := daily.value;
    a := Answer(200, TodayJson(Envelope(stationID, observations[0].tz, d.latestEpoch, d.latestQcStatus, observations[0].lat, observations[0].lon, d.extremes), observations));
  }

  // ---------------------------------------------------------------------
  // The 7-day history
  // ---------------------------------------------------------------------

  const TodayHistoryKey: string := "wuTodayHistory"
  const RestKey: string := "wuRestHistory"

  /** Today's list, the base instant the prior days count back from, and the station zone (None when it did not load). */
  datatype Today = Today(obs: seq<Observation>, baseEpoch: int, zone: Option<int>)

  /** A time.LoadLocation whose error is ignored: a nil location when the name is unknown. */
  function Lookup(zones: map<string, int>, name: string): Option<int> {
    if name in zones then Some(zones[name]) else None
  }

  /** Today's list from a decoded body: its first record sets the base and zone; an empty list counts back from a day ago in UTC. */
  function TodayOf(obs: seq<Observation>, now: int, zones: map<string, int>): Today {
    if |obs| > 0 then Today(obs, obs[0].epoch, Lookup(zones, obs[0].tz))
    else Today(obs, now - SecondsPerDay, Some(0))
  }

  /** The first half of getCached7DayHistory: today's metric observations, through the "wuTodayHistory" entry. */
  function TodayStep(items: map<string, CachedItem>, hits: nat, now: int, sv: Services): (s: Step<Today>)
    ensures s.hits == if Expired(items, TodayHistoryKey, now) then hits + 1 else hits
    ensures s.items.Keys <= items.Keys + {TodayHistoryKey}
    ensures forall k :: k in items && k != TodayHistoryKey ==> k in s.items && s.items[k] == items[k]
    ensures s.result != Err(Panic)
    ensures s.items != items ==>
      s.result.Ok? && Body200(sv.wuTodayMetric).Ok?
      && s.items == items[TodayHistoryKey := CachedItem(Body200(sv.wuTodayMetric).value, now + WuTodayHistoryTtl)]
  {
    if Expired(items, TodayHistoryKey, now) then
      match Body200(sv.wuTodayMetric)
      case Err(e) => Step(Err(e), items, hits + 1)
      case Ok(body) =>
        match DecodeDay(body)
        case Err(e) => Step(Err(e), items, hits + 1)
        case Ok(None) => Step(Err(NotASlice), items, hits + 1)
        case Ok(Some(obs)) =>
          if |obs| > 0 && obs[0].tz !in sv.zones then Step(Err(BadTimezone), items, hits + 1)
          else Step(Ok(TodayOf(obs, now, sv.zones)), items[TodayHistoryKey := CachedItem(body, now + WuTodayHistoryTtl)], hits + 1)
    else
      match DecodeDay(items[TodayHistoryKey].content)
      case Err(e) => Step(Err(e), items, hits)
      case Ok(None) => Step(Err(NotASlice), items, hits)
      case Ok(Some(obs)) => Step(Ok(TodayOf(obs, now, sv.zones)), items, hits)
  }

  method GetTodayHistory(store: Store, now: int, sv: Services) returns (r: Result<Today, Failure>)
    modifies store
    ensures Step(r, store.items, store.wuHits) == TodayStep(old(store.items), old(store.wuHits), now, sv)
  {
    var cacheKeyToday := TodayHistoryKey;
    var content: Body;
    var refetch := cacheKeyToday !in store.items || now > store.items[cacheKeyToday].expiryTime;
    if refetch {
      var reply := sv.wuTodayMetric;
      store.wuHits := store.wuHits + 1;
      var fetched := Body200(reply);
      if fetched.Err? {
        return Err(fetched.error);
      }
      content := fetched.value;
    } else {
      content := store.items[cacheKeyToday].content;
    }
    var decoded := DecodeDay(content);
    if decoded.Err? {
      return Err(decoded.error);
    }
    if decoded.value.None? {
      return Err(NotASlice);
    }
    var todayData := decoded.value.value;
    if refetch {
      if |todayData| > 0 && todayData[0].tz !in sv.zones {
        return Err(BadTimezone);
      }
      store.items := store.items[cacheKeyToday := CachedItem(content, now + WuTodayHistoryTtl)];
    }
    r := Ok(TodayOf(todayData, now, sv.zones));
  }

  /** One prior day: the decoded "observations" array of the history reply for local date `LocalDay(base - i*86400)`. */
  function HistoryDay(sv: Services, base: int, offset: int, i: int): Result<seq<Observation>, Failure> {
    HistoryReply(sv, LocalDay(base - i * SecondsPerDay, offset))
  }

  /** The first of the prior days from `i` on (up to the sixth) whose fetch fails; 7 when none does. */
  function FirstFailingDay(sv: Services, base: int, offset: int, i: nat): (f: nat)
    requires 1 <= i <= 7
    ensures i <= f <= 7
    ensures forall d :: i <= d < f ==> HistoryDay(sv, base, offset, d).Ok?
    ensures f <= 6 ==> HistoryDay(sv, base, offset, f).Err?
    decreases 7 - i
  {
    if i == 7 then 7
    else if HistoryDay(sv, base, offset, i).Err? then i
    else FirstFailingDay(sv, base, offset, i + 1)
  }

  /** The six prior days, when all fetches succeed. */
  function PriorDays(sv: Services, base: int, offset: int): (days: seq<seq<Observation>>)
    requires FirstFailingDay(sv, base, offset, 1) == 7
    ensures |days| == 6
  {
    seq(6, j requires 0 <= j < 6 => HistoryDay(sv, base, offset, j + 1).value)
  }

  /** The six prior-day fetches: the days, or the first failure, with the number of calls made. */
  datatype RestOutcome = RestOutcome(result: Result<seq<seq<Observation>>, Failure>, calls: nat)

  /** The loop over the six prior days, counting back from today's base instant in the station zone (a nil zone panics). */
  function FetchRest(sv: Services, today: Today): RestOutcome {
    if today.zone.None? then RestOutcome(Err(Panic), 1)
    else
      var offset := today.zone.value;
      var f := FirstFailingDay(sv, today.baseEpoch, offset, 1);
      if f <= 6 then RestOutcome(Err(HistoryDay(sv, today.baseEpoch, offset, f).error), f)
      else RestOutcome(Ok(PriorDays(sv, today.baseEpoch, offset)), 6)
  }

  /** The weekly body: today's list, then the rest list's first six entries (an index panic when the rest list is shorter). */
  function Combine(todayObs: seq<Observation>, rest: seq<seq<Observation>>): Result<Body, Failure> {
    if |rest| < 6 then Err(Panic) else Ok(WeeklyJson([todayObs] + rest[..6]))
  }

  /** getCached7DayHistory: today's list, then the six prior days through the "wuRestHistory" entry. */
  function WeekStep(items: map<string, CachedItem>, hits: nat, now: int, sv: Services): (s: Step<Body>)
    ensures hits <= s.hits <= hits + 7
    ensures s.items.Keys <= items.Keys + {TodayHistoryKey, RestKey}
    ensures forall k :: k in items && k != TodayHistoryKey && k != RestKey ==> k in s.items && s.items[k] == items[k]
  {
    var t := TodayStep(items, hits, now, sv);
    if t.result.Err? then Step(Err(t.result.error), t.items, t.hits)
    else
      var today := t.result.value;
      if Expired(t.items, RestKey, now) then
        var rest := FetchRest(sv, today);
        if rest.result.Err? then Step(Err(rest.result.error), t.items, t.hits + rest.calls)
        else
          Step(Combine(today.obs, rest.result.value),
               t.items[RestKey := CachedItem(WeekJson(rest.result.value), NextMidnight(today.baseEpoch, today.zone.value))],
               t.hits + rest.calls)
      else
        var cached := t.items[RestKey].content;
        if !cached.WeekJson? then Step(Err(BadJson), t.items, t.hits)
        else Step(Combine(today.obs, cached.days), t.items, t.hits)
  }

  /** The 6-iteration loop that fills restOfTheWeekData; each iteration counts one call. */
  method FetchRestOfWeek(store: Store, today: Today, sv: Services) returns (r: Result<array<seq<Observation>>, Failure>)
    modifies store`wuHits
    ensures var rest := FetchRest(sv, today);
      store.wuHits == old(store.wuHits) + rest.calls
      && (r.Err? <==> rest.result.Err?)
      && (r.Err? ==> r.error == rest.result.error)
      && (r.Ok? ==> fresh(r.value) && r.value[..] == rest.result.value)
  {
    var restOfTheWeekData := new seq<Observation>[6];
    for i := 1 to 7
      invariant store.wuHits == old(store.wuHits) + (i - 1)
      invariant i > 1 ==> today.zone.Some?
      invariant forall d :: 1 <= d < i ==>
        HistoryDay(sv, today.baseEpoch, today.zone.value, d).Ok?
        && restOfTheWeekData[d - 1] == HistoryDay(sv, today.baseEpoch, today.zone.value, d).value
    {
      store.wuHits := store.wuHits + 1;
      if today.zone.None? {
        return Err(Panic);
      }
      var day := HistoryDay(sv, today.baseEpoch, today.zone.value, i);
      if day.Err? {
        assert FirstFailingDay(sv, today.baseEpoch, today.zone.value, 1) == i;
        return Err(day.error);
      }
      restOfTheWeekData[i - 1] := day.value;
    }
    assert FirstFailingDay(sv, today.baseEpoch, today.zone.value, 1) == 7;
    assert restOfTheWeekData[..] == PriorDays(sv, today.baseEpoch, today.zone.value);
    return Ok(restOfTheWeekData);
  }

  /** The 7-iteration loop that fills weeklyData. */
  method CombineWeek(todayData: seq<Observation>, restOfTheWeekData: array<seq<Observation>>) returns (r: Result<Body, Failure>)
    ensures r == Combine(todayData, restOfTheWeekData[..])
  {
    var weeklyData := new seq<Observation>[7];
    weeklyData[0] := todayData;
    for i := 1 to 7
      invariant i - 1 <= restOfTheWeekData.Length
      invariant weeklyData[0] == todayData
      invariant forall j :: 1 <= j < i ==> weeklyData[j] == restOfTheWeekData[j - 1]
    {
      if i - 1 >= restOfTheWeekData.Length {
        return Err(Panic);
      }
      weeklyData[i] := restOfTheWeekData[i - 1];
    }
    assert weeklyData[..] == [todayData] + restOfTheWeekData[..][..6];
    return Ok(WeeklyJson(weeklyData[..]));
  }

  method GetCached7DayHistory(store: Store, now: int, sv: Services) returns (r: Result<Body, Failure>)
    modifies store
    ensures Step(r, store.items, store.wuHits) == WeekStep(old(store.items), old(store.wuHits), now, sv)
  {
    var todayResult := GetTodayHistory(store, now, sv);
    if todayResult.Err? {
      return Err(todayResult.error);
    }
    var today := todayResult.value;
    var cacheKeyRest := RestKey;
    var restOfTheWeekData: array<seq<Observation>>;
    if cacheKeyRest !in store.items || now > store.items[cacheKeyRest].expiryTime {
      var fetched := FetchRestOfWeek(store, today, sv);
      if fetched.Err? {
        return Err(fetched.error);
      }
      restOfTheWeekData := fetched.value;
      store.items := store.items[cacheKeyRest := CachedItem(WeekJson(restOfTheWeekData[..]), NextMidnight(today.baseEpoch, today.zone.value))];
    } else {
      var cached := store.items[cacheKeyRest].content;
      if !cached.WeekJson? {
        return Err(BadJson);
      }
      restOfTheWeekData := new seq<Observation>[|cached.days|](j requires 0 <= j < |cached.days| => cached.days[j]);
      assert restOfTheWeekData[..] == cached.days;
    }
    r := CombineWeek(today.obs, restOfTheWeekData);
  }

  /** ProxyWUHistory: the weekly body, or 500 with "Failed to fetch 7-day history data". */
  method ProxyWUHistory(store: Store, now: int, sv: Services) returns (a: Answer)
    modifies store
    ensures var s := WeekStep(old(store.items), old(store.wuHits), now, sv);
      store.items == s.items && store.wuHits == s.hits && a == Serve(s.result, "Failed to fetch 7-day history data")
  {
    var r := GetCached7DayHistory(store, now, sv);
    a := Serve(r, "Failed to fetch 7-day history data");
  }

  /**
   * prefetch as written: the 1-day observations, then the 7-day history,
   * whatever the first one's outcome; a panic in the 7-day fetch ends the process.
   */
  function WuPrefetch(items: map<string, CachedItem>, hits: nat, now: int, sv: Services): Prefetched {
    var s1 := Day1Step(items, hits, now, sv);
    var s2 := WeekStep(s1.items, s1.hits, now, sv);
    Prefetched(s2.result != Err(Panic), s2.items, s2.hits)
  }

  method Prefetch(store: Store, now: int, sv: Services) returns (crashed: bool)
    modifies store
    ensures Prefetched(!crashed, store.items, store.wuHits) == WuPrefetch(old(store.items), old(store.wuHits), now, sv)
  {
    var _ := GetCached1DayObservations(store, now, sv);
    var week := GetCached7DayHistory(store, now, sv);
    crashed := week == Err(Panic);
  }

  /**
   * With a well-formed rest-of-the-week entry, the Weather Underground
   * prefetch ends the process only when the day's cached history is fresh
   * and its station zone does not load.
   */
  lemma WuPrefetchCrashNeedsUnknownZone(items: map<string, CachedItem>, hits: nat, now: int, sv: Services)
    requires RestWellFormed(items)
    ensures var s1 := Day1Step(items, hits, now, sv);
      !WuPrefetch(items, hits, now, sv).running ==>
        !Expired(s1.items, TodayHistoryKey, now) && TodayStep(s1.items, s1.hits, now, sv).result.Ok?
        && TodayStep(s1.items, s1.hits, now, sv).result.value.zone.None?
  {
    Day1KeepsRestEntry(items, hits, now, sv);
    var s1 := Day1Step(items, hits, now, sv);
    WeekStepKeepsRestWellFormed(s1.items, s1.hits, now, sv);
  }

  /** Counting back whole days of seconds from an instant counts back as many calendar days in a fixed-offset zone. */
  lemma PriorDayDate(base: int, offset: int, i: int)
    ensures LocalDay(base - i * SecondsPerDay, offset) == LocalDay(base, offset) - i
  {
    var x := base + offset;
    assert x - i * SecondsPerDay == (x / SecondsPerDay - i) * SecondsPerDay + x % SecondsPerDay;
  }

  /**
   * A weekly body has seven lists: today's list first, then the six stored
   * in the "wuRestHistory" entry the call leaves behind.
   */
  lemma WeeklyShape(items: map<string, CachedItem>, hits: nat, now: int, sv: Services)
    ensures var s := WeekStep(items, hits, now, sv);
      var t := TodayStep(items, hits, now, sv);
      s.result.Ok? ==>
        t.result.Ok? && RestKey in s.items && s.items[RestKey].content.WeekJson?
        && |s.items[RestKey].content.days| >= 6
        && s.result.value.WeeklyJson?
        && |s.result.value.weeklyData| == 7
        && s.result.value.weeklyData[0] == t.result.value.obs
        && forall i :: 1 <= i < 7 ==> s.result.value.weeklyData[i] == s.items[RestKey].content.days[i - 1]
  {
  }

  /** Today's half of the call never touches the rest-of-the-week entry. */
  lemma TodayKeepsRestEntry(items: map<string, CachedItem>, hits: nat, now: int, sv: Services)
    ensures var t := TodayStep(items, hits, now, sv);
      (RestKey in t.items <==> RestKey in items) && (RestKey in items ==> t.items[RestKey] == items[RestKey])
  {
  }

  /** A failed 7-day call leaves the "wuRestHistory" entry untouched. */
  lemma RestUntouchedOnFailure(items: map<string, CachedItem>, hits: nat, now: int, sv: Services)
    ensures var s := WeekStep(items, hits, now, sv);
      s.result.Err? ==> (RestKey in s.items <==> RestKey in items) && (RestKey in items ==> s.items[RestKey] == items[RestKey])
  {
    TodayKeepsRestEntry(items, hits, now, sv);
  }

  /** The entry a 7-day call writes: today's fetch succeeded, all six prior days were fetched, and they were stored. */
  lemma RestWrittenShape(items: map<string, CachedItem>, hits: nat, now: int, sv: Services)
    requires var s := WeekStep(items, hits, now, sv);
      RestKey in s.items && (RestKey !in items || s.items[RestKey] != items[RestKey])
    ensures var s := WeekStep(items, hits, now, sv);
      var t := TodayStep(items, hits, now, sv);
      s.result.Ok? && t.result.Ok? && t.result.value.zone.Some?
      && var base := t.result.value.baseEpoch;
      var offset := t.result.value.zone.value;
      FirstFailingDay(sv, base, offset, 1) == 7
      && s.items[RestKey] == CachedItem(WeekJson(PriorDays(sv, base, offset)), NextMidnight(base, offset))
  {
    TodayKeepsRestEntry(items, hits, now, sv);
    var t := TodayStep(items, hits, now, sv);
    assert t.result.Ok?;
    assert Expired(t.items, RestKey, now);
    assert FetchRest(sv, t.result.value).result.Ok?;
  }

  /** The six prior days are the history replies for the six local dates before the base instant's. */
  lemma PriorDaysAreHistory(sv: Services, base: int, offset: int)
    requires FirstFailingDay(sv, base, offset, 1) == 7
    ensures forall j :: 0 <= j < 6 ==>
      HistoryReply(sv, LocalDay(base, offset) - (j + 1)) == Ok(PriorDays(sv, base, offset)[j])
  {
    var days := PriorDays(sv, base, offset);
    forall j | 0 <= j < 6 ensures HistoryReply(sv, LocalDay(base, offset) - (j + 1)) == Ok(days[j]) {
      PriorDayDate(base, offset, j + 1);
      assert HistoryDay(sv, base, offset, j + 1).Ok?;
    }
  }

  /**
   * The "wuRestHistory" entry changes only when all six prior days were
   * fetched: it then holds, as its j-th list, the history reply for the local
   * date j+1 days before the base instant's, and expires at the first local
   * midnight after the base instant.
   */
  lemma RestWrittenOnSuccess(items: map<string, CachedItem>, hits: nat, now: int, sv: Services)
    requires var s := WeekStep(items, hits, now, sv);
      RestKey in s.items && (RestKey !in items || s.items[RestKey] != items[RestKey])
    ensures var s := WeekStep(items, hits, now, sv);
      var t := TodayStep(items, hits, now, sv);
      s.result.Ok? && t.result.Ok? && t.result.value.zone.Some?
      && var base := t.result.value.baseEpoch;
      var offset := t.result.value.zone.value;
      var entry := s.items[RestKey];
      entry.content.WeekJson? && |entry.content.days| == 6
      && (forall j :: 0 <= j < 6 ==>
            HistoryReply(sv, LocalDay(base, offset) - (j + 1)) == Ok(entry.content.days[j]))
      && entry.expiryTime == NextMidnight(base, offset)
      && base < entry.expiryTime && LocalDay(entry.expiryTime, offset) == LocalDay(base, offset) + 1
  {
    RestWrittenShape(items, hits, now, sv);
    var today := TodayStep(items, hits, now, sv).result.value;
    PriorDaysAreHistory(sv, today.baseEpoch, today.zone.value);
  }

  /** The decoded observations of the history reply for a local date. */
  function HistoryReply(sv: Services, date: int): Result<seq<Observation>, Failure> {
    match Body200(sv.wuHistory(date))
    case Err(e) => Err(e)
    case Ok(body) =>
      match DecodeDay(body)
      case Err(e) => Err(e)
      case Ok(None) => Err(NotASlice)
      case Ok(Some(obs)) => Ok(obs)
  }

  /** Each call makes at most seven Weather Underground calls: one for today's list, six for the prior days. */
  lemma WeekCallBound(items: map<string, CachedItem>, hits: nat, now: int, sv: Services)
    ensures var s := WeekStep(items, hits, now, sv);
      hits <= s.hits <= hits + 7
      && (s.hits == hits <==> !Expired(items, TodayHistoryKey, now) && (TodayStep(items, hits, now, sv).result.Err? || !Expired(items, RestKey, now)))
  {
    var t := TodayStep(items, hits, now, sv);
    if t.result.Ok? && Expired(t.items, RestKey, now) {
      var rest := FetchRest(sv, t.result.value);
      assert 1 <= rest.calls <= 6;
    }
  }

  /** A stored rest-of-the-week entry always holds six days. */
  predicate RestWellFormed(items: map<string, CachedItem>) {
    RestKey in items ==> items[RestKey].content.WeekJson? && |items[RestKey].content.days| == 6
  }

  /**
   * The 7-day fetch keeps the rest-of-the-week entry well formed, and then
   * its only panic is a cached today's list whose station zone does not load.
   */
  lemma WeekStepKeepsRestWellFormed(items: map<string, CachedItem>, hits: nat, now: int, sv: Services)
    requires RestWellFormed(items)
    ensures RestWellFormed(WeekStep(items, hits, now, sv).items)
    ensures WeekStep(items, hits, now, sv).result == Err(Panic) ==>
      !Expired(items, TodayHistoryKey, now) && TodayStep(items, hits, now, sv).result.Ok?
      && TodayStep(items, hits, now, sv).result.value.zone.None?
  {
    TodayKeepsRestEntry(items, hits, now, sv);
    var t := TodayStep(items, hits, now, sv);
    assert t.result.Err? ==> t.result.error != Panic;
    if t.result.Ok? && Expired(t.items, RestKey, now) {
      var rest := FetchRest(sv, t.result.value);
      assert rest.result == Err(Panic) ==> t.result.value.zone.None?;
    }
  }

  /** The 1-day fetch never touches the rest-of-the-week entry. */
  lemma Day1KeepsRestEntry(items: map<string, CachedItem>, hits: nat, now: int, sv: Services)
    ensures var s := Day1Step(items, hits, now, sv);
      (RestKey in s.items <==> RestKey in items) && (RestKey in items ==> s.items[RestKey] == items[RestKey])
  {
  }
}
