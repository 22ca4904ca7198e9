/**
 * The history charts of the dashboard (html/plot.js): the weekly history is
 * flattened into one list of observations, sorted by local observation time,
 * and turned into one or more chart traces per plot.
 *
 * An observation's "metric" block is the unit block of `Upstream.Observation`.
 * A trace's y values are the members the plot reads, with None for a member
 * that is missing; the toFixed rounding is not modelled.
 */
module Plot {

  import opened Wrappers
  import opened Upstream

  // ---------------------------------------------------------------------
  // fetchAndPlotAll: flattening the weekly history
  // ---------------------------------------------------------------------

  /** The number of days fetchAndPlotAll shows when it is called without one. */
  const DefaultDays: int := 7

  /**
   * Where weeklyData.slice(0, days) ends: a negative count is taken from the
   * end, a count past the end stops at the end, and NaN (None, from parseInt
   * of a missing attribute) counts as 0.
   */
  function SliceEnd(len: nat, days: Option<int>): (e: nat)
    ensures e <= len
  {
    match days
    case None => 0
    case Some(d) =>
      if d < 0 then (if len + d < 0 then 0 else len + d)
      else if d > len then len
      else d
  }

  /** The observations of a list of days, day after day. */
  function Concat(ds: seq<seq<Observation>>): seq<Observation> {
    if ds == [] then [] else Concat(ds[..|ds| - 1]) + ds[|ds| - 1]
  }

  /** The flattening loop: every observation of the first `days` days, in order. */
  method FlattenDays(weekly: seq<seq<Observation>>, days: Option<int>) returns (all: seq<Observation>)
    ensures all == Concat(weekly[..SliceEnd(|weekly|, days)])
  {
    var picked := weekly[..SliceEnd(|weekly|, days)];
    all := [];
    for i := 0 to |picked|
      invariant all == Concat(picked[..i])
    {
      assert picked[..i + 1][..i] == picked[..i];
      all := all + picked[i];
    }
    assert picked[..|picked|] == picked;
  }

  /** A count within the history takes exactly that many days; a larger one takes them all; a negative one leaves that many out. */
  lemma SliceEndCounts(len: nat, d: int)
    ensures 0 <= d <= len ==> SliceEnd(len, Some(d)) == d
    ensures d >= len ==> SliceEnd(len, Some(d)) == len
    ensures -(len as int) <= d < 0 ==> SliceEnd(len, Some(d)) == len + d
    ensures d < -(len as int) ==> SliceEnd(len, Some(d)) == 0
  {
  }

  /** The default view of a history of at least a week is its first seven days. */
  lemma DefaultIsAWeek(weekly: seq<seq<Observation>>)
    requires |weekly| >= DefaultDays
    ensures weekly[..SliceEnd(|weekly|, Some(DefaultDays))] == weekly[..7]
  {
  }

  /** Flattening two runs of days one after the other flattens each in turn. */
  lemma {:induction false} ConcatAppend(a: seq<seq<Observation>>, b: seq<seq<Observation>>)
    ensures Concat(a + b) == Concat(a) + Concat(b)
    decreases |b|
  {
    if b != [] {
      var b0 := b[..|b| - 1];
      assert (a + b)[..|a + b| - 1] == a + b0;
      assert (a + b)[|a + b| - 1] == b[|b| - 1];
      ConcatAppend(a, b0);
      assert Concat(b) == Concat(b0) + b[|b| - 1];
      assert Concat(a + b) == Concat(a + b0) + b[|b| - 1];
    } else {
      assert a + b == a;
    }
  }

  /** A single day flattens to itself. */
  lemma ConcatSingle(d: seq<Observation>)
    ensures Concat([d]) == d
  {
    assert [d][..0] == [];
  }

  /** Flattening days before, one day, and days after. */
  lemma ConcatAround(before: seq<seq<Observation>>, day: seq<Observation>, after: seq<seq<Observation>>)
    ensures Concat(before + [day] + after) == Concat(before) + day + Concat(after)
  {
    ConcatAppend(before + [day], after);
    ConcatAppend(before, [day]);
    ConcatSingle(day);
  }

  lemma SplitAt(ds: seq<seq<Observation>>, i: nat)
    requires i < |ds|
    ensures ds == ds[..i] + [ds[i]] + ds[i + 1..]
  {
  }

  /** Each day appears in the flattened list as one block, after all the days before it and before all the days after it. */
  lemma ConcatSplit(ds: seq<seq<Observation>>, i: nat)
    requires i < |ds|
    ensures Concat(ds) == Concat(ds[..i]) + ds[i] + Concat(ds[i + 1..])
  {
    SplitAt(ds, i);
    ConcatAround(ds[..i], ds[i], ds[i + 1..]);
  }

  /** An observation is in the flattened list exactly when it is in one of the days. */
  lemma {:induction false} ConcatMember(ds: seq<seq<Observation>>, o: Observation)
    ensures o in Concat(ds) <==> exists i :: 0 <= i < |ds| && o in ds[i]
    decreases |ds|
  {
    if ds != [] {
      var init := ds[..|ds| - 1];
      ConcatMember(init, o);
      assert Concat(ds) == Concat(init) + ds[|ds| - 1];
      if o in Concat(init) {
        var i :| 0 <= i < |init| && o in init[i];
        assert ds[i] == init[i];
      }
      if exists i :: 0 <= i < |ds| && o in ds[i] {
        var i :| 0 <= i < |ds| && o in ds[i];
        if i < |init| {
          assert init[i] == ds[i];
        }
      }
    }
  }

  // ---------------------------------------------------------------------
  // plotData: sorting by observation time
  // ---------------------------------------------------------------------

  predicate SortedByTime(s: seq<Observation>) {
    forall i, j :: 0 <= i < j < |s| ==> s[i].obsTimeLocal <= s[j].obsTimeLocal
  }

  /**
   * The state of a pass that is moving the observation now at index j
   * leftwards: the first i + 1 observations are in order but for the one at
   * j, which is earlier than every observation after it.
   */
  predicate SortedAround(s: seq<Observation>, i: nat, j: nat)
    requires j <= i < |s|
  {
    && (forall k, l :: 0 <= k < l <= i && k != j && l != j ==> s[k].obsTimeLocal <= s[l].obsTimeLocal)
    && (forall l :: j < l <= i ==> s[j].obsTimeLocal < s[l].obsTimeLocal)
  }

  /** Exchanging the moving observation with a later one before it keeps the pass's state. */
  lemma SwapKeepsAround(s: seq<Observation>, i: nat, j: nat)
    requires 0 < j <= i < |s| && SortedAround(s, i, j)
    requires s[j - 1].obsTimeLocal > s[j].obsTimeLocal
    ensures SortedAround(s[j - 1 := s[j]][j := s[j - 1]], i, j - 1)
  {
  }

  /** A pass may stop at the front or behind an observation no later than the moving one. */
  lemma AroundDone(s: seq<Observation>, i: nat, j: nat)
    requires j <= i < |s| && SortedAround(s, i, j)
    requires j == 0 || s[j - 1].obsTimeLocal <= s[j].obsTimeLocal
    ensures SortedByTime(s[..i + 1])
  {
  }

  /**
   * One pass of the sort: the observation at index i moves left past the
   * strictly later observations before it, so that the first i + 1 are in
   * order.
   */
  method InsertByTime(a: array<Observation>, i: int)
    requires 0 <= i < a.Length
    requires SortedByTime(a[..i])
    modifies a
    ensures SortedByTime(a[..i + 1])
    ensures multiset(a[..]) == multiset(old(a[..]))
  {
    var j := i;
    assert SortedAround(a[..], i, j);
    while j > 0 && a[j - 1].obsTimeLocal > a[j].obsTimeLocal
      invariant 0 <= j <= i
      invariant SortedAround(a[..], i, j)
      invariant multiset(a[..]) == multiset(old(a[..]))
    {
      ghost var before := a[..];
      SwapKeepsAround(before, i, j);
      a[j - 1], a[j] := a[j], a[j - 1];
      assert a[..] == before[j - 1 := before[j]][j := before[j - 1]];
      j := j - 1;
    }
    AroundDone(a[..], i, j);
  }

  /**
   * allObservations.sort by the difference of the obsTimeLocal dates, in
   * place. An observation moves left only past strictly later ones, so the
   * sort is stable, as Array.prototype.sort is.
   */
  method SortByTime(a: array<Observation>)
    modifies a
    ensures SortedByTime(a[..])
    ensures multiset(a[..]) == multiset(old(a[..]))
  {
    var i := 0;
    while i < a.Length
      invariant 0 <= i <= a.Length
      invariant SortedByTime(a[..i])
      invariant multiset(a[..]) == multiset(old(a[..]))
    {
      InsertByTime(a, i);
      i := i + 1;
    }
    assert a[..a.Length] == a[..];
  }

  // ---------------------------------------------------------------------
  // prepareData and the plot configurations
  // ---------------------------------------------------------------------

  const GustsColor: string := "#ffb86c"
  const LineColor: string := "#8be9fd"

  /** What a plot reads from an observation. */
  datatype Reading =
    | MetricMember(name: string)            // obs.metric.<name>
    | TopMember(name: string)               // obs.<name>
    | MetricMidpoint(high: string, low: string) // the mean of two metric members

  /** The value a reading takes on an observation; None when a member it needs is missing. */
  function Read(r: Reading, o: Observation): Option<real> {
    match r
    case MetricMember(n) => if n in o.units then Some(o.units[n]) else None
    case TopMember(n) => if n in o.fields then Some(o.fields[n]) else None
    case MetricMidpoint(h, l) =>
      if h in o.units && l in o.units then Some((o.units[h] + o.units[l]) / 2.0) else None
  }

  /** A chart trace. The name is None when the plot has fewer trace names than readings (traceNames[idx] is undefined). */
  datatype Trace = Trace(x: seq<int>, y: seq<Option<real>>, name: Option<string>, color: string)

  /** prepareData: the shared x values, one y value per observation, and the colour the trace's name calls for. */
  function PrepareData(times: seq<int>, r: Reading, name: Option<string>, obs: seq<Observation>): (t: Trace)
    ensures t.x == times && |t.y| == |obs|
    ensures forall k :: 0 <= k < |obs| ==> t.y[k] == Read(r, obs[k])
    ensures t.name == name
    ensures t.color == GustsColor <==> name == Some("Gusts")
    ensures t.color == GustsColor || t.color == LineColor
  {
    Trace(times, seq(|obs|, k requires 0 <= k < |obs| => Read(r, obs[k])), name,
          if name == Some("Gusts") then GustsColor else LineColor)
  }

  /** A plot draws one reading, titled by its axis title, or several readings with their trace names. */
  datatype PlotSpec =
    | Single(div: string, yTitle: string, reading: Reading)
    | Multi(div: string, yTitle: string, readings: seq<Reading>, traceNames: seq<string>)

  /**
   * The plots plotData draws, in order. The temperature axis title keeps the
   * source's text as it is, a doubly encoded degree sign ("Â°") included.
   */
  const Plots: seq<PlotSpec> := [
    Single("temperaturePlot", "Temperature (\U{00C2}\U{00B0}C)", MetricMember("tempAvg")),
    Multi("windPlot", "Speed (km/h)", [MetricMember("windspeedAvg"), MetricMember("windgustHigh")], ["Speed", "Gusts"]),
    Single("humidityPlot", "Humidity (%)", TopMember("humidityAvg")),
    Single("pressurePlot", "Pressure (hPa)", MetricMidpoint("pressureMax", "pressureMin")),
    Single("rainPlot", "Precipitation (mm/h)", MetricMember("precipRate")),
    Single("uvPlot", "UV Index", TopMember("uvHigh"))
  ]

  /** The name trace `idx` of a multi-trace plot gets: traceNames[idx]. */
  function TraceName(names: seq<string>, idx: nat): (n: Option<string>)
    ensures idx < |names| ==> n == Some(names[idx])
    ensures idx >= |names| ==> n.None?
  {
    if idx < |names| then Some(names[idx]) else None
  }

  /** The traces of one plot. */
  function Traces(p: PlotSpec, times: seq<int>, obs: seq<Observation>): (ts: seq<Trace>)
    ensures p.Single? ==> ts == [PrepareData(times, p.reading, Some(p.yTitle), obs)]
    ensures p.Multi? ==> |ts| == |p.readings|
    ensures p.Multi? ==> forall idx :: 0 <= idx < |ts| ==> ts[idx] == PrepareData(times, p.readings[idx], TraceName(p.traceNames, idx), obs)
  {
    match p
    case Single(_, yTitle, r) => [PrepareData(times, r, Some(yTitle), obs)]
    case Multi(_, _, rs, names) =>
      seq(|rs|, idx requires 0 <= idx < |rs| => PrepareData(times, rs[idx], TraceName(names, idx), obs))
  }

  /** new Date(obs.obsTimeLocal) for every observation: the shared x values. */
  function Times(obs: seq<Observation>): (ts: seq<int>)
    ensures |ts| == |obs|
    ensures forall k :: 0 <= k < |obs| ==> ts[k] == obs[k].obsTimeLocal
  {
    seq(|obs|, k requires 0 <= k < |obs| => obs[k].obsTimeLocal)
  }

  /** Every trace of every plot has as many x values and as many y values as there are observations. */
  lemma TracesMatchObservations(p: PlotSpec, obs: seq<Observation>)
    ensures forall t :: t in Traces(p, Times(obs), obs) ==> |t.x| == |obs| && |t.y| == |obs|
  {
    var ts := Traces(p, Times(obs), obs);
    forall t | t in ts ensures |t.x| == |obs| && |t.y| == |obs| {
      var idx :| 0 <= idx < |ts| && ts[idx] == t;
    }
  }

  /** The wind plot draws the speed in the line colour and the gusts in orange; every other plot draws one line-coloured trace named after its axis. */
  lemma PlotTraceShapes(obs: seq<Observation>)
    ensures var wind := Traces(Plots[1], Times(obs), obs);
      |wind| == 2
      && wind[0].name == Some("Speed") && wind[0].color == LineColor
      && wind[1].name == Some("Gusts") && wind[1].color == GustsColor
    ensures forall i :: 0 <= i < |Plots| && i != 1 ==>
      var ts := Traces(Plots[i], Times(obs), obs);
      |ts| == 1 && ts[0].name == Some(Plots[i].yTitle) && ts[0].color == LineColor
    ensures Traces(Plots[0], Times(obs), obs)[0].name == Some("Temperature (\U{00C2}\U{00B0}C)")
  {
    var wind := Traces(Plots[1], Times(obs), obs);
    assert wind[0] == PrepareData(Times(obs), MetricMember("windspeedAvg"), Some("Speed"), obs);
    assert wind[1] == PrepareData(Times(obs), MetricMember("windgustHigh"), Some("Gusts"), obs);
  }

  /**
   * plotData: the observations are sorted in place by time, and each plot
   * gets its traces over the sorted observations.
   */
  method PlotData(a: array<Observation>) returns (plots: seq<seq<Trace>>)
    modifies a
    ensures SortedByTime(a[..])
    ensures multiset(a[..]) == multiset(old(a[..]))
    ensures |plots| == |Plots|
    ensures forall i :: 0 <= i < |Plots| ==> plots[i] == Traces(Plots[i], Times(a[..]), a[..])
  {
    SortByTime(a);
    var obs := a[..];
    var times := Times(obs);
    plots := [];
    for i := 0 to |Plots|
      invariant |plots| == i
      invariant forall k :: 0 <= k < i ==> plots[k] == Traces(Plots[k], times, obs)
    {
      plots := plots + [Traces(Plots[i], times, obs)];
    }
  }
}
