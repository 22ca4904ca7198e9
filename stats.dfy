/**
 * internal/middleware/stats.go: per-endpoint request statistics and the
 * human-readable byte sizes of the stats page.
 */
module Stats {

  import opened Text
  import Utils

  // ---------------------------------------------------------------------------
  // formatBytes
  // ---------------------------------------------------------------------------

  const Unit: nat := 1024

  type uint64 = x: nat | x < 0x1_0000_0000_0000_0000

  function Pow1024(k: nat): (r: nat)
    ensures r >= 1
  {
    if k == 0 then 1 else Unit * Pow1024(k - 1)
  }

  /** How many more times the loop divides a quotient `n` by 1024 before it drops below 1024. */
  function Steps(n: nat): nat {
    if n < Unit then 0 else 1 + Steps(n / Unit)
  }

  /** The exponent formatBytes arrives at: the number of further divisions of b / 1024. */
  function Exponent(b: nat): nat {
    Steps(b / Unit)
  }

  /** Bounds on n / 1024 lift to bounds on n. */
  lemma ScaleBounds(n: nat, lo: nat, hi: nat)
    requires lo <= n / Unit < hi
    ensures Unit * lo <= n < Unit * hi
  {
  }

  /** A positive quotient lies between the power of 1024 its step count names and the next one. */
  lemma {:induction false} StepsBounds(n: nat)
    requires n >= 1
    ensures Pow1024(Steps(n)) <= n < Pow1024(Steps(n) + 1)
  {
    if n >= Unit {
      StepsBounds(n / Unit);
      var s := Steps(n / Unit);
      ScaleBounds(n, Pow1024(s), Pow1024(s + 1));
      assert Pow1024(s + 1) == Unit * Pow1024(s);
      assert Pow1024(s + 2) == Unit * Pow1024(s + 1);
    }
  }

  /**
   * The exponent picks the divisor div = 1024^(exp+1) that leaves at least
   * one and fewer than 1024 units: div <= b < 1024 * div.
   */
  lemma ExponentBounds(b: nat)
    requires b >= Unit
    ensures var div := Pow1024(Exponent(b) + 1);
      div <= b < Unit * div
  {
    var e := Exponent(b);
    StepsBounds(b / Unit);
    ScaleBounds(b, Pow1024(e), Pow1024(e + 1));
    var div := Pow1024(e + 1);
    assert div == Unit * Pow1024(e);
  }

  lemma {:induction false} PowMonotone(j: nat, k: nat)
    requires j <= k
    ensures Pow1024(j) <= Pow1024(k)
    decreases k
  {
    if j < k {
      PowMonotone(j, k - 1);
    }
  }

  /** Every uint64 of at least 1024 bytes has an exponent of at most 5, so the unit letter always exists. */
  lemma ExponentInRange(b: uint64)
    requires b >= Unit
    ensures Exponent(b) <= 5
  {
    ExponentBounds(b);
    assert Pow1024(7) == 0x1_0000_0000_0000_0000 * 64;
    PowOrder(Exponent(b) + 1, 7);
  }

  lemma PowOrder(j: nat, k: nat)
    requires Pow1024(j) < Pow1024(k)
    ensures j < k
  {
    if j >= k {
      PowMonotone(k, j);
    }
  }

  /** formatBytes, with the "%.2f" rendering of the quotient left as a parameter. */
  function FormatBytesText(b: uint64, fixed2: real -> string): string {
    if b < Unit then IntToString(b) + " B"
    else
      ExponentInRange(b);
      var exp := Exponent(b);
      fixed2((b as real) / (Pow1024(exp + 1) as real)) + " " + ["KMGTPE"[exp]] + "B"
  }

  method FormatBytes(b: uint64, fixed2: real -> string) returns (s: string)
    ensures s == FormatBytesText(b, fixed2)
  {
    if b < Unit {
      return IntToString(b) + " B";
    }
    var div: nat, exp: nat := Unit, 0;
    var n: nat := b / Unit;
    while n >= Unit
      invariant div == Pow1024(exp + 1)
      invariant exp + Steps(n) == Exponent(b)
      decreases n
    {
      div := div * Unit;
      exp := exp + 1;
      n := n / Unit;
    }
    ExponentInRange(b);
    s := fixed2((b as real) / (div as real)) + " " + ["KMGTPE"[exp]] + "B";
  }

  /** Sizes below 1 KiB print as bytes; 1 KiB and 1 MiB take the first two unit letters. */
  lemma FormatBytesSamples(fixed2: real -> string)
    ensures FormatBytesText(1023, fixed2) == "1023 B"
    ensures FormatBytesText(1024, fixed2) == fixed2(1.0) + " KB"
    ensures FormatBytesText(1048576, fixed2) == fixed2(1.0) + " MB"
  {
    assert Exponent(1024) == 0;
    assert Exponent(1048576) == 1 by { assert 1048576 / Unit == 1024; assert Steps(1) == 0; }
    assert IntToString(1023) == "1023" by {
      assert NatToString(1) == "1";
      assert NatToString(10) == "10";
      assert NatToString(102) == "102";
    }
  }

  // ---------------------------------------------------------------------------
  // Per-endpoint statistics
  // ---------------------------------------------------------------------------

  /** EndpointStats: request count and times in nanoseconds. */
  datatype EndpointStats = EndpointStats(hits: nat, totalTime: nat, slowestTime: nat)

  const Zero: EndpointStats := EndpointStats(0, 0, 0)

  /**
   * The deferred update after one request: one more hit, its time added, and
   * the slowest time raised to it when it is slower (the compare-and-swap
   * loop, run by one request at a time).
   */
  function Recorded(s: EndpointStats, elapsed: nat): (r: EndpointStats)
    ensures r.hits == s.hits + 1 && r.totalTime == s.totalTime + elapsed
    ensures r.slowestTime >= s.slowestTime && r.slowestTime >= elapsed
    ensures r.slowestTime == s.slowestTime || r.slowestTime == elapsed
  {
    EndpointStats(s.hits + 1, s.totalTime + elapsed, if elapsed <= s.slowestTime then s.slowestTime else elapsed)
  }

  /** The statistics of an endpoint after requests taking the given times, oldest first. */
  function Replay(s: EndpointStats, times: seq<nat>): EndpointStats {
    if times == [] then s else Recorded(Replay(s, times[..|times| - 1]), times[|times| - 1])
  }

  function SumTimes(times: seq<nat>): nat {
    if times == [] then 0 else SumTimes(times[..|times| - 1]) + times[|times| - 1]
  }

  /** Counting from nothing: the number of requests, the sum of their times, and the greatest of them (0 with none). */
  lemma {:induction false} ReplayFromZero(times: seq<nat>)
    ensures var s := Replay(Zero, times);
      s.hits == |times| && s.totalTime == SumTimes(times)
      && (forall i :: 0 <= i < |times| ==> times[i] <= s.slowestTime)
      && (times == [] ==> s.slowestTime == 0)
      && (times != [] ==> exists i :: 0 <= i < |times| && times[i] == s.slowestTime)
  {
    if times != [] {
      var init := times[..|times| - 1];
      ReplayFromZero(init);
      var s := Replay(Zero, times);
      assert forall i :: 0 <= i < |init| ==> init[i] == times[i];
      if init != [] && s.slowestTime == Replay(Zero, init).slowestTime {
        var i :| 0 <= i < |init| && init[i] == Replay(Zero, init).slowestTime;
        assert times[i] == s.slowestTime;
      } else {
        assert times[|times| - 1] == s.slowestTime;
      }
    }
  }

  /** The slowest time never goes down. */
  lemma {:induction false} SlowestNeverDecreases(s: EndpointStats, times: seq<nat>)
    ensures Replay(s, times).slowestTime >= s.slowestTime
    ensures Replay(s, times).hits == s.hits + |times|
  {
    if times != [] {
      SlowestNeverDecreases(s, times[..|times| - 1]);
    }
  }

  /** The average response time: whole nanoseconds, 0 before any hit. */
  function AverageTime(s: EndpointStats): nat {
    if s.hits > 0 then s.totalTime / s.hits else 0
  }

  lemma {:induction false} SumAtMost(times: seq<nat>, bound: nat)
    requires forall i :: 0 <= i < |times| ==> times[i] <= bound
    ensures SumTimes(times) <= |times| * bound
  {
    if times != [] {
      var init := times[..|times| - 1];
      assert forall i :: 0 <= i < |init| ==> init[i] == times[i];
      SumAtMost(init, bound);
      assert |times| * bound == |init| * bound + bound;
    }
  }

  /** The average of the recorded times never exceeds the slowest of them. */
  lemma AverageAtMostSlowest(times: seq<nat>)
    ensures AverageTime(Replay(Zero, times)) <= Replay(Zero, times).slowestTime
  {
    var s := Replay(Zero, times);
    ReplayFromZero(times);
    if times != [] {
      SumAtMost(times, s.slowestTime);
      QuotientAtMost(s.totalTime, s.hits, s.slowestTime);
    }
  }

  lemma QuotientAtMost(total: nat, n: nat, m: nat)
    requires n > 0 && total <= n * m
    ensures total / n <= m
  {
    var q := total / n;
    assert n * q + total % n == total;
    if q > m {
      assert n * q >= n * (m + 1) by { MulMonotone(n, m + 1, q); }
    }
  }

  lemma MulMonotone(n: nat, a: nat, b: nat)
    requires a <= b
    ensures n * a <= n * b
  {
  }

  /** One line of the stats page: hits, average and slowest time (both 0 before any hit). */
  datatype Row = Row(hits: nat, averageTime: nat, slowestTime: nat)

  function RowOf(s: EndpointStats): Row {
    Row(s.hits, AverageTime(s), if s.hits > 0 then s.slowestTime else 0)
  }

  /** Paths with a file extension other than .xml are passed through unrecorded; any other gets its stats updated. */
  function Observe(endpoints: map<string, EndpointStats>, path: string, elapsed: nat): (e: map<string, EndpointStats>)
    ensures e.Keys == if Utils.HasExtension(path) then endpoints.Keys else endpoints.Keys + {path}
    ensures forall k :: k in endpoints && k != path ==> e[k] == endpoints[k]
    ensures !Utils.HasExtension(path) ==> e[path].totalTime == (if path in endpoints then endpoints[path].totalTime else 0) + elapsed
  {
    if Utils.HasExtension(path) then endpoints
    else endpoints[path := Recorded(if path in endpoints then endpoints[path] else Zero, elapsed)]
  }

  /** Requests to static files never create or change an entry; a request touches its own path's entry only. */
  lemma ObserveEffect(endpoints: map<string, EndpointStats>, path: string, elapsed: nat)
    ensures Utils.HasExtension(path) ==> Observe(endpoints, path, elapsed) == endpoints
    ensures !Utils.HasExtension(path) ==>
      var e := Observe(endpoints, path, elapsed);
      e.Keys == endpoints.Keys + {path}
      && e[path].hits == (if path in endpoints then endpoints[path].hits else 0) + 1
      && (forall k :: k in endpoints && k != path ==> e[k] == endpoints[k])
  {
  }

  /** The statistics of all endpoints (a sync.Map in the server). */
  class Stats {
    var endpoints: map<string, EndpointStats>

    constructor ()
      ensures endpoints == map[]
    {
      endpoints := map[];
    }

    /** Middleware around one request to `path` that took `elapsed` nanoseconds. */
    method Middleware(path: string, elapsed: nat)
      modifies this
      ensures endpoints == Observe(old(endpoints), path, elapsed)
    {
      if Utils.HasExtension(path) {
        return;
      }
      var epStats := if path in endpoints then endpoints[path] else Zero;
      endpoints := endpoints[path := epStats];
      var oldSlowest := epStats.slowestTime;
      var slowest := if elapsed <= oldSlowest then oldSlowest else elapsed;
      endpoints := endpoints[path := EndpointStats(epStats.hits + 1, epStats.totalTime + elapsed, slowest)];
    }

    /**
     * The endpoint part of ServeStats: every path once, in ascending order,
     * with its row.
     */
    method EndpointReport() returns (keys: seq<string>, rows: map<string, Row>)
      ensures SortedStrings(keys) && multiset(keys) == multiset(endpoints.Keys)
      ensures rows == map k | k in endpoints :: RowOf(endpoints[k])
    {
      keys := [];
      rows := map[];
      var remaining := endpoints.Keys;
      while remaining != {}
        invariant remaining <= endpoints.Keys
        invariant multiset(keys) == multiset(endpoints.Keys - remaining)
        invariant rows == map k | k in endpoints.Keys - remaining :: RowOf(endpoints[k])
        decreases remaining
      {
        var path :| path in remaining;
        rows := rows[path := RowOf(endpoints[path])];
        keys := keys + [path];
        assert endpoints.Keys - (remaining - {path}) == (endpoints.Keys - remaining) + {path};
        remaining := remaining - {path};
      }
      assert endpoints.Keys - remaining == endpoints.Keys;
      keys := SortStrings(keys);
    }
  }
}
