/**
 * The shared in-memory cache that every proxy handler reads through: one map
 * from key to a cached body with its expiry instant, plus the counter of calls
 * made to Weather Underground. Time is integer Unix seconds.
 */
module Cache {

  import opened Wrappers
  import opened Upstream

  datatype CachedItem = CachedItem(content: Body, expiryTime: int)

  /** Expiry offsets, in seconds, of the entries whose lifetime is fixed. */
  const RssTtl: int := 15 * 60
  const WuTodayTtl: int := 2 * 60
  const WuTodayHistoryTtl: int := 5 * 60
  const MoonTtl: int := 60 * 60

  /** The RSS, moon and sunrise-sunset fetchers serve an entry only strictly before its expiry (time.Now().Before). */
  predicate FreshBefore(items: map<string, CachedItem>, key: string, now: int) {
    key in items && now < items[key].expiryTime
  }

  /** The Weather Underground fetchers refetch only when the entry is absent or strictly past its expiry (time.Now().After). */
  predicate Expired(items: map<string, CachedItem>, key: string, now: int) {
    key !in items || now > items[key].expiryTime
  }

  /** The mutable state the fetchers share: the cache map and the Weather Underground call counter. */
  class Store {
    var items: map<string, CachedItem>
    var wuHits: nat

    constructor ()
      ensures items == map[] && wuHits == 0
    {
      items := map[];
      wuHits := 0;
    }
  }

  /** What a fetch leaves behind: its result, the cache, and the call counter. */
  datatype Step<T> = Step(result: Result<T, Failure>, items: map<string, CachedItem>, hits: nat)

  /** How a handler answers a request: a status and a body, or a connection dropped by a panic. */
  datatype Answer = Answer(status: int, body: Body) | Aborted

  /** The answer of a handler that writes the fetched body, or http.Error with `message` and status 500. */
  function Serve(r: Result<Body, Failure>, message: string): Answer {
    match r
    case Ok(b) => Answer(200, b)
    case Err(Panic) => Aborted
    case Err(_) => Answer(500, Raw(message + "\n"))
  }

  /** What a handler leaves behind: its answer, the cache, and the call counter. */
  datatype Outcome = Outcome(answer: Answer, items: map<string, CachedItem>, hits: nat)

  /**
   * What one prefetch step leaves behind: whether the process is still
   * running, the cache, and the call counter. A prefetcher runs in a goroutine
   * of its own with no recover, so a panic there ends the whole server.
   */
  datatype Prefetched = Prefetched(running: bool, items: map<string, CachedItem>, hits: nat)
}
