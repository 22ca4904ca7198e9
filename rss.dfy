/** The RSS proxy: three fixed weather feeds, cached by request path for fifteen minutes. */
module Rss {

  import opened Wrappers
  import opened Upstream
  import opened Cache

  /** The feeds the prefetcher visits, in order. */
  const Feeds: seq<string> := ["/rss/nb10_e.xml", "/rss/nb16_e.xml", "/rss/city/nb-17_e.xml"]

  /** The upstream URL of a request path; None for any path that is not one of the three feeds. */
  function FeedURL(path: string): (u: Option<string>)
    ensures u.Some? <==> path in Feeds
  {
    if path == "/rss/nb10_e.xml" then Some("https://weather.gc.ca/rss/battleboard/nb10_e.xml")
    else if path == "/rss/nb16_e.xml" then Some("https://weather.gc.ca/rss/battleboard/nb16_e.xml")
    else if path == "/rss/city/nb-17_e.xml" then Some("https://weather.gc.ca/rss/city/nb-17_e.xml")
    else None
  }

  /** The read-through policy of one feed request: the result and the cache afterwards. */
  function FeedStep(items: map<string, CachedItem>, path: string, now: int, sv: Services): (r: (Result<Body, Failure>, map<string, CachedItem>))
    ensures FeedURL(path).None? ==> r == (Err(InvalidFeed), items)
    ensures r.1.Keys <= items.Keys + {path}
    ensures forall k :: k in items && k != path ==> k in r.1 && r.1[k] == items[k]
    ensures r.1 != items ==> r.0.Ok? && r.1 == items[path := CachedItem(r.0.value, now + RssTtl)]
  {
    match FeedURL(path)
    case None => (Err(InvalidFeed), items)
    case Some(url) =>
      if FreshBefore(items, path, now) then (Ok(items[path].content), items)
      else
        match Body200(sv.rss(url))
        case Err(e) => (Err(e), items)
        case Ok(body) => (Ok(body), items[path := CachedItem(body, now + RssTtl)])
  }

  /** fetchAndCacheRSSFeed. */
  method FetchAndCacheRSSFeed(store: Store, path: string, now: int, sv: Services) returns (r: Result<Body, Failure>)
    modifies store`items
    ensures (r, store.items) == FeedStep(old(store.items), path, now, sv)
  {
    var feedURL := FeedURL(path);
    if feedURL.None? {
      return Err(InvalidFeed);
    }
    var cacheKey := path;
    if cacheKey in store.items && now < store.items[cacheKey].expiryTime {
      return Ok(store.items[cacheKey].content);
    }
    var fetched := Body200(sv.rss(feedURL.value));
    if fetched.Err? {
      return Err(fetched.error);
    }
    store.items := store.items[cacheKey := CachedItem(fetched.value, now + RssTtl)];
    return Ok(fetched.value);
  }

  /** ProxyRSSFeed: the feed body, or 500 with "Failed to fetch RSS feed". */
  method ProxyRSSFeed(store: Store, path: string, now: int, sv: Services) returns (a: Answer)
    modifies store`items
    ensures var (r, items) := FeedStep(old(store.items), path, now, sv);
      store.items == items && a == Serve(r, "Failed to fetch RSS feed")
  {
    var r := FetchAndCacheRSSFeed(store, path, now, sv);
    a := Serve(r, "Failed to fetch RSS feed");
  }

  /** A path that is not one of the feeds is refused and nothing is cached. */
  lemma UnknownPathRefused(items: map<string, CachedItem>, path: string, now: int, sv: Services)
    requires path !in Feeds
    ensures FeedStep(items, path, now, sv) == (Err(InvalidFeed), items)
  {
  }

  /**
   * A request for a feed is answered from the cache, whatever the upstream would
   * say, exactly when the entry under the request path is present and
   * unexpired; otherwise the upstream is asked.
   */
  lemma ServedFromCacheIffFresh(items: map<string, CachedItem>, path: string, now: int, sv: Services)
    requires path in Feeds
    ensures FreshBefore(items, path, now) ==> FeedStep(items, path, now, sv) == (Ok(items[path].content), items)
    ensures !FreshBefore(items, path, now) ==>
      FeedStep(items, path, now, sv).0 == Body200(sv.rss(FeedURL(path).value))
  {
  }

  /**
   * Whatever happens, only the entry under the request path can change; a
   * failure changes nothing; a success leaves under the path the body it
   * returns, unexpired until at least fifteen minutes from now when it was fetched.
   */
  lemma FeedStepEffect(items: map<string, CachedItem>, path: string, now: int, sv: Services)
    ensures var (r, items') := FeedStep(items, path, now, sv);
      (forall k :: k != path ==> (k in items' <==> k in items) && (k in items ==> items'[k] == items[k]))
      && (r.Err? ==> items' == items)
      && (r.Ok? ==> path in items' && items'[path].content == r.value && now < items'[path].expiryTime)
      && (items' != items ==> items'[path] == CachedItem(r.value, now + RssTtl))
  {
    match FeedURL(path) {
      case None =>
      case Some(url) =>
        if !FreshBefore(items, path, now) && Body200(sv.rss(url)).Ok? {
          var body := Body200(sv.rss(url)).value;
          assert FeedStep(items, path, now, sv) == (Ok(body), items[path := CachedItem(body, now + RssTtl)]);
        }
    }
  }

  /**
   * A body once returned for a feed is returned again, with no upstream call and
   * no cache change, by every later request before its entry expires.
   */
  lemma RepeatWithinLifetime(items: map<string, CachedItem>, path: string, now: int, later: int, sv: Services, sv': Services)
    requires FeedStep(items, path, now, sv).0.Ok?
    requires var items' := FeedStep(items, path, now, sv).1; later < items'[path].expiryTime
    ensures var (r, items') := FeedStep(items, path, now, sv);
      FeedStep(items', path, later, sv') == (r, items')
  {
    FeedStepEffect(items, path, now, sv);
  }

  /** The cache after prefetching each feed of `paths` in turn. */
  function PrefetchAll(items: map<string, CachedItem>, paths: seq<string>, now: int, sv: Services): map<string, CachedItem>
    decreases |paths|
  {
    if paths == [] then items
    else PrefetchAll(FeedStep(items, paths[0], now, sv).1, paths[1..], now, sv)
  }

  /** prefetchRSSFeeds: every feed is fetched in order; an error is logged and the loop goes on. */
  method PrefetchRSSFeeds(store: Store, now: int, sv: Services)
    modifies store`items
    ensures store.items == PrefetchAll(old(store.items), Feeds, now, sv)
  {
    var feeds := Feeds;
    for i := 0 to |feeds|
      invariant PrefetchAll(old(store.items), feeds, now, sv) == PrefetchAll(store.items, feeds[i..], now, sv)
    {
      assert feeds[i..][1..] == feeds[i + 1..];
      var _ := FetchAndCacheRSSFeed(store, feeds[i], now, sv);
    }
  }

  /** Prefetching a list of distinct feeds leaves each one's entry as that feed's own request would, the others' failures notwithstanding. */
  lemma {:induction false} PrefetchEachFeed(items: map<string, CachedItem>, paths: seq<string>, now: int, sv: Services, p: string)
    requires forall i, j :: 0 <= i < j < |paths| ==> paths[i] != paths[j]
    ensures var final := PrefetchAll(items, paths, now, sv);
      p in paths ==>
        (p in final <==> p in FeedStep(items, p, now, sv).1)
        && (p in final ==> final[p] == FeedStep(items, p, now, sv).1[p])
    ensures var final := PrefetchAll(items, paths, now, sv);
      p !in paths ==>
        (p in final <==> p in items) && (p in final ==> final[p] == items[p])
    decreases |paths|
  {
    if paths != [] {
      var items1 := FeedStep(items, paths[0], now, sv).1;
      FeedStepEffect(items, paths[0], now, sv);
      PrefetchEachFeed(items1, paths[1..], now, sv, p);
      if p != paths[0] && p in paths {
        assert p in paths[1..];
        FeedStepAgrees(items, items1, p, now, sv);
      }
      if p == paths[0] {
        assert p !in paths[1..];
      }
    }
  }

  /** Two caches that agree on the entry under `p` give the same outcome for `p`, and the same entry afterwards. */
  lemma FeedStepAgrees(a: map<string, CachedItem>, b: map<string, CachedItem>, p: string, now: int, sv: Services)
    requires (p in a <==> p in b) && (p in a ==> a[p] == b[p])
    ensures FeedStep(a, p, now, sv).0 == FeedStep(b, p, now, sv).0
    ensures p in FeedStep(a, p, now, sv).1 <==> p in FeedStep(b, p, now, sv).1
    ensures p in FeedStep(a, p, now, sv).1 ==> FeedStep(a, p, now, sv).1[p] == FeedStep(b, p, now, sv).1[p]
  {
    match FeedURL(p) {
      case None =>
      case Some(url) =>
        assert FreshBefore(a, p, now) == FreshBefore(b, p, now);
        if !FreshBefore(a, p, now) && Body200(sv.rss(url)).Ok? {
          var body := Body200(sv.rss(url)).value;
          assert FeedStep(a, p, now, sv).1 == a[p := CachedItem(body, now + RssTtl)];
          assert FeedStep(b, p, now, sv).1 == b[p := CachedItem(body, now + RssTtl)];
        }
    }
  }

  /** The three feeds are distinct, so each feed's entry after a prefetch is its own request's outcome. */
  lemma PrefetchVisitsEveryFeed(items: map<string, CachedItem>, now: int, sv: Services)
    ensures forall p :: p in Feeds ==>
      var final := PrefetchAll(items, Feeds, now, sv);
      (p in final <==> p in FeedStep(items, p, now, sv).1)
      && (p in final ==> final[p] == FeedStep(items, p, now, sv).1[p])
  {
    forall p | p in Feeds
      ensures var final := PrefetchAll(items, Feeds, now, sv);
        (p in final <==> p in FeedStep(items, p, now, sv).1)
        && (p in final ==> final[p] == FeedStep(items, p, now, sv).1[p])
    {
      PrefetchEachFeed(items, Feeds, now, sv, p);
    }
  }
}
