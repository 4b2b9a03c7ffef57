/** The feed cache and generator: the cache key, the paging loop that builds
    a feed from the upstream, and the generator object whose cache map is
    consulted and replaced on each request. */
module Feed {
  import opened Wrappers
  import opened Text
  import opened Config
  import opened Mods
  import opened Fetch
  import opened Options

  const FeedTitle: string := "BG3 Mods Feed"
  const FeedDescription: string := "A feed of the latest mods for Baldur's Gate 3"

  /** The largest page ever requested from the upstream. */
  const MaxPageSize: int := 100

  /** One rendered entry: the fields of a `feeds.Item` the generator fills. */
  datatype FeedItem = FeedItem(
    id: string,
    title: string,
    link: string,
    description: string,
    created: Time,
    updated: Time,
    content: string)

  /** The format-neutral feed document (`feeds.Feed`). */
  datatype FeedDoc = FeedDoc(title: string, link: string, description: string, items: seq<FeedItem>)

  /** `cacheKey`: the options that decide which items a feed holds. */
  datatype CacheKey = CacheKey(maxItems: int, sort: string, tags: string, platform: Platform)

  /** `cachedFeed`: a generated document and the time it was stored. */
  datatype CachedFeed = CachedFeed(feed: FeedDoc, at: int)

  /** `Feed`: what a request gets back. */
  datatype Feed = Feed(content: string, format: FeedFormat, syncedAt: int)

  datatype FeedError = FetchFailed(cause: string) | RenderFailed(cause: string)

  /** The `gorilla/feeds` serialisers: a document in a given format, or an error. */
  type Renderer = (FeedDoc, FeedFormat) -> Result<string, string>

  /** The key `GetFeed` files the merged options under. */
  function KeyOf(opts: GeneratorOptions): CacheKey
  {
    CacheKey(opts.maxItems, opts.GetSort(), Join(opts.tags), opts.platform)
  }

  /** The page size of `generate`: 100, or the item limit when that is
      positive and smaller. */
  function PageSize(opts: GeneratorOptions): (limit: int)
    ensures 1 <= limit <= MaxPageSize
    ensures opts.maxItems > 0 ==> limit == if opts.maxItems < MaxPageSize then opts.maxItems else MaxPageSize
    ensures opts.maxItems <= 0 ==> limit == MaxPageSize
  {
    var limit := 100;
    if opts.maxItems > 0 && opts.maxItems < limit then opts.maxItems else limit
  }

  /** The `k`-th request `generate` sends (counting from 0). */
  function RequestFor(opts: GeneratorOptions, k: nat): (r: FetchOptions)
    ensures 1 <= r.limit <= MaxPageSize && r.offset == k * r.limit
    ensures r.sort != "" && r.sort !in SortAliases
  {
    FetchOptions(PageSize(opts), k * PageSize(opts), opts.GetSort(), opts.tags)
  }

  /** The projection of an upstream record into a feed item. */
  function ItemOf(m: Mod): FeedItem
  {
    FeedItem(m.nameId, m.String(), m.profileUrl, m.summary, m.DateAdded(), m.DateUpdated(), m.description)
  }

  /** Whether the platform filter lets a record through: the filter is only
      active for a valid platform. */
  predicate Keep(opts: GeneratorOptions, m: Mod)
  {
    !PlatformIsValid(opts.platform) || m.SupportsPlatform(opts.platform)
  }

  /** The items of the records that pass the filter, in upstream order. */
  function Selected(opts: GeneratorOptions, ms: seq<Mod>): (r: seq<FeedItem>)
    ensures |r| <= |ms|
  {
    if ms == [] then []
    else
      var last := ms[|ms| - 1];
      Selected(opts, ms[..|ms| - 1]) + (if Keep(opts, last) then [ItemOf(last)] else [])
  }

  /** The first `maxItems` items when `maxItems` is positive; all of them otherwise. */
  function Cap(items: seq<FeedItem>, maxItems: int): (r: seq<FeedItem>)
    ensures r <= items
    ensures maxItems > 0 ==> |r| == if |items| < maxItems then |items| else maxItems
    ensures maxItems <= 0 ==> r == items
  {
    if maxItems > 0 && |items| > maxItems then items[..maxItems] else items
  }

  /** The records of a list of pages, page after page. */
  function Flatten(pages: seq<seq<Mod>>): (ms: seq<Mod>)
  {
    if pages == [] then [] else Flatten(pages[..|pages| - 1]) + pages[|pages| - 1]
  }

  /** The limit check `generate` makes before each record passed for every
      record of `recs`: fewer than `maxItems` items had been collected before
      the last one. */
  ghost predicate NotCapped(opts: GeneratorOptions, recs: seq<Mod>)
  {
    opts.maxItems <= 0 || |recs| == 0 || |Selected(opts, recs[..|recs| - 1])| < opts.maxItems
  }

  /** An upstream with fewer than `bound` records: a request for a positive
      number of records at an offset of `bound` or more yields a short page
      or an error. */
  ghost predicate UpstreamFinite(api: Upstream, bound: nat)
  {
    forall o: FetchOptions {:trigger Exhausted(api, o)} :: o.offset >= bound && o.limit > 0 ==> Exhausted(api, o)
  }

  /** The item limit alone ends `generate`: it is positive and no valid
      platform filters records out, so every full page brings the number of
      items closer to it. */
  predicate LimitStops(opts: GeneratorOptions)
  {
    opts.maxItems > 0 && !PlatformIsValid(opts.platform)
  }

  /** A fixed listing `recs` served page by page: the records from the
      offset on, at most `limit` of them. */
  function ServePage(recs: seq<Mod>, o: FetchOptions): (r: Result<seq<Mod>, string>)
    ensures r.Ok? && |r.value| <= |recs|
    ensures o.offset >= |recs| ==> r == Ok([])
  {
    var lo := if o.offset < 0 then 0 else if o.offset > |recs| then |recs| else o.offset;
    var n := if o.limit < 0 then 0 else o.limit;
    var hi := if lo + n > |recs| then |recs| else lo + n;
    Ok(recs[lo..hi])
  }

  /** A finite listing is a finite upstream, bounded by its length. */
  lemma ListingFinite(recs: seq<Mod>)
    ensures UpstreamFinite((o: FetchOptions) => ServePage(recs, o), |recs|)
  {
    var api := (o: FetchOptions) => ServePage(recs, o);
    forall o: FetchOptions | o.offset >= |recs| && o.limit > 0
      ensures Exhausted(api, o)
    {
      assert api(o) == Ok([]);
    }
  }

  /** A request answered with a full page lies below the bound. */
  lemma NotExhausted(api: Upstream, bound: nat, o: FetchOptions)
    requires UpstreamFinite(api, bound) && o.limit > 0 && !Exhausted(api, o)
    ensures o.offset < bound
  {
  }

  /** The answer to request `o` ends the paging: an error or a short page. */
  ghost predicate Exhausted(api: Upstream, o: FetchOptions)
  {
    api(o).Err? || |api(o).value| < o.limit
  }

  /** The loop of `generate` went on past each of these pages: every one was
      full and the limit check passed for each of its records. */
  ghost predicate Continued(opts: GeneratorOptions, passed: seq<seq<Mod>>)
  {
    && (forall k :: 0 <= k < |passed| ==> |passed[k]| >= PageSize(opts))
    && NotCapped(opts, Flatten(passed))
  }

  /** The requests sent so far are the consecutive pages of `opts`, and the
      pages received are the answers to the first of them. */
  ghost predicate Paged(api: Upstream, opts: GeneratorOptions, reqs: seq<FetchOptions>, pages: seq<seq<Mod>>)
  {
    && (forall k :: 0 <= k < |reqs| ==> reqs[k] == RequestFor(opts, k))
    && |pages| <= |reqs|
    && (forall k :: 0 <= k < |pages| ==> api(reqs[k]) == Ok(pages[k]))
  }

  /** What one run of `generate` does, given the requests `reqs` it sent and
      the pages `pages` it got back:
      - the `k`-th request asks for page size `PageSize(opts)` at offset `k`
        times that size, with the resolved sort and the tags of `opts`;
      - every page before the last request was full and did not reach the
        item limit before its last record, so the loop went on;
      - on an upstream error, the result is that error and no feed;
      - otherwise the items are the first `maxItems` projections of the
        records that pass the filter, in upstream order, and the run stopped
        because the last page was short or the limit was reached with a
        record still to go. */
  ghost predicate Generation(api: Upstream, opts: GeneratorOptions, res: Result<FeedDoc, FeedError>,
                             reqs: seq<FetchOptions>, pages: seq<seq<Mod>>)
  {
    && |reqs| >= 1
    && Paged(api, opts, reqs, pages)
    && |pages| == (if res.Ok? then |reqs| else |reqs| - 1)
    && Continued(opts, if res.Ok? then pages[..|pages| - 1] else pages)
    && match res
       case Err(e) =>
         api(reqs[|reqs| - 1]).Err? && e == FetchFailed(api(reqs[|reqs| - 1]).error)
       case Ok(doc) =>
         && doc == FeedDoc(FeedTitle, "", FeedDescription, doc.items)
         && doc.items == Cap(Selected(opts, Flatten(pages)), opts.maxItems)
         && (|pages[|pages| - 1]| < PageSize(opts) || !NotCapped(opts, Flatten(pages)))
  }

  /** The run ends with the upstream error of its last request. */
  lemma FailedRun(api: Upstream, opts: GeneratorOptions, reqs: seq<FetchOptions>, pages: seq<seq<Mod>>, e: string)
    requires Paged(api, opts, reqs, pages) && |reqs| == |pages| + 1
    requires Continued(opts, pages)
    requires api(reqs[|reqs| - 1]) == Err(e)
    ensures Generation(api, opts, Err(FetchFailed(e)), reqs, pages)
  {
  }

  /** The run ends with a feed after its last page. */
  lemma FinishedRun(api: Upstream, opts: GeneratorOptions, reqs: seq<FetchOptions>, pages: seq<seq<Mod>>,
                    items: seq<FeedItem>)
    requires Paged(api, opts, reqs, pages) && |reqs| == |pages| >= 1
    requires Continued(opts, pages[..|pages| - 1])
    requires items == Cap(Selected(opts, Flatten(pages)), opts.maxItems)
    requires |pages[|pages| - 1]| < PageSize(opts) || !NotCapped(opts, Flatten(pages))
    ensures Generation(api, opts, Ok(FeedDoc(FeedTitle, "", FeedDescription, items)), reqs, pages)
  {
  }

  lemma {:induction false} SelectedAppend(opts: GeneratorOptions, a: seq<Mod>, b: seq<Mod>)
    ensures Selected(opts, a + b) == Selected(opts, a) + Selected(opts, b)
  {
    if b == [] {
      assert a + b == a;
    } else {
      var b' := b[..|b| - 1];
      SelectedAppend(opts, a, b');
      assert (a + b)[..|a + b| - 1] == a + b';
      assert (a + b)[|a + b| - 1] == b[|b| - 1];
    }
  }

  /** One more record: its item is appended when it passes the filter. */
  lemma SelectedSnoc(opts: GeneratorOptions, ms: seq<Mod>, m: Mod)
    ensures Selected(opts, ms + [m]) == Selected(opts, ms) + (if Keep(opts, m) then [ItemOf(m)] else [])
  {
    assert (ms + [m])[..|ms|] == ms;
  }

  /** A record the filter rejects contributes nothing, so it does not count
      toward the limit. */
  lemma SelectedSkips(opts: GeneratorOptions, a: seq<Mod>, m: Mod, b: seq<Mod>)
    requires !Keep(opts, m)
    ensures Selected(opts, a + [m] + b) == Selected(opts, a + b)
  {
    SelectedAppend(opts, a + [m], b);
    SelectedSnoc(opts, a, m);
    SelectedAppend(opts, a, b);
  }

  /** Without a valid platform filter every record becomes an item, in order. */
  lemma {:induction false} SelectedUnfiltered(opts: GeneratorOptions, ms: seq<Mod>)
    requires !PlatformIsValid(opts.platform)
    ensures |Selected(opts, ms)| == |ms|
    ensures forall i :: 0 <= i < |ms| ==> Selected(opts, ms)[i] == ItemOf(ms[i])
  {
    if ms != [] {
      SelectedUnfiltered(opts, ms[..|ms| - 1]);
    }
  }

  lemma NotCappedPrefix(opts: GeneratorOptions, a: seq<Mod>, b: seq<Mod>)
    requires NotCapped(opts, a + b)
    ensures NotCapped(opts, a)
  {
    if |b| == 0 {
      assert a + b == a;
    } else if opts.maxItems > 0 && |a| > 0 {
      var ab := a + b;
      assert ab[..|ab| - 1] == a[..|a| - 1] + (a[|a| - 1..] + b[..|b| - 1]);
      SelectedAppend(opts, a[..|a| - 1], a[|a| - 1..] + b[..|b| - 1]);
    }
  }

  lemma FlattenSnoc(pages: seq<seq<Mod>>, p: seq<Mod>)
    ensures Flatten(pages + [p]) == Flatten(pages) + p
  {
    assert (pages + [p])[..|pages|] == pages;
  }

  lemma NextOffset(k: nat, limit: int)
    ensures (k + 1) * limit == k * limit + limit
  {
  }

  /** The per-record loop of `generate` over one page `data`, after the
      records `seen` of the earlier pages produced `items`. Before each record
      the item limit is checked: once `maxItems` items are collected the
      scan stops (`stopped`) at record `at`. Otherwise a record that fails the
      platform filter is skipped, and every other one appends its item. */
  method CollectPage(opts: GeneratorOptions, ghost seen: seq<Mod>, data: seq<Mod>, items: seq<FeedItem>)
    returns (items': seq<FeedItem>, stopped: bool, ghost at: int)
    requires items == Selected(opts, seen) && NotCapped(opts, seen)
    requires opts.maxItems > 0 ==> |items| <= opts.maxItems
    ensures opts.maxItems > 0 ==> |items'| <= opts.maxItems
    ensures stopped ==> && opts.maxItems > 0 && 0 <= at < |data|
                        && items' == Selected(opts, seen + data[..at])
                        && |items'| == opts.maxItems
    ensures !stopped ==> items' == Selected(opts, seen + data) && NotCapped(opts, seen + data)
  {
    items' := items;
    var i := 0;
    assert seen + data[..0] == seen;
    while i < |data|
      invariant 0 <= i <= |data|
      invariant items' == Selected(opts, seen + data[..i])
      invariant NotCapped(opts, seen + data[..i])
      invariant opts.maxItems > 0 ==> |items'| <= opts.maxItems
    {
      if opts.maxItems > 0 && |items'| >= opts.maxItems {
        return items', true, i;
      }
      assert seen + data[..i + 1] == (seen + data[..i]) + [data[i]];
      SelectedSnoc(opts, seen + data[..i], data[i]);
      if PlatformIsValid(opts.platform) && !data[i].SupportsPlatform(opts.platform) {
        i := i + 1;
        continue;
      }
      items' := items' + [ItemOf(data[i])];
      i := i + 1;
    }
    assert data[..|data|] == data;
    stopped, at := false, |data|;
  }

  /** The state of `generate` between pages: the requests so far were all
      answered with full pages that did not reach the item limit, `seen`
      holds their records and `items` the selection from them. */
  ghost predicate Progress(api: Upstream, opts: GeneratorOptions, reqs: seq<FetchOptions>, pages: seq<seq<Mod>>,
                           seen: seq<Mod>, items: seq<FeedItem>)
  {
    && Paged(api, opts, reqs, pages) && |pages| == |reqs|
    && Continued(opts, pages)
    && seen == Flatten(pages)
    && items == Selected(opts, seen)
    && (opts.maxItems > 0 ==> |items| <= opts.maxItems)
  }

  /** Without a platform filter, a page adds one item per record. */
  lemma UnfilteredGrows(opts: GeneratorOptions, seen: seq<Mod>, data: seq<Mod>)
    requires !PlatformIsValid(opts.platform)
    ensures |Selected(opts, seen + data)| == |Selected(opts, seen)| + |data|
  {
    SelectedAppend(opts, seen, data);
    SelectedUnfiltered(opts, data);
  }

  /** A full page that did not reach the limit moves `generate` to the next page. */
  lemma NextPage(api: Upstream, opts: GeneratorOptions, reqs: seq<FetchOptions>, pages: seq<seq<Mod>>,
                 seen: seq<Mod>, items0: seq<FeedItem>, data: seq<Mod>, items: seq<FeedItem>)
    requires Progress(api, opts, reqs, pages, seen, items0)
    requires api(RequestFor(opts, |reqs|)) == Ok(data) && |data| >= PageSize(opts)
    requires items == Selected(opts, seen + data) && NotCapped(opts, seen + data)
    requires opts.maxItems > 0 ==> |items| <= opts.maxItems
    ensures Progress(api, opts, reqs + [RequestFor(opts, |reqs|)], pages + [data], seen + data, items)
  {
    FlattenSnoc(pages, data);
    var pages' := pages + [data];
    assert pages'[..|pages|] == pages;
  }

  /** A page after which `generate` returns a feed: the limit was reached
      before one of its records (`stopped` at record `at`), or it is short. */
  lemma LastPage(api: Upstream, opts: GeneratorOptions, reqs: seq<FetchOptions>, pages: seq<seq<Mod>>,
                 seen: seq<Mod>, items0: seq<FeedItem>, data: seq<Mod>, items: seq<FeedItem>,
                 stopped: bool, at: int)
    requires Progress(api, opts, reqs, pages, seen, items0)
    requires api(RequestFor(opts, |reqs|)) == Ok(data)
    requires stopped ==> && opts.maxItems > 0 && 0 <= at < |data|
                         && items == Selected(opts, seen + data[..at])
                         && |items| == opts.maxItems
    requires !stopped ==> && |data| < PageSize(opts)
                          && items == Selected(opts, seen + data) && NotCapped(opts, seen + data)
                          && (opts.maxItems > 0 ==> |items| <= opts.maxItems)
    ensures Generation(api, opts, Ok(FeedDoc(FeedTitle, "", FeedDescription, items)),
                       reqs + [RequestFor(opts, |reqs|)], pages + [data])
  {
    FlattenSnoc(pages, data);
    var pages' := pages + [data];
    assert pages'[..|pages|] == pages;
    if stopped {
      EarlyStop(opts, seen, data, at);
    }
    FinishedRun(api, opts, reqs + [RequestFor(opts, |reqs|)], pages', items);
  }

  /** The paging loop of `generate`, with `api` standing for the upstream. */
  method Generate(api: Upstream, opts: GeneratorOptions, ghost bound: nat)
    returns (res: Result<FeedDoc, FeedError>, ghost reqs: seq<FetchOptions>, ghost pages: seq<seq<Mod>>)
    requires UpstreamFinite(api, bound) || LimitStops(opts)
    ensures Generation(api, opts, res, reqs, pages)
    ensures res.Ok? && opts.maxItems > 0 ==> |res.value.items| <= opts.maxItems
  {
    var limit := 100;
    if opts.maxItems > 0 && opts.maxItems < limit {
      limit := opts.maxItems;
    }
    var offset := 0;
    var items: seq<FeedItem> := [];
    reqs, pages := [], [];
    ghost var seen: seq<Mod> := [];
    ghost var finite := UpstreamFinite(api, bound);
    while true
      invariant limit == PageSize(opts)
      invariant offset == |reqs| * limit
      invariant Progress(api, opts, reqs, pages, seen, items)
      invariant finite ==> offset < bound + limit
      decreases if finite then bound + limit - offset else opts.maxItems - |items|
    {
      var req := FetchOptions(limit, offset, opts.GetSort(), opts.tags);
      assert req == RequestFor(opts, |reqs|);
      var fetched := api(req);
      if fetched.Err? {
        res, reqs := Err(FetchFailed(fetched.error)), reqs + [req];
        FailedRun(api, opts, reqs, pages, fetched.error);
        return;
      }
      var data := fetched.value;
      var items', stopped, at := CollectPage(opts, seen, data, items);
      if stopped || |data| < limit {
        LastPage(api, opts, reqs, pages, seen, items, data, items', stopped, at);
        res, reqs, pages := Ok(FeedDoc(FeedTitle, "", FeedDescription, items')), reqs + [req], pages + [data];
        return;
      }
      NextPage(api, opts, reqs, pages, seen, items, data, items');
      if finite {
        NotExhausted(api, bound, req);
      } else {
        UnfilteredGrows(opts, seen, data);
      }
      NextOffset(|reqs|, limit);
      offset := offset + limit;
      reqs, pages, seen, items := reqs + [req], pages + [data], seen + data, items';
    }
  }

  lemma FlattenSingle(p: seq<Mod>)
    ensures Flatten([p]) == p
  {
    assert [p][..0] == [];
  }

  lemma {:induction false} FlattenAppend(a: seq<seq<Mod>>, b: seq<seq<Mod>>)
    ensures Flatten(a + b) == Flatten(a) + Flatten(b)
  {
    if b != [] {
      var b' := b[..|b| - 1];
      FlattenAppend(a, b');
      assert (a + b)[..|a + b| - 1] == a + b';
    } else {
      assert a + b == a;
    }
  }

  /** The outcome of `generate` is determined by the upstream and the
      options: any two runs described by `Generation` sent the same requests,
      got the same pages and returned the same result. */
  lemma GenerationDeterministic(api: Upstream, opts: GeneratorOptions,
                                res1: Result<FeedDoc, FeedError>, reqs1: seq<FetchOptions>, pages1: seq<seq<Mod>>,
                                res2: Result<FeedDoc, FeedError>, reqs2: seq<FetchOptions>, pages2: seq<seq<Mod>>)
    requires Generation(api, opts, res1, reqs1, pages1)
    requires Generation(api, opts, res2, reqs2, pages2)
    ensures reqs1 == reqs2 && pages1 == pages2 && res1 == res2
  {
    EndsNoEarlier(api, opts, res1, reqs1, pages1, res2, reqs2, pages2);
    EndsNoEarlier(api, opts, res2, reqs2, pages2, res1, reqs1, pages1);
    assert reqs1 == reqs2;
    var n := |reqs1|;
    if res1.Ok? != res2.Ok? {
      assert false;
    }
    forall k | 0 <= k < |pages1| ensures pages1[k] == pages2[k] {
      assert api(reqs1[k]) == Ok(pages1[k]) && api(reqs2[k]) == Ok(pages2[k]);
    }
  }

  /** Two runs on the same upstream got the same pages for the requests
      both of them had answered. */
  lemma SamePages(api: Upstream, opts: GeneratorOptions,
                  reqs1: seq<FetchOptions>, pages1: seq<seq<Mod>>, reqs2: seq<FetchOptions>, pages2: seq<seq<Mod>>)
    requires Paged(api, opts, reqs1, pages1) && Paged(api, opts, reqs2, pages2)
    requires |pages1| <= |pages2|
    ensures pages1 == pages2[..|pages1|]
  {
    forall k | 0 <= k < |pages1| ensures pages1[k] == pages2[k] {
      assert api(reqs1[k]) == Ok(pages1[k]) && api(reqs2[k]) == Ok(pages2[k]);
    }
  }

  /** The loop went on past every page of a prefix of pages it went on past. */
  lemma ContinuedPrefix(opts: GeneratorOptions, passed: seq<seq<Mod>>, n: nat)
    requires Continued(opts, passed) && n <= |passed|
    ensures Continued(opts, passed[..n])
  {
    assert passed == passed[..n] + passed[n..];
    FlattenAppend(passed[..n], passed[n..]);
    NotCappedPrefix(opts, Flatten(passed[..n]), Flatten(passed[n..]));
  }

  /** A run of `generate` sends at least as many requests as any other run
      on the same upstream and options. */
  lemma EndsNoEarlier(api: Upstream, opts: GeneratorOptions,
                      res1: Result<FeedDoc, FeedError>, reqs1: seq<FetchOptions>, pages1: seq<seq<Mod>>,
                      res2: Result<FeedDoc, FeedError>, reqs2: seq<FetchOptions>, pages2: seq<seq<Mod>>)
    requires Generation(api, opts, res1, reqs1, pages1)
    requires Generation(api, opts, res2, reqs2, pages2)
    ensures |reqs2| <= |reqs1|
  {
    if |reqs1| < |reqs2| {
      var n := |reqs1|;
      var passed2 := if res2.Ok? then pages2[..|pages2| - 1] else pages2;
      assert Paged(api, opts, reqs2, passed2) && Continued(opts, passed2) && n <= |passed2|;
      if res1.Err? {
        assert false;
      }
      SamePages(api, opts, reqs1, pages1, reqs2, passed2);
      ContinuedPrefix(opts, passed2, n);
      assert false;
    }
  }

  /** The detail of the limit check coming before each record: when the
      first page is full and the limit is not reached before its last record,
      a second page is requested, even if that last record fills the feed. */
  lemma FullFirstPageFetchesAnother(api: Upstream, opts: GeneratorOptions, res: Result<FeedDoc, FeedError>,
                                    reqs: seq<FetchOptions>, pages: seq<seq<Mod>>, first: seq<Mod>)
    requires Generation(api, opts, res, reqs, pages)
    requires api(RequestFor(opts, 0)) == Ok(first)
    requires |first| >= PageSize(opts) && NotCapped(opts, first)
    ensures |reqs| >= 2
  {
    if |reqs| == 1 {
      assert reqs[0] == RequestFor(opts, 0);
      assert api(reqs[0]) == Ok(first);
      if res.Ok? {
        assert pages == [first];
        FlattenSingle(first);
      }
      assert false;
    }
  }

  /** Conversely, when the limit is reached before the last record of the
      first page, `generate` sends exactly one request and returns a feed. */
  lemma CappedFirstPageFetchesOnce(api: Upstream, opts: GeneratorOptions, res: Result<FeedDoc, FeedError>,
                                   reqs: seq<FetchOptions>, pages: seq<seq<Mod>>, first: seq<Mod>)
    requires Generation(api, opts, res, reqs, pages)
    requires api(RequestFor(opts, 0)) == Ok(first)
    requires !NotCapped(opts, first)
    ensures |reqs| == 1 && res.Ok?
  {
    var passed := if res.Ok? then pages[..|pages| - 1] else pages;
    assert Continued(opts, passed);
    if |passed| >= 1 {
      assert reqs[0] == RequestFor(opts, 0);
      assert api(reqs[0]) == Ok(pages[0]);
      assert passed[0] == first;
      assert passed == [first] + passed[1..];
      FlattenAppend([first], passed[1..]);
      FlattenSingle(first);
      NotCappedPrefix(opts, first, Flatten(passed[1..]));
      assert false;
    }
  }

  /** The early return of `generate` at record `i` of page `data`: the items
      collected so far are the capped selection of everything fetched, and
      the limit was reached before the last record. */
  lemma EarlyStop(opts: GeneratorOptions, seen: seq<Mod>, data: seq<Mod>, i: int)
    requires 0 <= i < |data| && opts.maxItems > 0
    requires |Selected(opts, seen + data[..i])| == opts.maxItems
    ensures Cap(Selected(opts, seen + data), opts.maxItems) == Selected(opts, seen + data[..i])
    ensures !NotCapped(opts, seen + data)
  {
    var done := seen + data[..i];
    assert seen + data == done + data[i..];
    SelectedAppend(opts, done, data[i..]);
    var all := seen + data;
    assert all[..|all| - 1] == done + data[i..|data| - 1];
    SelectedAppend(opts, done, data[i..|data| - 1]);
  }

  /** The cached entry for `key` may be served at time `now`: it exists and is
      no older than `interval`. */
  predicate Fresh(cache: map<CacheKey, CachedFeed>, key: CacheKey, interval: int, now: int)
  {
    key in cache && !(now - cache[key].at > interval)
  }

  /** The rendering step of `GetFeed`: the entry's document in the requested
      format, stamped with the entry's time. A format outside the three known
      ones selects no renderer and yields empty content without an error. */
  function Present(entry: CachedFeed, format: FeedFormat, render: Renderer): (r: Result<Feed, FeedError>)
    ensures r.Ok? ==> r.value.syncedAt == entry.at && r.value.format == format
    ensures r.Err? <==> FormatIsValid(format) && render(entry.feed, format).Err?
    ensures r.Err? ==> r.error == RenderFailed(render(entry.feed, format).error)
    ensures r.Ok? && FormatIsValid(format) ==> r.value.content == render(entry.feed, format).value
    ensures !FormatIsValid(format) ==> r == Ok(Feed("", format, entry.at))
  {
    var data :=
      if format == FormatRSS || format == FormatAtom || format == FormatJSON then render(entry.feed, format)
      else Ok("");
    match data
    case Err(e) => Err(RenderFailed(e))
    case Ok(text) => Ok(Feed(text, format, entry.at))
  }

  /** `generator`: the upstream, the defaults, and the cache of generated
      feeds by key. `bound` is a ghost bound on the upstream's size. */
  /** The fetcher the service is built with (`generator.api`) answers
      differently over time, so it is not a field here: each `GetFeed`
      receives the upstream as it answers during that call. */
  class Generator {
    const defaults: GeneratorOptions
    var cachedData: map<CacheKey, CachedFeed>

    /** Every cached feed respects the item limit of its key. */
    ghost predicate Valid()
      reads this
    {
      forall key :: key in cachedData && key.maxItems > 0 ==> |cachedData[key].feed.items| <= key.maxItems
    }

    /** `NewGenerator`: an empty cache. */
    constructor (defaults: GeneratorOptions)
      ensures Valid()
      ensures this.defaults == defaults
      ensures cachedData == map[]
    {
      this.defaults := defaults;
      cachedData := map[];
    }

    /** `GetFeed`. The overrides are merged into the defaults and the merged
        options are keyed. A fresh entry under that key is served as it is.
        Otherwise a feed is generated (`regenerated`, with outcome `outcome`
        from requests `reqs` and pages `pages`): on an upstream error the
        error is returned and the cache is untouched; on success the entry
        for that key, and only it, is replaced by the new document stamped
        `doneAt`, and is served. Serving renders the entry in the merged
        format; a render failure is returned as an error but the new entry
        stays stored. `now` is the clock at the freshness check; `api` is
        the upstream as it answers during this call, and `bound` a ghost
        bound on its size when the item limit alone does not stop paging. */
    method GetFeed(api: Upstream, ghost bound: nat, overrides: GeneratorOptions, now: int, doneAt: int,
                   render: Renderer)
      returns (r: Result<Feed, FeedError>, ghost regenerated: bool, ghost outcome: Result<FeedDoc, FeedError>,
               ghost reqs: seq<FetchOptions>, ghost pages: seq<seq<Mod>>)
      requires Valid()
      requires UpstreamFinite(api, bound) || LimitStops(defaults.Merge(overrides))
      modifies this
      ensures Valid()
      ensures var opts := defaults.Merge(overrides);
              regenerated == !Fresh(old(cachedData), KeyOf(opts), opts.fetchInterval, now)
      ensures var opts := defaults.Merge(overrides);
              !regenerated ==>
                && cachedData == old(cachedData)
                && r == Present(cachedData[KeyOf(opts)], opts.format, render)
      ensures regenerated ==> Generation(api, defaults.Merge(overrides), outcome, reqs, pages)
      ensures regenerated && outcome.Err? ==> cachedData == old(cachedData) && r == Err(outcome.error)
      ensures var opts := defaults.Merge(overrides);
              regenerated && outcome.Ok? ==>
                && cachedData == old(cachedData)[KeyOf(opts) := CachedFeed(outcome.value, doneAt)]
                && r == Present(cachedData[KeyOf(opts)], opts.format, render)
    {
      var opts := defaults.Merge(overrides);
      var key := CacheKey(opts.maxItems, opts.GetSort(), Join(opts.tags), opts.platform);
      assert key == KeyOf(opts);
      regenerated, outcome, reqs, pages := false, Err(FetchFailed("")), [], [];
      var current: CachedFeed;
      if key !in cachedData || now - cachedData[key].at > opts.fetchInterval {
        regenerated := true;
        var feed;
        feed, reqs, pages := Generate(api, opts, bound);
        outcome := feed;
        if feed.Err? {
          return Err(feed.error), regenerated, outcome, reqs, pages;
        }
        cachedData := cachedData[key := CachedFeed(feed.value, doneAt)];
        current := cachedData[key];
      } else {
        current := cachedData[key];
      }
      r := Present(current, opts.format, render);
    }
  }

  /** Options differing only in fetch interval and format share a cache entry. */
  lemma KeyIgnoresIntervalAndFormat(opts: GeneratorOptions, interval: int, format: FeedFormat)
    ensures KeyOf(opts.(fetchInterval := interval, format := format)) == KeyOf(opts)
  {
  }

  /** Equal keys mean equal item limit, resolved sort, joined tags and
      platform, and nothing else is compared. */
  lemma KeyDeterminedBy(a: GeneratorOptions, b: GeneratorOptions)
    ensures KeyOf(a) == KeyOf(b) <==>
      && a.maxItems == b.maxItems && a.GetSort() == b.GetSort()
      && Join(a.tags) == Join(b.tags) && a.platform == b.platform
  {
  }

  /** Two requests whose overrides differ only in fetch interval and format
      hit the same cache entry. */
  lemma OverridesShareEntry(defaults: GeneratorOptions, o: GeneratorOptions, interval: int, format: FeedFormat)
    ensures KeyOf(defaults.Merge(o.(fetchInterval := interval, format := format))) == KeyOf(defaults.Merge(o))
  {
  }

  /** The tags part of the key of a request is its raw `tags` query
      parameter whenever that is non-empty. */
  lemma {:induction false} KeyTagsAreQueryTags(defaults: GeneratorOptions, q: Values,
                                               atoi: string -> Option<int>, parseDuration: string -> Option<int>)
    requires Get(q, "tags") != ""
    ensures KeyOf(defaults.Merge(OptionsFromQuery(q, atoi, parseDuration))).tags == Get(q, "tags")
  {
    var o := OptionsFromQuery(q, atoi, parseDuration);
    assert |o.tags| > 0;
  }

  /** An entry stored at `doneAt` is served without regeneration exactly
      while no more than the interval has passed. */
  lemma FreshAfterStore(cache: map<CacheKey, CachedFeed>, key: CacheKey, doc: FeedDoc,
                        doneAt: int, interval: int, now: int)
    ensures Fresh(cache[key := CachedFeed(doc, doneAt)], key, interval, now) <==> now - doneAt <= interval
  {
  }

  /** An entry that is stale at `now` stays stale later: after a failed
      regeneration, which leaves the cache as it was, the next request
      regenerates again rather than serving an error or an old entry. */
  lemma StaleStaysStale(cache: map<CacheKey, CachedFeed>, key: CacheKey, interval: int, now: int, later: int)
    requires !Fresh(cache, key, interval, now) && now <= later
    ensures !Fresh(cache, key, interval, later)
  {
  }

  /** A generated feed never holds more than `maxItems` items when that is
      positive, and all of them when there are fewer selected records. */
  lemma GenerationBounded(api: Upstream, opts: GeneratorOptions, doc: FeedDoc,
                          reqs: seq<FetchOptions>, pages: seq<seq<Mod>>)
    requires Generation(api, opts, Ok(doc), reqs, pages)
    ensures opts.maxItems > 0 ==> |doc.items| <= opts.maxItems
    ensures opts.maxItems > 0 && |Selected(opts, Flatten(pages))| >= opts.maxItems ==> |doc.items| == opts.maxItems
    ensures forall i :: 0 <= i < |doc.items| ==> doc.items[i] == Selected(opts, Flatten(pages))[i]
  {
  }
}
