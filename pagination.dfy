/** The page-accumulating state machine shared by src/hooks/usePaginatedFetch.ts
    and src/components/PaginatedList.tsx, as pure transitions on a state
    value.  A fetch is split into its start (the synchronous part before the
    `await`) and its completion (what runs when the response arrives); the
    response is an argument.  Requests still in flight are kept in order of
    issue, so that a completion can name the request it answers. */
module Pagination {
  import opened Wrappers
  import opened Numbers
  import opened Http

  /** What distinguishes the two copies: the base URL, the page size and, for
      the list of posts, the known total that bounds `hasMore`. */
  datatype Config = Config(baseUrl: string, limit: nat, cap: Option<nat>)

  /** A page request that has been issued and not yet answered. */
  datatype Request = Request(url: string, page: int, reset: bool)

  /** The five state cells, and the requests in flight. */
  datatype PageState<T> = PageState(
    items: seq<T>,
    page: int,
    hasMore: bool,
    loading: bool,
    error: Option<string>,
    inFlight: seq<Request>)

  /** `${baseUrl}?_page=${pageNum}&_limit=${limit}`. */
  function PageUrl(cfg: Config, pageNum: int): (r: string)
    ensures |r| > |cfg.baseUrl| && r[..|cfg.baseUrl|] == cfg.baseUrl
  {
    cfg.baseUrl + "?_page=" + IntToString(pageNum) + "&_limit=" + IntToString(cfg.limit)
  }

  /** The request URL names its page and its page size: after the base URL
      and `?_page=` comes the page number's numeral, which `Number` reads
      back as `pageNum`; after `&_limit=` comes the page size's numeral,
      read back as `cfg.limit`. */
  lemma PageUrlNamesPage(cfg: Config, pageNum: int)
    ensures var r := PageUrl(cfg, pageNum);
            var a := |cfg.baseUrl| + |"?_page="|;
            var b := a + |IntToString(pageNum)|;
            b + |"&_limit="| < |r| &&
            r[..a] == cfg.baseUrl + "?_page=" &&
            ParseInt(r[a..b]) == Some(pageNum) &&
            r[b..b + |"&_limit="|] == "&_limit=" &&
            ParseInt(r[b + |"&_limit="|..]) == Some(cfg.limit)
  {
    var p, l := IntToString(pageNum), IntToString(cfg.limit);
    var r := PageUrl(cfg, pageNum);
    var a := |cfg.baseUrl| + |"?_page="|;
    var b := a + |p|;
    assert r == (cfg.baseUrl + "?_page=") + p + "&_limit=" + l;
    assert r[a..b] == p;
    assert r[b + |"&_limit="|..] == l;
    ParseIntOfIntToString(pageNum);
    ParseIntOfIntToString(cfg.limit);
  }

  /** The part of `fetchPage` before the `await`: `loading` on, `error`
      cleared, the request issued. */
  function StartFetch<T>(s: PageState<T>, cfg: Config, pageNum: int, reset: bool): (r: PageState<T>)
    ensures r.loading && r.error.None?
    ensures r.inFlight == s.inFlight + [Request(PageUrl(cfg, pageNum), pageNum, reset)]
    ensures r.items == s.items && r.page == s.page && r.hasMore == s.hasMore
  {
    s.(loading := true, error := None, inFlight := s.inFlight + [Request(PageUrl(cfg, pageNum), pageNum, reset)])
  }

  /** The end-of-data test after a page of `count` items for page `pageNum`. */
  predicate HasMoreAfter(cfg: Config, pageNum: int, count: nat)
    ensures count != cfg.limit ==> !HasMoreAfter(cfg, pageNum, count)
    ensures cfg.cap.Some? && pageNum * cfg.limit >= cfg.cap.value ==> !HasMoreAfter(cfg, pageNum, count)
    ensures cfg.cap.None? ==> (HasMoreAfter(cfg, pageNum, count) <==> count == cfg.limit)
  {
    count == cfg.limit && (cfg.cap.None? || pageNum * cfg.limit < cfg.cap.value)
  }

  function Remove(rs: seq<Request>, k: nat): (r: seq<Request>)
    requires k < |rs|
    ensures |r| == |rs| - 1
  {
    rs[..k] + rs[k + 1..]
  }

  /** The part of `fetchPage` after the `await`, for the `k`-th request in
      flight: on success the page replaces (reset) or extends the items and
      `hasMore` is recomputed; on failure only `error` is set; either way
      `loading` ends false. */
  function Complete<T>(s: PageState<T>, cfg: Config, k: nat, resp: Response<seq<T>>): (r: PageState<T>)
    requires k < |s.inFlight|
    ensures !r.loading
    ensures r.page == s.page
    ensures r.inFlight == Remove(s.inFlight, k)
    ensures Outcome(resp).Ok? ==>
              r.error == s.error &&
              r.items == (if s.inFlight[k].reset then [] else s.items) + Outcome(resp).value &&
              r.hasMore == HasMoreAfter(cfg, s.inFlight[k].page, |Outcome(resp).value|)
    ensures Outcome(resp).Err? ==>
              r.error == Some(Outcome(resp).error) && r.items == s.items && r.hasMore == s.hasMore
  {
    var req := s.inFlight[k];
    var rest := Remove(s.inFlight, k);
    match Outcome(resp)
    case Ok(newItems) =>
      var items := if req.reset then newItems else s.items + newItems;
      assert req.reset ==> items == [] + newItems;
      s.(items := items, hasMore := HasMoreAfter(cfg, req.page, |newItems|), loading := false, inFlight := rest)
    case Err(message) =>
      s.(error := Some(message), loading := false, inFlight := rest)
  }

  /** `loadMore`: nothing while loading or at the end; otherwise the page
      counter goes up by one and that page is requested for appending. */
  function LoadMore<T>(s: PageState<T>, cfg: Config): (r: PageState<T>)
    ensures s.loading || !s.hasMore ==> r == s
    ensures !s.loading && s.hasMore ==>
              r.page == s.page + 1 && r.items == s.items && r.hasMore && r.loading && r.error.None? &&
              r.inFlight == s.inFlight + [Request(PageUrl(cfg, s.page + 1), s.page + 1, false)]
  {
    if !s.loading && s.hasMore then
      var nextPage := s.page + 1;
      StartFetch(s.(page := nextPage), cfg, nextPage, false)
    else s
  }

  /** `retry`: back to page 1 with no items and `hasMore` on, then page 1 is
      requested as a reset fetch.  It is not guarded by `loading`. */
  function Retry<T>(s: PageState<T>, cfg: Config): (r: PageState<T>)
    ensures r.page == 1 && r.items == [] && r.hasMore && r.loading && r.error.None?
    ensures r.inFlight == s.inFlight + [Request(PageUrl(cfg, 1), 1, true)]
  {
    StartFetch(s.(page := 1, items := [], hasMore := true), cfg, 1, true)
  }

  /** The state at mount, with the initial reset fetch of page 1 issued. */
  function Initial<T>(cfg: Config): (r: PageState<T>)
    ensures r.page == 1 && r.items == [] && r.hasMore && r.loading && r.error.None?
    ensures r.inFlight == [Request(PageUrl(cfg, 1), 1, true)]
  {
    StartFetch(PageState([], 1, true, false, None, []), cfg, 1, true)
  }

  /** A failed page keeps the page counter's increment: the next `loadMore`
      asks for the page after the one that failed. */
  lemma FailedPageKeepsIncrement<T>(s: PageState<T>, cfg: Config, resp: Response<seq<T>>)
    requires !s.loading && s.hasMore && s.inFlight == []
    requires Outcome(resp).Err?
    ensures Complete(LoadMore(s, cfg), cfg, 0, resp).page == s.page + 1
    ensures Complete(LoadMore(s, cfg), cfg, 0, resp).items == s.items
    ensures LoadMore(Complete(LoadMore(s, cfg), cfg, 0, resp), cfg).inFlight ==
              [Request(PageUrl(cfg, s.page + 2), s.page + 2, false)]
  {
    var t := LoadMore(s, cfg);
    assert Remove(t.inFlight, 0) == [];
  }

  /** Items only grow, in arrival order, except on a reset. */
  lemma ItemsOnlyGrow<T>(s: PageState<T>, cfg: Config, k: nat, resp: Response<seq<T>>)
    requires k < |s.inFlight| && !s.inFlight[k].reset
    ensures s.items <= Complete(s, cfg, k, resp).items
  {
  }

  /** With a known total, `hasMore` is off after any page that reaches it,
      whatever the page held. */
  lemma CapEndsPaging<T>(s: PageState<T>, cfg: Config, k: nat, resp: Response<seq<T>>)
    requires k < |s.inFlight| && cfg.cap.Some?
    requires s.inFlight[k].page * cfg.limit >= cfg.cap.value
    requires Outcome(resp).Ok?
    ensures !Complete(s, cfg, k, resp).hasMore
  {
  }

  /** At most one page fetch outstanding, and `loading` exactly while it is. */
  predicate SingleFlight<T>(s: PageState<T>) {
    |s.inFlight| <= 1 && (s.loading <==> |s.inFlight| == 1)
  }

  /** The loading guard keeps page fetches single-flight: `loadMore` and a
      completion preserve it, and so does `retry` when nothing is loading. */
  lemma SingleFlightPreserved<T>(s: PageState<T>, cfg: Config, resp: Response<seq<T>>)
    requires SingleFlight(s)
    ensures SingleFlight(LoadMore(s, cfg))
    ensures |s.inFlight| == 1 ==> SingleFlight(Complete(s, cfg, 0, resp))
    ensures !s.loading ==> SingleFlight(Retry(s, cfg))
  {
  }

  /** `retry` while a page is loading breaks single flight: two fetches are
      then outstanding, and the first to complete turns `loading` off while
      the other is still pending. */
  lemma RetryWhileLoading<T>(s: PageState<T>, cfg: Config, resp: Response<seq<T>>)
    requires SingleFlight(s) && s.loading
    ensures |Retry(s, cfg).inFlight| == 2
    ensures !Complete(Retry(s, cfg), cfg, 0, resp).loading
    ensures |Complete(Retry(s, cfg), cfg, 0, resp).inFlight| == 1
  {
  }

  // A server holding posts 1..total, answering `_page`/`_limit` requests.

  /** The ids `lo + 1`, ..., `hi`. */
  function Ids(lo: nat, hi: nat): (r: seq<nat>)
    requires lo <= hi
    ensures |r| == hi - lo
    ensures forall i :: 0 <= i < |r| ==> r[i] == lo + i + 1
  {
    seq(hi - lo, i requires 0 <= i < hi - lo => lo + i + 1)
  }

  /** The page `page` of `limit` items out of `total`. */
  function ServePage(total: nat, page: nat, limit: nat): (r: seq<nat>)
    requires page >= 1
  {
    var lo := Min((page - 1) * limit, total);
    var hi := Min(page * limit, total);
    Ids(lo, if lo <= hi then hi else lo)
  }

  /** The successful response carrying page `page`. */
  function Serve(total: nat, page: nat, limit: nat): Response<seq<nat>>
    requires page >= 1
  {
    Received(200, Json(ServePage(total, page, limit)))
  }

  /** One press of "load more" answered by the server. */
  function Round(s: PageState<nat>, cfg: Config, total: nat): PageState<nat>
    requires !s.loading && s.hasMore && s.inFlight == [] && s.page >= 0
  {
    Complete(LoadMore(s, cfg), cfg, 0, Serve(total, s.page + 1, cfg.limit))
  }

  /** The posts configuration's state after `n` pages have been loaded from
      a server holding 100 posts. */
  function Loaded(n: nat): PageState<nat>
    requires n <= 10
  {
    PageState(Ids(0, 10 * n), n, n < 10, false, None, [])
  }

  lemma IdsAppend(a: nat, b: nat, c: nat)
    requires a <= b <= c
    ensures Ids(a, b) + Ids(b, c) == Ids(a, c)
  {
  }

  /** Each round on the posts configuration extends the items by the next ten
      posts, and `hasMore` turns off after the tenth page. */
  lemma RoundStep(cfg: Config, n: nat)
    requires cfg.limit == 10 && cfg.cap == Some(100)
    requires 1 <= n < 10
    ensures Round(Loaded(n), cfg, 100) == Loaded(n + 1)
  {
    var page := ServePage(100, n + 1, 10);
    assert page == Ids(10 * n, 10 * n + 10);
    IdsAppend(0, 10 * n, 10 * n + 10);
    var t := LoadMore(Loaded(n), cfg);
    assert Remove(t.inFlight, 0) == [];
  }

  /** The initial load answered by the server gives the first ten posts. */
  lemma FirstPage(cfg: Config)
    requires cfg.limit == 10 && cfg.cap == Some(100)
    ensures Complete(Initial(cfg), cfg, 0, Serve(100, 1, 10)) == Loaded(1)
  {
    assert Remove(Initial<nat>(cfg).inFlight, 0) == [];
  }

  /** `k` presses of "load more", each answered by the server, stopping
      early once "load more" would do nothing.  The `s.page < 0` test only
      discharges `Round`'s precondition (the server is asked for page
      `s.page + 1`, which must be at least 1); no reachable state has it. */
  function Rounds(s: PageState<nat>, cfg: Config, total: nat, k: nat): PageState<nat>
    decreases k
  {
    if k == 0 || s.loading || !s.hasMore || s.inFlight != [] || s.page < 0 then s
    else Rounds(Round(s, cfg, total), cfg, total, k - 1)
  }

  lemma {:induction false} RoundsFromLoaded(cfg: Config, n: nat, k: nat)
    requires cfg.limit == 10 && cfg.cap == Some(100)
    requires 1 <= n && n + k <= 10
    ensures Rounds(Loaded(n), cfg, 100, k) == Loaded(n + k)
    decreases k
  {
    if k > 0 {
      RoundStep(cfg, n);
      RoundsFromLoaded(cfg, n + 1, k - 1);
    }
  }

  /** With ten posts a page and 100 posts in all, the initial load and nine
      presses of "load more" give all 100 posts in order with `hasMore` off,
      after which "load more" does nothing. */
  lemma HundredPosts(cfg: Config)
    requires cfg.limit == 10 && cfg.cap == Some(100)
    ensures Rounds(Complete(Initial(cfg), cfg, 0, Serve(100, 1, 10)), cfg, 100, 9).items == Ids(0, 100)
    ensures !Rounds(Complete(Initial(cfg), cfg, 0, Serve(100, 1, 10)), cfg, 100, 9).hasMore
    ensures LoadMore(Loaded(10), cfg) == Loaded(10)
  {
    FirstPage(cfg);
    RoundsFromLoaded(cfg, 1, 9);
  }

  /** Without a known total, a full tenth page leaves `hasMore` on, and only
      the empty eleventh page turns it off, leaving the items as they were. */
  lemma UncappedNeedsEmptyPage(cfg: Config)
    requires cfg.limit == 10 && cfg.cap.None?
    ensures Round(Loaded(9), cfg, 100).hasMore
    ensures Round(Loaded(9), cfg, 100).items == Ids(0, 100)
    ensures var s := Round(Loaded(9), cfg, 100);
            !Round(s, cfg, 100).hasMore && Round(s, cfg, 100).items == Ids(0, 100)
  {
    var page := ServePage(100, 10, 10);
    assert page == Ids(90, 100);
    IdsAppend(0, 90, 100);
    var t := LoadMore(Loaded(9), cfg);
    assert Remove(t.inFlight, 0) == [];
    var s := Round(Loaded(9), cfg, 100);
    assert ServePage(100, 11, 10) == [];
    var u := LoadMore(s, cfg);
    assert Remove(u.inFlight, 0) == [];
    assert Ids(0, 100) + [] == Ids(0, 100);
  }
}
