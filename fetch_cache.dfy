/** The memoising `useFetch` hook of src/hooks/useFetch.ts.  The module-wide
    `cache` map is an object shared by every caller; each caller holds its
    own `data`, `error` and `loading`.  The network is outside the model: a
    request is recorded when it is issued, and its response is an argument
    to the completion step. */
module FetchCache {
  import opened Wrappers
  import opened Http

  /** One caller's state, with the number of its requests still in flight and
      the log of the URLs it requested from the network. */
  datatype FetchState<T> = FetchState(
    data: Option<T>,
    error: Option<string>,
    loading: bool,
    inFlight: nat,
    requests: seq<string>)

  /** A caller's state together with the shared cache. */
  datatype World<T> = World(state: FetchState<T>, cache: map<string, T>)

  /** `fetchData` up to its `await`: nothing for an empty URL; a cached
      value is served at once without a request; otherwise `loading` is
      turned on, `error` cleared and the request issued. */
  function FetchStep<T>(w: World<T>, url: string): (r: World<T>)
    ensures r.cache == w.cache
    ensures url == "" ==> r == w
    ensures url != "" && url in w.cache ==>
              r.state == w.state.(data := Some(w.cache[url]), error := None, loading := false)
    ensures url != "" && url !in w.cache ==>
              r.state == w.state.(loading := true, error := None, inFlight := w.state.inFlight + 1,
                                  requests := w.state.requests + [url])
  {
    if url == "" then w
    else if url in w.cache then
      World(w.state.(data := Some(w.cache[url]), error := None, loading := false), w.cache)
    else
      World(w.state.(loading := true, error := None, inFlight := w.state.inFlight + 1,
                     requests := w.state.requests + [url]), w.cache)
  }

  /** `fetchData` after its `await`: a success is cached under `url` and
      becomes `data`; a failure sets `error`, clears `data` and caches
      nothing; `loading` ends false either way. */
  function CompleteStep<T>(w: World<T>, url: string, resp: Response<T>): (r: World<T>)
    requires w.state.inFlight > 0
    ensures !r.state.loading
    ensures r.state.inFlight == w.state.inFlight - 1 && r.state.requests == w.state.requests
    ensures Outcome(resp).Ok? ==>
              r.cache == w.cache[url := Outcome(resp).value] &&
              r.state.data == Some(Outcome(resp).value) && r.state.error == w.state.error
    ensures Outcome(resp).Err? ==>
              r.cache == w.cache && r.state.data.None? && r.state.error == Some(Outcome(resp).error)
  {
    var s := w.state.(inFlight := w.state.inFlight - 1);
    match Outcome(resp)
    case Ok(result) =>
      World(s.(data := Some(result), loading := false), w.cache[url := result])
    case Err(message) =>
      World(s.(error := Some(message), data := None, loading := false), w.cache)
  }

  /** `retry`: the entry for `url` is evicted, then `fetchData` runs again. */
  function RetryStep<T>(w: World<T>, url: string): (r: World<T>)
    ensures r.cache == w.cache - {url}
    ensures url == "" ==> r.state == w.state
    ensures url != "" ==>
              r.state == w.state.(loading := true, error := None, inFlight := w.state.inFlight + 1,
                                  requests := w.state.requests + [url])
  {
    FetchStep(w.(cache := w.cache - {url}), url)
  }

  /** A successful fetch makes the next fetch of the same URL, by this caller
      or any other, a cache hit: it yields the fetched value with no error,
      not loading, and without a request. */
  lemma SecondFetchIsHit<T>(w: World<T>, url: string, resp: Response<T>, other: FetchState<T>)
    requires w.state.inFlight > 0 && url != "" && Outcome(resp).Ok?
    ensures var c := CompleteStep(w, url, resp).cache;
            var r := FetchStep(World(other, c), url);
            r.state.data == Some(Outcome(resp).value) && r.state.error.None? && !r.state.loading &&
            r.state.requests == other.requests && r.cache == c
  {
  }

  /** `retry` always goes to the network, cached or not, and its result
      replaces the cached value. */
  lemma RetryRefetches<T>(w: World<T>, url: string, resp: Response<T>)
    requires url != ""
    ensures RetryStep(w, url).state.requests == w.state.requests + [url]
    ensures RetryStep(w, url).state.loading
    ensures Outcome(resp).Ok? ==>
              var c := CompleteStep(RetryStep(w, url), url, resp).cache;
              url in c && c[url] == Outcome(resp).value
  {
  }

  /** Completions only ever write the entry of their own URL. */
  lemma OtherEntriesUnchanged<T>(w: World<T>, url: string, resp: Response<T>, u: string)
    requires w.state.inFlight > 0 && u != url
    ensures u in CompleteStep(w, url, resp).cache <==> u in w.cache
    ensures u in w.cache ==> CompleteStep(w, url, resp).cache[u] == w.cache[u]
  {
  }

  /** For a URL that is not cached, a fetch started with nothing in flight
      ends, once answered, not loading and with exactly one of `data` and
      `error` set, after exactly one request; a non-ok status gives the
      status message. */
  lemma FirstFetchSettles<T>(w: World<T>, url: string, resp: Response<T>)
    requires url != "" && url !in w.cache && w.state.inFlight == 0
    ensures var r := CompleteStep(FetchStep(w, url), url, resp);
            !r.state.loading && r.state.inFlight == 0 &&
            (r.state.data.Some? <==> r.state.error.None?) &&
            r.state.requests == w.state.requests + [url]
    ensures resp.Received? && !IsOk(resp.status) ==>
              CompleteStep(FetchStep(w, url), url, resp).state.error == Some(StatusError(resp.status))
  {
  }

  /** The shared cache table. */
  class Cache<T> {
    var entries: map<string, T>

    constructor ()
      ensures entries == map[]
    {
      entries := map[];
    }
  }

  /** One caller of `useFetch` for a fixed URL. */
  class UseFetch<T> {
    const url: string
    const cache: Cache<T>
    var data: Option<T>
    var error: Option<string>
    var loading: bool
    var inFlight: nat
    var requests: seq<string>

    function View(): World<T>
      reads this, cache
    {
      World(FetchState(data, error, loading, inFlight, requests), cache.entries)
    }

    /** The hook's first render: the state cells' initial values, then the
        mount effect's `fetchData`. */
    constructor (url: string, cache: Cache<T>)
      ensures this.url == url && this.cache == cache
      ensures View() == FetchStep(World(FetchState(None, None, false, 0, []), cache.entries), url)
    {
      this.url := url;
      this.cache := cache;
      data := None;
      error := None;
      loading := false;
      inFlight := 0;
      requests := [];
      new;
      FetchData();
    }

    /** `fetchData` up to its `await`. */
    method FetchData()
      modifies this
      ensures View() == FetchStep(old(View()), url)
    {
      if url == "" {
        return;
      }
      if url in cache.entries {
        data := Some(cache.entries[url]);
        error := None;
        loading := false;
        return;
      }
      loading := true;
      error := None;
      inFlight := inFlight + 1;
      requests := requests + [url];
    }

    /** `fetchData` after its `await`. */
    method Complete(resp: Response<T>)
      requires inFlight > 0
      modifies this, cache
      ensures View() == CompleteStep(old(View()), url, resp)
    {
      inFlight := inFlight - 1;
      match Outcome(resp) {
        case Ok(result) =>
          cache.entries := cache.entries[url := result];
          data := Some(result);
        case Err(message) =>
          error := Some(message);
          data := None;
      }
      loading := false;
    }

    /** `retry`. */
    method Retry()
      modifies this, cache
      ensures View() == RetryStep(old(View()), url)
    {
      cache.entries := cache.entries - {url};
      FetchData();
    }
  }
}
