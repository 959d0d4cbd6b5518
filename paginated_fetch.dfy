/** The `usePaginatedFetch` hook of src/hooks/usePaginatedFetch.ts: its state
    cells as fields, its callbacks as methods.  Each method is specified by
    the transition of the same name in module Pagination. */
module PaginatedFetch {
  import opened Wrappers
  import opened Http
  import P = Pagination

  class PaginatedFetch<T> {
    const cfg: P.Config
    var data: seq<T>
    var loading: bool
    var error: Option<string>
    var page: int
    var hasMore: bool
    var inFlight: seq<P.Request>

    function State(): P.PageState<T>
      reads this
    {
      P.PageState(data, page, hasMore, loading, error, inFlight)
    }

    /** The hook's first render: the state cells' initial values, then the
        initial reset fetch of page 1. */
    constructor (baseUrl: string, itemsPerPage: nat := 10)
      ensures cfg == P.Config(baseUrl, itemsPerPage, None)
      ensures State() == P.Initial(cfg)
    {
      cfg := P.Config(baseUrl, itemsPerPage, None);
      data := [];
      loading := false;
      error := None;
      page := 1;
      hasMore := true;
      inFlight := [];
      new;
      FetchPage(1, true);
    }

    /** `fetchPage` up to its `await`. */
    method FetchPage(pageNum: int, reset: bool)
      modifies this
      ensures State() == P.StartFetch(old(State()), cfg, pageNum, reset)
    {
      loading := true;
      error := None;
      inFlight := inFlight + [P.Request(P.PageUrl(cfg, pageNum), pageNum, reset)];
    }

    /** `fetchPage` after its `await`, answering the `k`-th request in flight. */
    method Complete(k: nat, resp: Response<seq<T>>)
      requires k < |inFlight|
      modifies this
      ensures State() == P.Complete(old(State()), cfg, k, resp)
    {
      var req := inFlight[k];
      inFlight := P.Remove(inFlight, k);
      match Outcome(resp) {
        case Ok(newItems) =>
          if req.reset {
            data := newItems;
          } else {
            data := data + newItems;
          }
          hasMore := P.HasMoreAfter(cfg, req.page, |newItems|);
        case Err(message) =>
          error := Some(message);
      }
      loading := false;
    }

    /** `loadMore`. */
    method LoadMore()
      modifies this
      ensures State() == P.LoadMore(old(State()), cfg)
    {
      if !loading && hasMore {
        var nextPage := page + 1;
        page := nextPage;
        FetchPage(nextPage, false);
      }
    }

    /** `retry`. */
    method Retry()
      modifies this
      ensures State() == P.Retry(old(State()), cfg)
    {
      page := 1;
      data := [];
      hasMore := true;
      FetchPage(1, true);
    }
  }
}
