/** The `PaginatedList` component of src/components/PaginatedList.tsx: the
    same state machine as `usePaginatedFetch`, written out again over posts,
    with a fixed page size of 10 and the known total of 100 posts bounding
    `hasMore`. */
module PaginatedList {
  import opened Wrappers
  import opened Types
  import opened Http
  import opened Numbers
  import P = Pagination

  const PostsUrl: string := "https://jsonplaceholder.typicode.com/posts"
  const PageSize: nat := 10
  const TotalPosts: nat := 100

  const PostsConfig: P.Config := P.Config(PostsUrl, PageSize, Some(TotalPosts))

  /** After a successful page, `hasMore` is on exactly when the page was full
      and it ended before the 100th post; from page 10 on it is off. */
  lemma HasMoreRule(s: P.PageState<Post>, k: nat, resp: Response<seq<Post>>)
    requires k < |s.inFlight| && Outcome(resp).Ok?
    ensures P.Complete(s, PostsConfig, k, resp).hasMore <==>
              |Outcome(resp).value| == 10 && s.inFlight[k].page * 10 < 100
    ensures s.inFlight[k].page >= 10 ==> !P.Complete(s, PostsConfig, k, resp).hasMore
  {
  }

  /** The second page of posts is requested with the URL written out at
      src/components/PaginatedList.tsx:25. */
  lemma PostsPageUrl()
    ensures P.PageUrl(PostsConfig, 2) == "https://jsonplaceholder.typicode.com/posts?_page=2&_limit=10"
  {
    assert NatToString(10) == NatToString(1) + [DigitChar(0)];
  }

  class PaginatedList {
    var items: seq<Post>
    var loading: bool
    var error: Option<string>
    var page: int
    var hasMore: bool
    var inFlight: seq<P.Request>

    function State(): P.PageState<Post>
      reads this
    {
      P.PageState(items, page, hasMore, loading, error, inFlight)
    }

    /** Mounting: the initial values, then the effect's reset fetch of page 1. */
    constructor ()
      ensures State() == P.Initial(PostsConfig)
    {
      items := [];
      loading := false;
      error := None;
      page := 1;
      hasMore := true;
      inFlight := [];
      new;
      FetchPage(1, true);
    }

    /** `fetchPage` up to its `await`. */
    method FetchPage(pageNum: int, reset: bool)
      modifies this
      ensures State() == P.StartFetch(old(State()), PostsConfig, pageNum, reset)
    {
      loading := true;
      error := None;
      inFlight := inFlight + [P.Request(P.PageUrl(PostsConfig, pageNum), pageNum, reset)];
    }

    /** `fetchPage` after its `await`, answering the `k`-th request in flight. */
    method Complete(k: nat, resp: Response<seq<Post>>)
      requires k < |inFlight|
      modifies this
      ensures State() == P.Complete(old(State()), PostsConfig, k, resp)
    {
      var req := inFlight[k];
      inFlight := P.Remove(inFlight, k);
      match Outcome(resp) {
        case Ok(newItems) =>
          if req.reset {
            items := newItems;
          } else {
            items := items + newItems;
          }
          hasMore := |newItems| == PageSize && req.page * PageSize < TotalPosts;
        case Err(message) =>
          error := Some(message);
      }
      loading := false;
    }

    /** `loadMore`. */
    method LoadMore()
      modifies this
      ensures State() == P.LoadMore(old(State()), PostsConfig)
    {
      if !loading && hasMore {
        var nextPage := page + 1;
        page := nextPage;
        FetchPage(nextPage, false);
      }
    }

    /** `retry`. */
    method Retry()
      modifies this
      ensures State() == P.Retry(old(State()), PostsConfig)
    {
      page := 1;
      items := [];
      hasMore := true;
      FetchPage(1, true);
    }
  }
}
