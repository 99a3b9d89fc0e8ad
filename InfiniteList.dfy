/** The directory's data hooks. `useInfinitePartners` keeps the accumulated
    partner list, the page number, the loading flag, whether more pages exist and
    the total count; a change of search inputs resets it to page 1, and
    `loadMore` fetches the next page and appends it. `useCompanies` loads the
    whole list once for the statistics.

    The page fetcher (`getPaginatedPartners`) is not modelled: each fetch is
    split into the synchronous part that starts it and a `Resolve` step that
    receives its outcome, so the loading flag can be observed while a fetch is
    in flight. As in the source, nothing ties a resolution to the request that
    caused it. */
module InfiniteList {
  import opened Partners

  /** What one successful page fetch returns. */
  datatype PageResult = PageResult(pagePartners: seq<Partner>, hasMore: bool, totalCount: int)

  /** The outcome of one fetch: its result, or a rejection. */
  datatype FetchOutcome = Fetched(result: PageResult) | FetchFailed

  /** One call of the page fetcher: which page, and whether it replaces the list. */
  datatype Request = Request(page: int, reset: bool)

  /** The list after a successful fetch: a reset fetch replaces it, any other appends. */
  function Accumulate(prev: seq<Partner>, pagePartners: seq<Partner>, reset: bool): (r: seq<Partner>)
    ensures reset ==> r == pagePartners
    ensures !reset ==> |r| == |prev| + |pagePartners| && r[..|prev|] == prev && r[|prev|..] == pagePartners
  {
    if reset then pagePartners else prev + pagePartners
  }

  /** Appending pages one after another gives them all, in order. */
  lemma AccumulateAssociates(prev: seq<Partner>, p1: seq<Partner>, p2: seq<Partner>)
    ensures Accumulate(Accumulate(prev, p1, false), p2, false) == prev + p1 + p2
    ensures Accumulate(Accumulate(prev, p1, false), p2, true) == p2
  {
  }

  class InfinitePartners {
    var partners: seq<Partner>
    var page: int
    var loading: bool
    var hasMore: bool
    var totalCount: int
    /** The fetches started so far, in order. */
    ghost var requests: seq<Request>

    /** The page number never drops below 1; a fetch in flight has been
        requested; the newest request is for the current page, and every reset
        request is for page 1; before any request the hook is as mounted. */
    ghost predicate Valid()
      reads this
    {
      && ReadyToRequest()
      && (loading ==> requests != [])
      && (requests != [] ==> requests[|requests| - 1].page == page)
      && (requests == [] ==> page == 1)
    }

    /** The part of `Valid` that still holds after the page has been moved and
        before the fetch for it has been started. */
    ghost predicate ReadyToRequest()
      reads this
    {
      && page >= 1
      && (forall k :: 0 <= k < |requests| && requests[k].reset ==> requests[k].page == 1)
      && (requests == [] ==> partners == [] && !hasMore && totalCount == 0)
    }

    /** The state of a freshly mounted hook, before its first effect runs. */
    constructor ()
      ensures Valid()
      ensures partners == [] && page == 1 && !loading && !hasMore && totalCount == 0
      ensures requests == []
    {
      partners, page, loading, hasMore, totalCount := [], 1, false, false, 0;
      requests := [];
    }

    /** The synchronous start of `fetchPage(pageToLoad, reset)`: the loading flag goes up. */
    method StartFetch(pageToLoad: int, reset: bool)
      requires ReadyToRequest()
      requires pageToLoad == page && (reset ==> pageToLoad == 1)
      modifies this
      ensures Valid()
      ensures loading
      ensures requests == old(requests) + [Request(pageToLoad, reset)]
      ensures partners == old(partners) && page == old(page)
      ensures hasMore == old(hasMore) && totalCount == old(totalCount)
    {
      loading := true;
      requests := requests + [Request(pageToLoad, reset)];
    }

    /** The continuation of `fetchPage` once its fetch settles: a success
        replaces or extends the list and overwrites `hasMore` and `totalCount`;
        a failure changes none of them. Either way the loading flag goes down. */
    method Resolve(reset: bool, outcome: FetchOutcome)
      requires Valid()
      requires exists k :: 0 <= k < |requests| && requests[k].reset == reset
      modifies this
      ensures Valid()
      ensures !loading && page == old(page) && requests == old(requests)
      ensures outcome.Fetched? ==>
        && partners == Accumulate(old(partners), outcome.result.pagePartners, reset)
        && hasMore == outcome.result.hasMore
        && totalCount == outcome.result.totalCount
      ensures outcome.FetchFailed? ==>
        partners == old(partners) && hasMore == old(hasMore) && totalCount == old(totalCount)
    {
      if outcome.Fetched? {
        partners := Accumulate(partners, outcome.result.pagePartners, reset);
        hasMore := outcome.result.hasMore;
        totalCount := outcome.result.totalCount;
      }
      loading := false;
    }

    /** `fetchPage(pageToLoad, reset)` when nothing else happens while it is awaited. */
    method FetchPage(pageToLoad: int, reset: bool, outcome: FetchOutcome)
      requires Valid()
      requires pageToLoad == page && (reset ==> pageToLoad == 1)
      modifies this
      ensures Valid()
      ensures !loading && page == old(page)
      ensures requests == old(requests) + [Request(pageToLoad, reset)]
      ensures outcome.Fetched? ==>
        && partners == Accumulate(old(partners), outcome.result.pagePartners, reset)
        && hasMore == outcome.result.hasMore
        && totalCount == outcome.result.totalCount
      ensures outcome.FetchFailed? ==>
        partners == old(partners) && hasMore == old(hasMore) && totalCount == old(totalCount)
    {
      StartFetch(pageToLoad, reset);
      Resolve(reset, outcome);
    }

    /** The reset effect that runs when the query, the filters or the priority
        list change: the list is emptied, the page goes back to 1, and page 1 is
        requested in reset mode. */
    method InputsChanged()
      requires Valid()
      modifies this
      ensures Valid()
      ensures partners == [] && page == 1 && loading
      ensures hasMore == old(hasMore) && totalCount == old(totalCount)
      ensures requests == old(requests) + [Request(1, true)]
    {
      partners := [];
      page := 1;
      StartFetch(1, true);
    }

    /** `loadMore()`: nothing while a fetch is in flight or when no more pages
        exist; otherwise the page advances by one before the next page is
        requested in append mode, so it stays advanced if that fetch fails. */
    method LoadMore() returns (started: bool)
      requires Valid()
      modifies this
      ensures Valid()
      ensures started <==> !old(loading) && old(hasMore)
      ensures !started ==>
        && partners == old(partners) && page == old(page) && loading == old(loading)
        && hasMore == old(hasMore) && totalCount == old(totalCount) && requests == old(requests)
      ensures started ==>
        && page == old(page) + 1 && loading
        && partners == old(partners) && hasMore == old(hasMore) && totalCount == old(totalCount)
        && requests == old(requests) + [Request(old(page) + 1, false)]
    {
      if loading || !hasMore {
        return false;
      }
      var next := page + 1;
      page := next;
      StartFetch(next, false);
      return true;
    }
  }

  /** Two pages loaded after a reset hold both pages in order; a later change
      of the inputs (resolved) leaves exactly the new first page. */
  method ResetAfterTwoPages(p1: PageResult, p2: PageResult, q1: PageResult)
    returns (hook: InfinitePartners)
    requires p1.hasMore
    ensures hook.partners == q1.pagePartners && hook.page == 1
    ensures hook.requests == [Request(1, true), Request(2, false), Request(1, true)]
  {
    hook := new InfinitePartners();
    hook.InputsChanged();
    hook.Resolve(true, Fetched(p1));
    assert hook.partners == p1.pagePartners && hook.hasMore;
    var started := hook.LoadMore();
    assert started && hook.page == 2;
    hook.Resolve(false, Fetched(p2));
    assert hook.partners == p1.pagePartners + p2.pagePartners;
    hook.InputsChanged();
    hook.Resolve(true, Fetched(q1));
  }

  /** The fetches carry no generation: when the inputs change twice and the
      first fetch settles last, its page replaces the newer one. */
  method StaleResponseWins(older: PageResult, newer: PageResult) returns (hook: InfinitePartners)
    ensures hook.partners == older.pagePartners
    ensures hook.totalCount == older.totalCount
  {
    hook := new InfinitePartners();
    hook.InputsChanged();
    hook.InputsChanged();
    hook.Resolve(true, Fetched(newer));
    hook.Resolve(true, Fetched(older));
  }

  /** `useCompanies()`: the whole list, loaded once on mount. */
  class AllPartners {
    var partners: seq<Partner>
    var loading: bool

    constructor ()
      ensures partners == [] && !loading
    {
      partners, loading := [], false;
    }

    /** The mount effect with the list fetch's outcome (`None` for a rejection).
        When the component unmounted before the fetch settled, only the loading
        flag's rise is visible; otherwise a success installs the list and the
        flag goes down in every case. */
    method Load(outcome: Wrappers.Option<seq<Partner>>, unmountedBeforeSettled: bool)
      modifies this
      ensures unmountedBeforeSettled ==> loading && partners == old(partners)
      ensures !unmountedBeforeSettled ==> !loading
      ensures !unmountedBeforeSettled && outcome.Some? ==> partners == outcome.value
      ensures outcome.None? ==> partners == old(partners)
    {
      loading := true;
      if !unmountedBeforeSettled {
        if outcome.Some? {
          partners := outcome.value;
        }
        loading := false;
      }
    }
  }
}
