/** The directory grid: how the size of the comparison selection gates
    further selection and the compare links, the progress dots, the results
    line above the grid, the footer (spinner, "Load More" or end of list), and
    the compare click that hands the selection to the comparison page through
    session storage. */
module PartnerGrid {
  import opened Wrappers
  import opened Seqs
  import opened Text
  import Utils
  import PartnerCard
  import HomePage

  /** `disableFurtherSelection`: three or more partners are selected. */
  predicate DisableFurtherSelection(items: seq<string>)
  {
    |items| >= 3
  }

  /** `selectedCount`. */
  function SelectedCount(items: seq<string>): nat
  {
    Min(|items|, 3)
  }

  /** The three progress dots; a dot is filled when its index is below the selected count. */
  function ProgressDots(items: seq<string>): (dots: seq<bool>)
    ensures |dots| == 3
    ensures forall i :: 0 <= i < 3 ==> (dots[i] <==> i < |items|)
  {
    [0 < SelectedCount(items), 1 < SelectedCount(items), 2 < SelectedCount(items)]
  }

  function CountFilled(dots: seq<bool>): nat
  {
    if dots == [] then 0 else (if dots[0] then 1 else 0) + CountFilled(dots[1..])
  }

  /** The number of filled dots is the selection size capped at three. */
  lemma FilledDotsCount(items: seq<string>)
    ensures CountFilled(ProgressDots(items)) == Min(|items|, 3)
  {
    var d := ProgressDots(items);
    assert CountFilled(d[1..][1..][1..]) == 0;
    assert CountFilled(d[1..][1..]) == (if d[2] then 1 else 0);
    assert CountFilled(d[1..]) == (if d[1] then 1 else 0) + (if d[2] then 1 else 0);
  }

  /** The compare links lead on only for two or three partners. */
  predicate CompareAllowed(items: seq<string>)
    ensures CompareAllowed(items) ==> SelectionSummary(items).Some? && SelectedCount(items) == |items|
  {
    2 <= |items| <= 3
  }

  /** The main compare link's suffix. */
  function CompareSuffix(items: seq<string>): (r: string)
    ensures r == "" <==> CompareAllowed(items)
  {
    if |items| < 2 then "(min 2)" else if |items| > 3 then "(max 3)" else ""
  }

  /** The floating button's hint line. */
  function CompareHint(items: seq<string>): (r: string)
    ensures r == "Click to view comparison" <==> CompareAllowed(items)
    ensures r == "Select at least 2" <==> CompareSuffix(items) == "(min 2)"
    ensures r == "Max 3 allowed" <==> CompareSuffix(items) == "(max 3)"
  {
    if |items| < 2 then "Select at least 2"
    else if |items| > 3 then "Max 3 allowed"
    else "Click to view comparison"
  }

  /** `partner` for exactly one selected partner, `partners` otherwise. */
  function PartnerWord(n: nat): string
  {
    if n == 1 then "partner" else "partners"
  }

  /** The selection summary next to the main compare link, shown when something is selected. */
  function SelectionSummary(items: seq<string>): (r: Option<string>)
    ensures r.Some? <==> items != []
  {
    if items == [] then None
    else Some(NatToString(|items|) + " " + PartnerWord(|items|) + " selected for comparison")
  }

  /** The suffix and the hint agree with the gate: both are silent or
      encouraging exactly when the compare links lead on, and each names the
      bound that is broken otherwise. */
  lemma CompareMessagesMatchGate(items: seq<string>)
    ensures CompareSuffix(items) == "" <==> CompareAllowed(items)
    ensures CompareHint(items) == "Click to view comparison" <==> CompareAllowed(items)
    ensures CompareSuffix(items) == "(min 2)" <==> |items| < 2
    ensures CompareSuffix(items) == "(max 3)" <==> |items| > 3
    ensures PartnerWord(|items|) == "partner" <==> |items| == 1
  {
  }

  /** Once selection is disabled the dots are full, and a toggle through
      the directory page can never open a disabled selection wider. */
  lemma DisabledMeansFull(items: seq<string>, id: string)
    ensures DisableFurtherSelection(items) <==> SelectedCount(items) == 3
    ensures DisableFurtherSelection(items) && id !in items ==> HomePage.ToggleComparison(items, id) == items
  {
  }

  // ---- the results line ----

  /** Whether a search query is quoted in the results line: it is present and
      not just white space. */
  predicate QueryShown(searchQuery: Option<string>)
  {
    searchQuery.Some? && Trim(searchQuery.value) != ""
  }

  /** The ` of N` part of the results line, present when the total is positive. */
  function TotalPart(totalCount: Option<int>): string
  {
    if totalCount.Some? && totalCount.value > 0 then " of " + IntToString(totalCount.value) else ""
  }

  /** The ` for "query"` part of the results line. */
  function QueryPart(searchQuery: Option<string>): string
  {
    if QueryShown(searchQuery) then " for \"" + searchQuery.value + "\"" else ""
  }

  /** The results line above the grid, shown only while nothing is selected.
      `totalCount` is absent when the hook has not reported one. */
  function ResultsLine(shown: nat, totalCount: Option<int>, searchQuery: Option<string>, items: seq<string>): (r: Option<string>)
    ensures r.Some? <==> items == []
    ensures r.Some? ==> var head := "Showing " + NatToString(shown); |head| <= |r.value| && r.value[..|head|] == head
  {
    if items != [] then None
    else Some("Showing " + NatToString(shown) + TotalPart(totalCount) + " partners" + QueryPart(searchQuery))
  }

  lemma DigitsHaveNoQuote(n: nat)
    ensures '"' !in NatToString(n)
  {
    var t := NatToString(n);
    forall i | 0 <= i < |t| ensures t[i] != '"' { assert IsDigit(t[i]); }
  }

  /** A positive total is mentioned as ` of N`. */
  lemma ResultsLineTotal(shown: nat, total: int, searchQuery: Option<string>)
    requires total > 0
    ensures Contains(ResultsLine(shown, Some(total), searchQuery, []).value, " of " + NatToString(total))
  {
    assert TotalPart(Some(total)) == " of " + NatToString(total);
    ContainsSecond("Showing " + NatToString(shown), TotalPart(Some(total)), " partners", QueryPart(searchQuery));
  }

  /** The line carries a quotation mark exactly when the query is quoted. */
  lemma ResultsLineQuote(shown: nat, totalCount: Option<int>, searchQuery: Option<string>)
    ensures '"' in ResultsLine(shown, totalCount, searchQuery, []).value <==> QueryShown(searchQuery)
  {
    var head := "Showing " + NatToString(shown);
    var count := TotalPart(totalCount);
    var query := QueryPart(searchQuery);
    var line := head + count + " partners" + query;
    assert ResultsLine(shown, totalCount, searchQuery, []).value == line;
    DigitsHaveNoQuote(shown);
    if totalCount.Some? && totalCount.value > 0 {
      DigitsHaveNoQuote(totalCount.value);
    }
    assert '"' !in head + count + " partners";
    if QueryShown(searchQuery) {
      assert line[|line| - |query| + 5] == query[5] == '"';
    } else {
      assert query == "";
    }
  }

  /** The line appears exactly when nothing is selected; it starts with the
      number of partners shown, mentions the total as ` of N` when the total is
      positive, and carries a quotation mark exactly when the query is quoted
      (the query is quoted as typed, untrimmed). */
  lemma ResultsLineSpec(shown: nat, totalCount: Option<int>, searchQuery: Option<string>, items: seq<string>)
    ensures ResultsLine(shown, totalCount, searchQuery, items).Some? <==> items == []
    ensures items == [] ==>
      var line := ResultsLine(shown, totalCount, searchQuery, items).value;
      && line[..8 + |NatToString(shown)|] == "Showing " + NatToString(shown)
      && (totalCount.Some? && totalCount.value > 0 ==> Contains(line, " of " + NatToString(totalCount.value)))
      && ('"' in line <==> QueryShown(searchQuery))
  {
    if items == [] {
      var head := "Showing " + NatToString(shown);
      var line := head + TotalPart(totalCount) + " partners" + QueryPart(searchQuery);
      assert ResultsLine(shown, totalCount, searchQuery, items).value == line;
      assert line[..|head|] == head;
      if totalCount.Some? && totalCount.value > 0 {
        ResultsLineTotal(shown, totalCount.value, searchQuery);
      }
      ResultsLineQuote(shown, totalCount, searchQuery);
    }
  }

  // ---- footer ----

  /** What the grid shows below the cards. */
  datatype Footer = Spinner | LoadMoreButton | EndOfList | NoFooter

  /** The three footer conditions of the grid, each rendered independently. */
  predicate ShowsSpinner(isLoading: bool) { isLoading }

  predicate ShowsLoadMore(isLoading: bool, hasMore: bool, hasLoadMoreHandler: bool)
  {
    !isLoading && hasMore && hasLoadMoreHandler
  }

  predicate ShowsEndOfList(isLoading: bool, hasMore: bool, partnerCount: nat)
  {
    !isLoading && !hasMore && partnerCount > 0
  }

  /** The footer that the three conditions select. */
  function FooterOf(isLoading: bool, hasMore: bool, hasLoadMoreHandler: bool, partnerCount: nat): (f: Footer)
    ensures f == Spinner <==> ShowsSpinner(isLoading)
    ensures f == LoadMoreButton <==> ShowsLoadMore(isLoading, hasMore, hasLoadMoreHandler)
    ensures f == EndOfList <==> ShowsEndOfList(isLoading, hasMore, partnerCount)
  {
    if isLoading then Spinner
    else if hasMore && hasLoadMoreHandler then LoadMoreButton
    else if !hasMore && partnerCount > 0 then EndOfList
    else NoFooter
  }

  /** The three conditions never hold together, so at most one footer shows. */
  lemma FooterExclusive(isLoading: bool, hasMore: bool, hasLoadMoreHandler: bool, partnerCount: nat)
    ensures !(ShowsSpinner(isLoading) && ShowsLoadMore(isLoading, hasMore, hasLoadMoreHandler))
    ensures !(ShowsSpinner(isLoading) && ShowsEndOfList(isLoading, hasMore, partnerCount))
    ensures !(ShowsLoadMore(isLoading, hasMore, hasLoadMoreHandler) && ShowsEndOfList(isLoading, hasMore, partnerCount))
  {
  }

  // ---- the compare click ----

  /** A click on either compare link: outside two to three partners the
      navigation is prevented and nothing is written; otherwise the selection
      as it is (not through `setComparisonIds`) is written under the storage
      key, a failing write is ignored, and the navigation goes ahead. */
  method CompareNowClicked(store: Utils.ComparisonStore, items: seq<string>, writeFails: bool)
    returns (navigate: bool)
    modifies store
    ensures navigate <==> CompareAllowed(items)
    ensures navigate && !writeFails ==> store.slot == Utils.ArrayOf(items)
    ensures !navigate || writeFails ==> store.slot == old(store.slot)
  {
    if |items| < 2 || |items| > 3 {
      return false;
    }
    if !writeFails {
      store.slot := Utils.ArrayOf(items);
    }
    return true;
  }

  /** After an allowed click whose write succeeds, the comparison page reads
      back exactly the selection, in order. */
  lemma ComparisonReadsSelection(items: seq<string>)
    requires CompareAllowed(items)
    ensures Utils.ReadIds(Utils.ArrayOf(items)) == items
  {
  }

  /** A card and the page together: clicking an unselected card while fewer
      than three are selected appends its id and leaves the card selected. */
  method SelectThroughCard(page: HomePage.HomePageState, card: PartnerCard.CardState, id: string)
    requires id !in page.comparisonItems && |page.comparisonItems| < 3
    requires !card.compareSelected
    modifies page, card
    ensures page.comparisonItems == old(page.comparisonItems) + [id]
    ensures card.IsSelected(id in page.comparisonItems)
  {
    var isIn := id in page.comparisonItems;
    var calls := card.ClickCompare(id, isIn, DisableFurtherSelection(page.comparisonItems));
    assert calls == [id];
    page.HandleCompareToggle(calls[0]);
  }
}
