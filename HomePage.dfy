/** The directory page's own state: the comparison selection it keeps (seeded
    from the `selectedIds` URL parameter and changed by the compare toggle),
    the five filter categories, and the rule that strips `selectedIds` from
    the URL once it has been used. */
module HomePage {
  import opened Wrappers
  import opened Seqs
  import opened Text
  import Url

  /** The name of the URL parameter that preselects partners. */
  const SelectedIdsParam: string := "selectedIds"

  /** The most partners the directory lets one select for comparison. */
  const SelectionCap: nat := 3

  // ---- seeding ----

  /** The pieces of a split that are not empty (`filter(Boolean)`): each
      non-empty piece, in order and as often as it occurs. */
  function NonEmpty(pieces: seq<string>): (r: seq<string>)
    ensures forall k :: 0 <= k < |r| ==> r[k] != ""
    ensures forall x :: x in r <==> x in pieces && x != ""
    ensures forall x :: x != "" ==> multiset(r)[x] == multiset(pieces)[x]
    ensures IsSubsequence(r, pieces)
  {
    var r := Filter(pieces, NonEmptyText);
    FilterIsSubsequence(pieces, NonEmptyText);
    assert forall k :: 0 <= k < |r| ==> r[k] in r;
    r
  }

  lemma NonEmptyKeepsNonEmpty(pieces: seq<string>)
    requires forall k :: 0 <= k < |pieces| ==> pieces[k] != ""
    ensures NonEmpty(pieces) == pieces
  {
    FilterKeepsAll(pieces, NonEmptyText);
  }

  /** The initial selection: the `selectedIds` value split on `,` with empty
      pieces dropped, or nothing when the parameter is absent or empty. It is
      not cut down to three. */
  function SeedSelection(param: Option<string>): (ids: seq<string>)
    ensures forall k :: 0 <= k < |ids| ==> ids[k] != "" && ',' !in ids[k]
  {
    match param
    case None => []
    case Some(v) =>
      if v == "" then []
      else
        var pieces := Split(v, ',');
        var ids := NonEmpty(pieces);
        assert forall k :: 0 <= k < |ids| ==> ids[k] in pieces;
        ids
  }

  /** Every id list whose ids are non-empty and comma-free survives being put
      in the URL as a comma-separated value: seeding gives the list back. */
  lemma SeedSelectionRoundTrip(ids: seq<string>)
    requires forall k :: 0 <= k < |ids| ==> ids[k] != "" && ',' !in ids[k]
    ensures SeedSelection(Some(Join(ids, ","))) == ids
  {
    if ids == [] {
    } else {
      SplitJoin(ids, ',');
      NonEmptyKeepsNonEmpty(ids);
      assert Join(ids, ",") != "" by { JoinEmptyIff(ids, ","); }
    }
  }

  /** The seeded ids are exactly the non-empty comma-separated pieces of the
      value, in their order and with their repetitions, so stray commas
      produce no ids and a repeated id is seeded twice. */
  lemma SeedSelectionPieces(v: string)
    ensures SeedSelection(Some(v)) == NonEmpty(Split(v, ','))
    ensures IsSubsequence(SeedSelection(Some(v)), Split(v, ','))
    ensures forall x :: x in SeedSelection(Some(v)) <==> x in Split(v, ',') && x != ""
    ensures forall x :: x != "" ==> multiset(SeedSelection(Some(v)))[x] == multiset(Split(v, ','))[x]
  {
    if v == "" {
      assert Split(v, ',') == [""];
      assert NonEmpty([""]) == [] by { assert "" !in NonEmpty([""]); }
    }
  }

  /** A repeated id in the parameter is seeded as often as it is written. */
  lemma SeedSelectionKeepsRepeats()
    ensures SeedSelection(Some("a,a")) == ["a", "a"]
  {
    SeedSelectionRoundTrip(["a", "a"]);
    assert Join(["a", "a"], ",") == "a,a";
  }

  /** The seeded selection is not cut down to the comparison limit. */
  lemma SeedSelectionNotTruncated()
    ensures SeedSelection(Some("p,q,r,s")) == ["p", "q", "r", "s"]
  {
    var ids := ["p", "q", "r", "s"];
    assert Join(ids, ",") == "p,q,r,s" by {
      assert ids[1..][1..][1..] == ["s"];
      assert ids[1..][1..] == ["r", "s"];
      assert ids[1..] == ["q", "r", "s"];
    }
    SeedSelectionRoundTrip(ids);
  }

  // ---- the compare toggle ----

  /** The updater `handleCompareToggle` hands to `setComparisonItems`. */
  function ToggleComparison(prev: seq<string>, id: string): (r: seq<string>)
    ensures id in r <==> id !in prev && |prev| < SelectionCap
    ensures forall x :: x != id ==> (x in r <==> x in prev)
    ensures forall x :: x != id ==> multiset(r)[x] == multiset(prev)[x]
  {
    if id in prev then
      var r := RemoveAll(prev, id);
      assert forall x :: x != id ==> (x in r <==> multiset(r)[x] > 0) && (x in prev <==> multiset(prev)[x] > 0);
      r
    else if |prev| >= SelectionCap then prev
    else prev + [id]
  }

  /** Toggling a selected id removes all its occurrences and keeps the rest in order. */
  lemma ToggleSelectedRemoves(prev: seq<string>, id: string)
    requires id in prev
    ensures id !in ToggleComparison(prev, id)
    ensures IsSubsequence(ToggleComparison(prev, id), prev)
    ensures multiset(ToggleComparison(prev, id)) == multiset(prev)[id := 0]
  {
    RemoveAllIsSubsequence(prev, id);
  }

  /** Toggling an unselected id at the cap leaves the selection as it was. */
  lemma ToggleAtCapRefuses(prev: seq<string>, id: string)
    requires id !in prev && |prev| >= SelectionCap
    ensures ToggleComparison(prev, id) == prev
  {
  }

  /** Toggling an unselected id below the cap appends it at the end. */
  lemma ToggleBelowCapAppends(prev: seq<string>, id: string)
    requires id !in prev && |prev| < SelectionCap
    ensures ToggleComparison(prev, id) == prev + [id]
    ensures |ToggleComparison(prev, id)| == |prev| + 1 <= SelectionCap
  {
  }

  /** Toggling the same unselected id twice, below the cap, restores the selection. */
  lemma ToggleTwiceRestores(prev: seq<string>, id: string)
    requires id !in prev && |prev| < SelectionCap
    ensures ToggleComparison(ToggleComparison(prev, id), id) == prev
  {
    assert id in prev + [id];
    RemoveAllAppend(prev, [id], id);
    RemoveAllAbsent(prev, id);
    assert RemoveAll([id], id) == [];
  }

  /** The same is not true of a selected id that is not last: it comes back at the end. */
  lemma ToggleTwiceMovesSelected()
    ensures ToggleComparison(ToggleComparison(["a", "b"], "a"), "a") == ["b", "a"]
  {
    assert RemoveAll(["a", "b"], "a") == ["b"] by {
      assert ["a", "b"][1..] == ["b"];
      assert RemoveAll(["b"], "a") == ["b"] by { RemoveAllAbsent(["b"], "a"); }
    }
    assert "a" !in ["b"];
  }

  /** A toggle never makes the selection longer than three unless it already
      was, never lengthens it by more than one, and keeps it duplicate-free. */
  lemma ToggleBounds(prev: seq<string>, id: string)
    ensures |prev| <= SelectionCap ==> |ToggleComparison(prev, id)| <= SelectionCap
    ensures |prev| > SelectionCap ==> |ToggleComparison(prev, id)| <= |prev|
    ensures NoDuplicates(prev) ==> NoDuplicates(ToggleComparison(prev, id))
  {
    if NoDuplicates(prev) {
      if id in prev {
        RemoveAllNoDuplicates(prev, id);
      } else if |prev| < SelectionCap {
        var next := prev + [id];
        forall i, j | 0 <= i < j < |next| ensures next[i] != next[j] {
          if j == |prev| { assert next[i] == prev[i]; assert prev[i] in prev; }
        }
      }
    }
  }

  /** Four distinct ids toggled in turn from an empty selection: the first
      three are kept in order and the fourth is refused. */
  lemma FourTogglesKeepFirstThree(a: string, b: string, c: string, d: string)
    requires a != b && a != c && a != d && b != c && b != d && c != d
    ensures ToggleComparison(ToggleComparison(ToggleComparison([], a), b), c) == [a, b, c]
    ensures ToggleComparison([a, b, c], d) == [a, b, c]
  {
    ToggleBelowCapAppends([], a);
    assert [] + [a] == [a];
    ToggleBelowCapAppends([a], b);
    assert [a] + [b] == [a, b];
    ToggleBelowCapAppends([a, b], c);
    assert [a, b] + [c] == [a, b, c];
    ToggleAtCapRefuses([a, b, c], d);
  }

  // ---- filters ----

  /** `FilterOptions`: the five filter categories of the search bar. */
  datatype FilterOptions = FilterOptions(
    products: seq<string>,
    partnerTypes: seq<string>,
    pricingModels: seq<string>,
    regions: seq<string>,
    keyServices: seq<string>)

  /** The filters `handleClearFilters` installs (also the initial filters). */
  function EmptyFilters(): (f: FilterOptions)
    ensures f.products == [] && f.partnerTypes == [] && f.pricingModels == []
    ensures f.regions == [] && f.keyServices == []
  {
    FilterOptions([], [], [], [], [])
  }

  // ---- URL clean-up ----

  /** Where the page navigates (with `router.replace`) after reading a
      non-empty `selectedIds`: the path followed by the other parameters, and
      no `?` when none remain. `None` means no navigation. */
  function UrlAfterSeeding(pathname: string, params: Url.QueryParams): (r: Option<string>)
    ensures r.Some? <==> Url.GetParam(params, SelectedIdsParam).Some? && Url.GetParam(params, SelectedIdsParam).value != ""
    ensures r.Some? ==> |pathname| <= |r.value| && r.value[..|pathname|] == pathname
  {
    match Url.GetParam(params, SelectedIdsParam)
    case None => None
    case Some(v) =>
      if v == "" then None
      else
        var rest := Url.Serialize(Url.DeleteParam(params, SelectedIdsParam));
        Some(pathname + (if rest == "" then "" else "?" + rest))
  }

  /** The clean-up happens exactly when `selectedIds` has a non-empty first
      value; the new URL carries no `selectedIds` pair, keeps every other pair
      in order, and has a `?` exactly when some other pair remains. */
  lemma UrlAfterSeedingSpec(pathname: string, params: Url.QueryParams)
    requires '?' !in pathname
    ensures UrlAfterSeeding(pathname, params).Some?
        <==> Url.GetParam(params, SelectedIdsParam).Some? && Url.GetParam(params, SelectedIdsParam).value != ""
    ensures UrlAfterSeeding(pathname, params).Some? ==>
      var kept := Url.DeleteParam(params, SelectedIdsParam);
      && (forall p :: p in kept ==> p.0 != SelectedIdsParam)
      && (forall p :: p in params && p.0 != SelectedIdsParam ==> p in kept)
      && IsSubsequence(kept, params)
      && ('?' in UrlAfterSeeding(pathname, params).value <==> kept != [])
  {
    var kept := Url.DeleteParam(params, SelectedIdsParam);
    Url.DeleteParamIsSubsequence(params, SelectedIdsParam);
    Url.SerializeEmptyIff(kept);
    Url.SerializeHasNoQuestionMark(kept);
    var rest := Url.Serialize(kept);
    if UrlAfterSeeding(pathname, params).Some? {
      var next := UrlAfterSeeding(pathname, params).value;
      if kept != [] {
        assert next == pathname + "?" + rest;
        assert next[|pathname|] == '?';
      } else {
        assert next == pathname;
      }
    }
  }

  // ---- page state ----

  /** The state the directory page keeps for the selection and the filters. */
  class HomePageState {
    var comparisonItems: seq<string>
    var filters: FilterOptions

    /** First render: the selection is seeded from the URL parameter and the filters are empty. */
    constructor (selectedIds: Option<string>)
      ensures comparisonItems == SeedSelection(selectedIds)
      ensures filters == EmptyFilters()
    {
      comparisonItems := SeedSelection(selectedIds);
      filters := EmptyFilters();
    }

    /** `handleCompareToggle(partnerId)`. */
    method HandleCompareToggle(partnerId: string)
      modifies this
      ensures comparisonItems == ToggleComparison(old(comparisonItems), partnerId)
      ensures filters == old(filters)
    {
      comparisonItems := ToggleComparison(comparisonItems, partnerId);
    }

    /** `handleFiltersChange(newFilters)`. */
    method HandleFiltersChange(newFilters: FilterOptions)
      modifies this
      ensures filters == newFilters && comparisonItems == old(comparisonItems)
    {
      filters := newFilters;
    }

    /** `handleClearFilters()`: all five categories become empty; the selection stays. */
    method HandleClearFilters()
      modifies this
      ensures filters == EmptyFilters() && comparisonItems == old(comparisonItems)
    {
      filters := EmptyFilters();
    }
  }
}
