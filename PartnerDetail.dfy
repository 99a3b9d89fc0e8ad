/** The partner detail page: which media items the gallery shows and whether
    the gallery appears at all, the location list with its Global fallback, the
    "Add to Comparison" target, the pricing label, and the fetch effect that
    decides between the loading, not-found and partner views. */
module PartnerDetail {
  import opened Wrappers
  import opened Seqs
  import opened Text
  import opened Partners
  import Url
  import HomePage
  import PartnerCard

  // ---- media ----

  /** The trimmed URL of an item; a missing URL reads as empty. */
  function TrimmedUrl(m: Media): string
  {
    Trim(m.mediaUrl.GetOr(""))
  }

  /** The item filter of `getDisplayableMedia`: a non-blank URL, a tag other
      than `LOGO`, and no `.ds_store` anywhere in the lower-cased URL. */
  predicate IsDisplayable(m: Media)
  {
    TrimmedUrl(m) != "" && m.tag != "LOGO" && !Contains(ToLower(TrimmedUrl(m)), ".ds_store")
  }

  function FilterDisplayable(items: seq<Media>): (r: seq<Media>)
    ensures forall k :: 0 <= k < |r| ==> IsDisplayable(r[k])
    ensures forall m :: m in r <==> m in items && IsDisplayable(m)
    ensures |r| <= |items|
  {
    if items == [] then []
    else
      var tail := FilterDisplayable(items[1..]);
      assert forall m :: m in items <==> m == items[0] || m in items[1..];
      if IsDisplayable(items[0]) then [items[0]] + tail else tail
  }

  /** `getDisplayableMedia()`: nothing when the partner has no media array. */
  function DisplayableMedia(media: Option<seq<Media>>): (r: seq<Media>)
    ensures media.None? ==> r == []
    ensures forall m :: m in r <==> media.Some? && m in media.value && IsDisplayable(m)
  {
    if media.None? then [] else FilterDisplayable(media.value)
  }

  /** The filter keeps the displayable items in their original order. */
  lemma {:induction false} FilterDisplayableIsSubsequence(items: seq<Media>)
    ensures IsSubsequence(FilterDisplayable(items), items)
  {
    if items != [] {
      FilterDisplayableIsSubsequence(items[1..]);
      var tail := FilterDisplayable(items[1..]);
      if IsDisplayable(items[0]) {
        var r := FilterDisplayable(items);
        assert r[0] == items[0] && r[1..] == tail;
      } else {
        SubsequenceOfTail(tail, items);
      }
    }
  }

  /** Filtering an already filtered list changes nothing. */
  lemma {:induction false} FilterDisplayableIdempotent(items: seq<Media>)
    ensures FilterDisplayable(FilterDisplayable(items)) == FilterDisplayable(items)
  {
    if items != [] {
      FilterDisplayableIdempotent(items[1..]);
      var tail := FilterDisplayable(items[1..]);
      if IsDisplayable(items[0]) {
        var r := [items[0]] + tail;
        assert r[1..] == tail;
      }
    }
  }

  /** The gallery items are exactly the displayable media, in order, and
      filtering them again is a no-op. */
  lemma DisplayableMediaSpec(media: Option<seq<Media>>)
    ensures media.None? ==> DisplayableMedia(media) == []
    ensures media.Some? ==>
      && IsSubsequence(DisplayableMedia(media), media.value)
      && (forall m :: m in DisplayableMedia(media) <==> m in media.value && IsDisplayable(m))
      && DisplayableMedia(Some(DisplayableMedia(media))) == DisplayableMedia(media)
  {
    if media.Some? {
      FilterDisplayableIsSubsequence(media.value);
      FilterDisplayableIdempotent(media.value);
    }
  }

  /** The item test of `hasDisplayableMedia`: a tag other than `LOGO` and a
      non-empty URL that is not blank. */
  predicate IsShowable(m: Media)
  {
    m.tag != "LOGO" && m.mediaUrl.Some? && m.mediaUrl.value != "" && Trim(m.mediaUrl.value) != ""
  }

  /** `hasDisplayableMedia()` as written: it does not exclude `.ds_store` files. */
  predicate HasDisplayableMedia(media: Option<seq<Media>>)
    ensures HasDisplayableMedia(media) ==> media.Some? && media.value != []
    ensures DisplayableMedia(media) != [] ==> HasDisplayableMedia(media)
  {
    DisplayableIsShowable(media);
    media.Some? && exists k :: 0 <= k < |media.value| && IsShowable(media.value[k])
  }

  /** A displayable item is showable. */
  lemma DisplayableIsShowable(media: Option<seq<Media>>)
    ensures DisplayableMedia(media) != [] ==> exists k :: 0 <= k < |media.value| && IsShowable(media.value[k])
  {
    if DisplayableMedia(media) != [] {
      var m := DisplayableMedia(media)[0];
      assert m in DisplayableMedia(media);
      assert IsDisplayable(m);
      TrimEmptyIff("");
      var k :| 0 <= k < |media.value| && media.value[k] == m;
      assert IsShowable(media.value[k]);
    }
  }

  /** So a non-empty gallery list implies the gallery check passes. */
  lemma DisplayableImpliesHas(media: Option<seq<Media>>)
    ensures DisplayableMedia(media) != [] ==> HasDisplayableMedia(media)
  {
  }

  /** The converse fails: a partner whose only media item is a `.DS_Store`
      upload (any non-logo item whose URL contains `.ds_store` in any case)
      passes the gallery check with nothing to show, so the page renders an
      empty "Media Gallery" card. */
  lemma EmptyGalleryShown(m: Media)
    requires m.tag != "LOGO" && m.mediaUrl.Some? && TrimmedUrl(m) != ""
    requires Contains(ToLower(TrimmedUrl(m)), ".ds_store")
    ensures HasDisplayableMedia(Some([m])) && DisplayableMedia(Some([m])) == []
  {
    assert m.mediaUrl.value != "" by { TrimEmptyIff(""); }
    assert IsShowable([m][0]);
    assert [m][1..] == [];
  }

  /** A concrete instance: one `.DS_Store` upload tagged `MEDIA`. */
  lemma EmptyGalleryExample()
    ensures var m := Media("m1", Some(".DS_Store"), "MEDIA", "image", "c1");
      HasDisplayableMedia(Some([m])) && DisplayableMedia(Some([m])) == []
  {
    var m := Media("m1", Some(".DS_Store"), "MEDIA", "image", "c1");
    TrimDsStore();
    LowerDsStore();
    assert OccursAt(ToLower(TrimmedUrl(m)), ".ds_store", 0);
    EmptyGalleryShown(m);
  }

  lemma TrimDsStore()
    ensures Trim(".DS_Store") == ".DS_Store"
  {
    assert SkipSpace(".DS_Store", 0) == 0;
    assert SkipSpaceBack(".DS_Store", 0, 9) == 9;
  }

  lemma LowerDsStore()
    ensures ToLower(".DS_Store") == ".ds_store"
  {
    var r := ToLower(".DS_Store");
    assert forall i :: 0 <= i < 9 ==> r[i] == LowerChar(".DS_Store"[i]);
  }

  /** Whether the gallery card appears, as evidently intended: exactly when it
      has an item to show. */
  predicate GalleryShown(media: Option<seq<Media>>)
  {
    DisplayableMedia(media) != []
  }

  /** When no showable item is a `.ds_store` file, the written check passes
      only if the gallery has something to show. */
  lemma HasImpliesShownWithoutDsStore(media: Option<seq<Media>>)
    requires media.Some? && HasDisplayableMedia(media)
    requires forall k :: 0 <= k < |media.value| && IsShowable(media.value[k]) ==> IsDisplayable(media.value[k])
    ensures GalleryShown(media)
  {
    var k :| 0 <= k < |media.value| && IsShowable(media.value[k]);
    assert media.value[k] in DisplayableMedia(media);
  }

  /** The corrected check never shows an empty gallery and agrees with the
      written one whenever no showable item is a `.ds_store` file. */
  lemma GalleryShownSpec(media: Option<seq<Media>>)
    ensures GalleryShown(media) <==> exists m :: m in DisplayableMedia(media)
    ensures GalleryShown(media) ==> HasDisplayableMedia(media)
    ensures media.Some? && (forall k :: 0 <= k < |media.value| && IsShowable(media.value[k]) ==> IsDisplayable(media.value[k])) ==>
      (GalleryShown(media) <==> HasDisplayableMedia(media))
  {
    DisplayableImpliesHas(media);
    if GalleryShown(media) {
      assert DisplayableMedia(media)[0] in DisplayableMedia(media);
    }
    if media.Some? && HasDisplayableMedia(media)
      && (forall k :: 0 <= k < |media.value| && IsShowable(media.value[k]) ==> IsDisplayable(media.value[k])) {
      HasImpliesShownWithoutDsStore(media);
    }
  }

  // ---- locations ----

  /** The geographic coverage list: a single Global badge for no countries;
      otherwise the first three (all when expanded) and, past three, a toggle
      reading `+N More` or `Show Less`. */
  datatype LocationsView = GlobalOnly | Listed(shown: seq<string>, toggle: Option<string>)

  function Locations(countries: seq<string>, showAll: bool): (v: LocationsView)
    ensures v.GlobalOnly? <==> countries == []
    ensures v.Listed? ==> v.shown == (if showAll then countries else Take(countries, 3))
    ensures v.Listed? ==> (v.toggle.Some? <==> |countries| > 3)
    ensures v.Listed? && !showAll && |countries| > 3 ==> v.toggle == PartnerCard.Overflow(|countries|, "More")
  {
    if countries == [] then GlobalOnly
    else
      var toggle := if |countries| <= 3 then None
        else if showAll then Some("Show Less")
        else PartnerCard.Overflow(|countries|, "More");
      Listed(if showAll then countries else Take(countries, 3), toggle)
  }

  // ---- comparison link ----

  /** Where "Add to Comparison" navigates: the directory with the URI-encoded
      id as `selectedIds`; nothing happens for an empty id. */
  function AddToComparisonTarget(id: string): (r: Option<string>)
    ensures r.Some? <==> id != ""
  {
    if id == "" then None else Some("/?" + HomePage.SelectedIdsParam + "=" + Url.EncodeUriComponent(id))
  }

  /** For an id of unreserved characters (a UUID, say) the link carries the id
      verbatim, and the directory seeds its selection with exactly that id. */
  lemma AddToComparisonSeedsId(id: string)
    requires id != ""
    requires forall i :: 0 <= i < |id| ==> Url.IsUriUnreserved(id[i])
    ensures AddToComparisonTarget(id) == Some("/?selectedIds=" + id)
    ensures HomePage.SeedSelection(Some(id)) == [id]
  {
    assert AddToComparisonTarget(id) == Some("/?selectedIds=" + id) by {
      Url.EncodeUriComponentUnreserved(id);
      assert "/?" + HomePage.SelectedIdsParam + "=" + id == "/?selectedIds=" + id;
    }
    Url.UnreservedHasNoComma(id);
    assert HomePage.SeedSelection(Some(id)) == [id] by {
      assert Join([id], ",") == id;
      HomePage.SeedSelectionRoundTrip([id]);
    }
  }

  // ---- page state ----

  /** The four tabs of the page. */
  datatype Tab = Overview | Pricing | Features | Onboarding

  /** What the page renders. */
  datatype DetailView = LoadingView | NotFoundView | PartnerView(partner: Partner)

  /** Loading wins over everything; then no partner means not found. */
  function ViewOf(loading: bool, partner: Option<Partner>): (v: DetailView)
    ensures v == LoadingView <==> loading
    ensures v == NotFoundView <==> !loading && partner.None?
    ensures v.PartnerView? ==> partner == Some(v.partner)
  {
    if loading then LoadingView else if partner.None? then NotFoundView else PartnerView(partner.value)
  }

  class DetailState {
    var partner: Option<Partner>
    var loading: bool
    var activeTab: Tab
    var showAllLocations: bool

    /** The first render: loading, no partner, the overview tab. */
    constructor ()
      ensures partner.None? && loading && activeTab == Overview && !showAllLocations
    {
      partner, loading, activeTab, showAllLocations := None, true, Overview, false;
    }

    /** The fetch effect for the route's `companyId`, given the fetch's outcome
        (`None` for a rejection) and whether the effect was cleaned up before
        the fetch settled. With no id nothing happens (the page keeps loading);
        a cleaned-up effect makes no update after raising the loading flag. */
    method FetchEffect(companyId: Option<string>, outcome: Option<Partner>, cancelledBeforeSettled: bool)
      modifies this
      ensures companyId.None? || companyId.value == "" ==>
        partner == old(partner) && loading == old(loading)
      ensures companyId.Some? && companyId.value != "" && cancelledBeforeSettled ==>
        partner == old(partner) && loading
      ensures companyId.Some? && companyId.value != "" && !cancelledBeforeSettled ==>
        partner == outcome && !loading
      ensures activeTab == old(activeTab) && showAllLocations == old(showAllLocations)
    {
      if companyId.None? || companyId.value == "" {
        return;
      }
      loading := true;
      if !cancelledBeforeSettled {
        partner := outcome;
        loading := false;
      }
    }

    /** The location toggle. */
    method ToggleLocations()
      modifies this
      ensures showAllLocations == !old(showAllLocations)
      ensures partner == old(partner) && loading == old(loading) && activeTab == old(activeTab)
    {
      showAllLocations := !showAllLocations;
    }
  }

  /** A settled fetch that failed shows the not-found view; one that succeeded
      shows its partner. */
  method FetchThenView(companyId: string, outcome: Option<Partner>) returns (view: DetailView)
    requires companyId != ""
    ensures outcome.None? ==> view == NotFoundView
    ensures outcome.Some? ==> view == PartnerView(outcome.value)
  {
    var page := new DetailState();
    page.FetchEffect(Some(companyId), outcome, false);
    view := ViewOf(page.loading, page.partner);
  }
}
