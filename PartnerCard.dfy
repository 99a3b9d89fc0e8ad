/** One partner card of the directory grid: the badge variant rule, the
    truncated chip lists with their "+N more" labels, the expandable industry
    list, and the compare button, which keeps a local "selected" flag and
    reports each accepted click to the page. */
module PartnerCard {
  import opened Wrappers
  import opened Seqs
  import opened Text
  import PartnerTransform

  /** The badge variants of the design system. */
  datatype Variant = Default | Secondary | Destructive | Outline

  /** `getTypeVariant(type)`. */
  function GetTypeVariant(t: string): (v: Variant)
    ensures v != Outline <==> t in ["Solution Partner", "Tech Provider", "Tech Partner"]
  {
    if t == "Solution Partner" then Default
    else if t == "Tech Provider" then Secondary
    else if t == "Tech Partner" then Destructive
    else Outline
  }

  /** Each partner type has its own variant and every other string is outlined;
      so the header badges, which pass the service models, are outlined for
      every model that is not literally a type name. */
  lemma TypeVariantCases(t: string)
    ensures GetTypeVariant(t) == Default <==> t == "Solution Partner"
    ensures GetTypeVariant(t) == Secondary <==> t == "Tech Provider"
    ensures GetTypeVariant(t) == Destructive <==> t == "Tech Partner"
    ensures GetTypeVariant(t) == Outline <==> t !in {"Solution Partner", "Tech Provider", "Tech Partner"}
    ensures GetTypeVariant("SAAS") == GetTypeVariant("MANAGED") == GetTypeVariant("PROJECT_BASED") == Outline
  {
  }

  /** The type the transform computes always maps to one of the three type variants. */
  lemma TransformedTypeIsNotOutlined(serviceModels: seq<string>)
    ensures GetTypeVariant(PartnerTransform.GetPartnerType(serviceModels)) != Outline
  {
  }

  // ---- chip lists ----

  /** What a chip section shows: "Not available" for an empty list, or the
      shown chips with an optional overflow label. */
  datatype ChipList = NotAvailable | Chips(shown: seq<string>, overflow: Option<string>)

  /** The overflow label `+N more` (or `+N More` for industries) past three items. */
  function Overflow(n: nat, word: string): (r: Option<string>)
    ensures r.Some? <==> n > 3
    ensures n > 3 ==> r.value == "+" + NatToString(n - 3) + " " + word
  {
    if n > 3 then Some("+" + NatToString(n - 3) + " " + word) else None
  }

  /** The focus-area section: the first three areas, each over 30 characters cut to 30 and `...`. */
  function FocusAreasView(areas: seq<string>): (v: ChipList)
    ensures v.NotAvailable? <==> areas == []
    ensures v.Chips? ==> |v.shown| == Min(|areas|, 3) && v.overflow == Overflow(|areas|, "more")
    ensures v.Chips? ==> forall i :: 0 <= i < |v.shown| ==> v.shown[i] == PartnerTransform.Truncate(areas[i], 30) && |v.shown[i]| <= 33
  {
    if areas == [] then NotAvailable
    else Chips(TruncatedChips(Take(areas, 3)), Overflow(|areas|, "more"))
  }

  function TruncatedChips(areas: seq<string>): (r: seq<string>)
    ensures |r| == |areas|
    ensures forall i :: 0 <= i < |r| ==> r[i] == PartnerTransform.Truncate(areas[i], 30)
  {
    if areas == [] then [] else [PartnerTransform.Truncate(areas[0], 30)] + TruncatedChips(areas[1..])
  }

  /** The country section: the first three countries as they are. */
  function CountriesView(countries: seq<string>): (v: ChipList)
    ensures v.NotAvailable? <==> countries == []
    ensures v.Chips? ==> v.shown == Take(countries, 3) && v.overflow == Overflow(|countries|, "more")
  {
    if countries == [] then NotAvailable else Chips(Take(countries, 3), Overflow(|countries|, "more"))
  }

  /** The industry section: the first three when collapsed, all when expanded;
      the toggle reads `+N More` or `Show Less` and exists only past three. */
  function IndustriesView(industries: seq<string>, showAll: bool): (v: ChipList)
    ensures v.NotAvailable? <==> industries == []
    ensures v.Chips? ==> v.shown == (if showAll then industries else Take(industries, 3))
    ensures v.Chips? ==> (v.overflow.Some? <==> |industries| > 3)
  {
    if industries == [] then NotAvailable
    else
      var toggle := if |industries| <= 3 then None
        else if showAll then Some("Show Less")
        else Overflow(|industries|, "More");
      Chips(if showAll then industries else Take(industries, 3), toggle)
  }

  /** Every shown chip list is a prefix of its list, and the shown chips and the
      overflow count together account for every item. */
  lemma CollapsedViewsArePrefixes(items: seq<string>)
    requires items != []
    ensures CountriesView(items).shown == items[..Min(|items|, 3)]
    ensures IndustriesView(items, false).shown == items[..Min(|items|, 3)]
    ensures IndustriesView(items, true).shown == items
    ensures |items| > 3 ==> ParseInt(NatToString(|items| - 3)) == Integer(|items| - |CountriesView(items).shown|)
  {
    if |items| > 3 {
      ParseIntNatToString(|items| - 3);
    }
  }

  // ---- card state ----

  /** The card's own state. */
  class CardState {
    var compareSelected: bool
    var showAllIndustries: bool

    constructor ()
      ensures !compareSelected && !showAllIndustries
    {
      compareSelected, showAllIndustries := false, false;
    }

    /** `isSelected`: the local flag or the page's selection. */
    predicate IsSelected(isInComparison: bool)
      reads this
    {
      compareSelected || isInComparison
    }

    /** Whether the compare button is disabled. */
    predicate ButtonDisabled(isInComparison: bool, disableCompare: bool)
      reads this
    {
      disableCompare && !IsSelected(isInComparison)
    }

    /** The compare button's label. */
    function ButtonLabel(isInComparison: bool): string
      reads this
    {
      if IsSelected(isInComparison) then "Remove" else "Compare"
    }

    /** The compare button's click: when the button is disabled nothing
        happens; otherwise the local flag becomes the opposite of the current
        selection and the page's toggle is called once with the partner's id.
        `calls` lists the ids passed to that callback. */
    method ClickCompare(partnerId: string, isInComparison: bool, disableCompare: bool)
      returns (calls: seq<string>)
      modifies this
      ensures old(ButtonDisabled(isInComparison, disableCompare)) ==>
        calls == [] && compareSelected == old(compareSelected)
      ensures !old(ButtonDisabled(isInComparison, disableCompare)) ==>
        calls == [partnerId] && compareSelected == !old(IsSelected(isInComparison))
      ensures showAllIndustries == old(showAllIndustries)
    {
      if disableCompare && !IsSelected(isInComparison) {
        return [];
      }
      compareSelected := !IsSelected(isInComparison);
      calls := [partnerId];
    }

    /** The industry toggle's click. */
    method ToggleIndustries()
      modifies this
      ensures showAllIndustries == !old(showAllIndustries)
      ensures compareSelected == old(compareSelected)
    {
      showAllIndustries := !showAllIndustries;
    }
  }

  /** The disabled state and the label agree: a disabled button always reads "Compare". */
  lemma DisabledReadsCompare(card: CardState, isInComparison: bool, disableCompare: bool)
    ensures card.ButtonDisabled(isInComparison, disableCompare) ==> card.ButtonLabel(isInComparison) == "Compare"
    ensures card.ButtonLabel(isInComparison) == "Remove" <==> card.IsSelected(isInComparison)
  {
  }
}
