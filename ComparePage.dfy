/** The comparison page: the ids it compares (read once from the comparison
    selection), the warning shown when more than three were stored, the
    all-or-nothing fetch of the compared partners, "Clear All", and the labels
    of the comparison table. */
module ComparePage {
  import opened Wrappers
  import opened Seqs
  import opened Text
  import Utils
  import Partners
  import Api

  // ---- the limit warning ----

  /** The warning's condition on the raw slot: the stored text parses to an
      array of more than three entries. Absent or empty text, text that does
      not parse and JSON that is not an array all count as zero entries. */
  predicate ShowsLimitWarning(slot: Utils.Stored)
  {
    slot.ArrayOf? && |slot.items| > Utils.ComparisonLimit
  }

  /** The warning appears exactly when the page compares fewer ids than were
      stored, which is what its text says: only the first three were loaded. */
  lemma LimitWarningMeansTruncated(slot: Utils.Stored)
    ensures ShowsLimitWarning(slot) <==> slot.ArrayOf? && Utils.ReadIds(slot) != slot.items
    ensures ShowsLimitWarning(slot) ==> |Utils.ReadIds(slot)| == 3
    ensures !slot.ArrayOf? ==> !ShowsLimitWarning(slot)
  {
    if ShowsLimitWarning(slot) {
      assert |Utils.ReadIds(slot)| == 3 < |slot.items|;
    }
  }

  // ---- the all-or-nothing fetch ----

  /** Why a fetch of one company failed: an `Error` carrying its message, or
      any other thrown value. */
  datatype Rejection = ErrorValue(message: string) | OtherValue

  /** The message shown for a failed fetch. */
  function ErrorMessage(reason: Rejection): (m: string)
    ensures m == "" ==> reason == ErrorValue("")
  {
    match reason
    case ErrorValue(msg) => msg
    case OtherValue => "Failed to load companies"
  }

  /** How the fetch of one compared id settled. */
  datatype Settled = Fulfilled(company: Partners.Partner) | Rejected(reason: Rejection)

  predicate AllFulfilled(results: seq<Settled>)
  {
    forall i :: 0 <= i < |results| ==> results[i].Fulfilled?
  }

  /** `reason` is the reason of one of the rejected fetches. */
  predicate IsRejectionOf(results: seq<Settled>, reason: Rejection)
  {
    exists i :: 0 <= i < |results| && results[i] == Rejected(reason)
  }

  /** The companies of fetches that all fulfilled, in the order of the ids. */
  function Companies(results: seq<Settled>): (cs: seq<Partners.Partner>)
    requires AllFulfilled(results)
    ensures |cs| == |results|
    ensures forall i :: 0 <= i < |cs| ==> results[i] == Fulfilled(cs[i])
  {
    if results == [] then [] else [results[0].company] + Companies(results[1..])
  }

  /** What `Promise.all` settles to. */
  datatype AllOutcome = AllOf(companies: seq<Partners.Partner>) | AnyRejected(reason: Rejection)

  /** `Promise.all` over the per-id fetches: all values in order when every
      fetch fulfilled, otherwise a rejection. Which rejection is reported
      depends on which fetch fails first in time; it is given as `first`,
      one of the rejections. */
  function PromiseAll(results: seq<Settled>, first: Rejection): (r: AllOutcome)
    requires !AllFulfilled(results) ==> IsRejectionOf(results, first)
    ensures r.AllOf? <==> AllFulfilled(results)
    ensures r.AllOf? ==> |r.companies| == |results| && forall i :: 0 <= i < |results| ==> results[i] == Fulfilled(r.companies[i])
    ensures r.AnyRejected? ==> IsRejectionOf(results, r.reason)
  {
    if AllFulfilled(results) then AllOf(Companies(results)) else AnyRejected(first)
  }

  /** A single failed fetch rejects the whole batch, whatever the others did. */
  lemma OneFailureRejectsAll(results: seq<Settled>, i: nat, first: Rejection)
    requires i < |results| && results[i].Rejected?
    requires IsRejectionOf(results, first)
    ensures PromiseAll(results, first).AnyRejected?
  {
  }

  /** How one `getCompanyById` call through the client settles: every error
      the interceptor throws, new or rethrown, is an `Error` with a message. */
  function SettledOf(call: Api.CallResult<Partners.Partner>): (st: Settled)
    ensures call.Delivered? ==> st == Fulfilled(call.response)
    ensures call.Threw? ==> st == Rejected(ErrorValue(Api.ThrownMessage(call.thrown)))
    ensures st.Rejected? ==> st.reason.ErrorValue? && ErrorMessage(st.reason) == Api.ThrownMessage(call.thrown)
  {
    match call
    case Delivered(p) => Fulfilled(p)
    case Threw(t) => Rejected(ErrorValue(Api.ThrownMessage(t)))
  }

  /** A compared id that the server does not know makes the page report
      "Company not found" when that is the rejection reported first, and a
      server failure the server-error message. */
  lemma ClientErrorsReachThePage(e: Api.RequestError)
    ensures e.status == Some(404) ==>
      ErrorMessage(SettledOf(Api.Call(Api.Failed(e))).reason) == "Company not found"
    ensures e.status.Some? && e.status.value >= 500 ==>
      ErrorMessage(SettledOf(Api.Call(Api.Failed(e))).reason) == "Server error. Please try again later."
    ensures (e.status.None? || e.status.value < 500) && e.status != Some(404) && e.code != Some("ECONNABORTED") ==>
      ErrorMessage(SettledOf(Api.Call<Partners.Partner>(Api.Failed(e))).reason) == e.message
  {
    Api.InterceptCases(e);
  }

  // ---- page state ----

  /** The four tabs of the comparison table. */
  datatype Tab = Overview | Pricing | Features | Onboarding

  /** What the content area shows besides the error line. */
  datatype Content = LoadingPanel | ComparisonTable | EmptyState

  /** The content area: the loading panel while loading, the table when
      companies are loaded, the empty state otherwise. */
  function ContentOf(isLoading: bool, companyCount: nat): (c: Content)
    ensures c == LoadingPanel <==> isLoading
    ensures c == ComparisonTable <==> !isLoading && companyCount > 0
    ensures c == EmptyState <==> !isLoading && companyCount == 0
  {
    if isLoading then LoadingPanel else if companyCount > 0 then ComparisonTable else EmptyState
  }

  /** The error line is rendered when the error is truthy: present and not the empty string. */
  predicate ShowsError(error: Option<string>)
  {
    error.Some? && error.value != ""
  }

  class CompareState {
    /** The ids read once when the page mounts. */
    var selectedIds: seq<string>
    var companies: seq<Partners.Partner>
    var isLoading: bool
    var error: Option<string>
    var showLimitWarning: bool
    var activeTab: Tab

    /** Mounting: the ids are read from the selection, there are no
        companies, nothing is loading, no error, no warning, and the overview
        tab is active. */
    constructor (store: Utils.ComparisonStore)
      ensures selectedIds == Utils.ReadIds(store.slot)
      ensures |selectedIds| <= Utils.ComparisonLimit
      ensures companies == [] && !isLoading && error == None && !showLimitWarning && activeTab == Overview
    {
      var ids := store.GetComparisonIds();
      selectedIds := ids;
      companies, isLoading, error, showLimitWarning, activeTab := [], false, None, false, Overview;
    }

    /** The mount effect that inspects the raw slot: it raises the warning when
        more than three ids were stored and otherwise leaves it as it is. */
    method CheckLimit(store: Utils.ComparisonStore)
      modifies this
      ensures showLimitWarning == (old(showLimitWarning) || ShowsLimitWarning(store.slot))
      ensures selectedIds == old(selectedIds) && companies == old(companies) && isLoading == old(isLoading)
      ensures error == old(error) && activeTab == old(activeTab)
    {
      if store.slot.ArrayOf? && |store.slot.items| > 3 {
        showLimitWarning := true;
      }
    }

    /** The five-second timer that hides the warning again. */
    method HideLimitWarning()
      modifies this
      ensures !showLimitWarning
      ensures selectedIds == old(selectedIds) && companies == old(companies) && isLoading == old(isLoading)
      ensures error == old(error) && activeTab == old(activeTab)
    {
      showLimitWarning := false;
    }

    /** The synchronous start of the fetch effect: nothing happens when no ids
        are selected; otherwise loading starts and the error is cleared. */
    method BeginFetch() returns (started: bool)
      modifies this
      ensures started <==> old(selectedIds) != []
      ensures started ==> isLoading && error == None
      ensures !started ==> isLoading == old(isLoading) && error == old(error)
      ensures selectedIds == old(selectedIds) && companies == old(companies)
      ensures showLimitWarning == old(showLimitWarning) && activeTab == old(activeTab)
    {
      if selectedIds == [] {
        return false;
      }
      isLoading := true;
      error := None;
      started := true;
    }

    /** The settling of the fetches, one per selected id in order: when all
        fulfilled the companies become the fetched ones in the order of the
        ids; otherwise the companies are not replaced and the error holds the
        message of the reported rejection. Loading ends either way. */
    method SettleFetch(results: seq<Settled>, first: Rejection)
      requires |results| == |selectedIds|
      requires !AllFulfilled(results) ==> IsRejectionOf(results, first)
      modifies this
      ensures AllFulfilled(results) ==> companies == Companies(results) && error == old(error)
      ensures !AllFulfilled(results) ==> companies == old(companies) && error == Some(ErrorMessage(first))
      ensures AllFulfilled(results) ==> |companies| == |selectedIds|
      ensures !isLoading
      ensures selectedIds == old(selectedIds) && showLimitWarning == old(showLimitWarning) && activeTab == old(activeTab)
    {
      var outcome := PromiseAll(results, first);
      if outcome.AllOf? {
        companies := outcome.companies;
      } else {
        error := Some(ErrorMessage(outcome.reason));
      }
      isLoading := false;
    }

    /** The page compares at most three ids and so holds at most three companies. */
    ghost predicate Valid()
      reads this
    {
      |selectedIds| <= Utils.ComparisonLimit && |companies| <= Utils.ComparisonLimit
    }

    /** The fetch effect from start to settling. */
    method FetchCompanies(results: seq<Settled>, first: Rejection)
      requires Valid()
      requires |results| == |selectedIds|
      requires !AllFulfilled(results) ==> IsRejectionOf(results, first)
      modifies this
      ensures Valid()
      ensures old(selectedIds) == [] ==> companies == old(companies) && error == old(error) && isLoading == old(isLoading)
      ensures old(selectedIds) != [] && AllFulfilled(results) ==> companies == Companies(results) && error == None && !isLoading
      ensures old(selectedIds) != [] && !AllFulfilled(results) ==>
        companies == old(companies) && error == Some(ErrorMessage(first)) && !isLoading
      ensures selectedIds == old(selectedIds) && showLimitWarning == old(showLimitWarning) && activeTab == old(activeTab)
    {
      var started := BeginFetch();
      if started {
        SettleFetch(results, first);
      }
    }

    /** "Clear All": the companies and the error are cleared, the overview tab
        is shown again, and the stored selection is removed (a failing removal
        is ignored). The ids read at mount are kept. */
    method ClearAll(store: Utils.ComparisonStore, writeFails: bool)
      modifies this, store
      ensures companies == [] && error == None && activeTab == Overview
      ensures store.slot == if writeFails then old(store.slot) else Utils.Missing
      ensures selectedIds == old(selectedIds) && isLoading == old(isLoading) && showLimitWarning == old(showLimitWarning)
    {
      companies := [];
      error := None;
      activeTab := Overview;
      store.ClearComparison(writeFails);
    }

    /** A tab button. */
    method SelectTab(t: Tab)
      modifies this
      ensures activeTab == t
      ensures selectedIds == old(selectedIds) && companies == old(companies) && isLoading == old(isLoading)
      ensures error == old(error) && showLimitWarning == old(showLimitWarning)
    {
      activeTab := t;
    }
  }

  /** A mount over a slot that holds more than three ids: three are compared,
      the warning shows, a fetch where every company arrives shows the table,
      and "Clear All" then shows the empty state and empties the selection. */
  method MountFetchClear(stored: seq<string>, results: seq<Settled>) returns (page: CompareState)
    requires |stored| > 3
    requires |results| == 3 && AllFulfilled(results)
    ensures page.companies == [] && ContentOf(page.isLoading, |page.companies|) == EmptyState
  {
    var store := new Utils.ComparisonStore(Utils.ArrayOf(stored));
    page := new CompareState(store);
    page.CheckLimit(store);
    assert page.showLimitWarning;
    assert |page.selectedIds| == 3;
    page.FetchCompanies(results, OtherValue);
    assert ContentOf(page.isLoading, |page.companies|) == ComparisonTable;
    page.ClearAll(store, false);
    assert Utils.ReadIds(store.slot) == [];
  }

  // ---- table labels ----

  /** The partner-type cell: the first solution type, or a dash when there is
      none or it is the empty string. */
  function PartnerTypeLabel(solutionTypes: seq<string>): (r: string)
    ensures r != ""
    ensures solutionTypes != [] && solutionTypes[0] != "" ==> r == solutionTypes[0]
    ensures solutionTypes == [] || solutionTypes[0] == "" ==> r == "—"
  {
    if solutionTypes != [] && solutionTypes[0] != "" then solutionTypes[0] else "—"
  }

  /** The regions cell: the first three countries joined by `, `, or a dash when that is empty. */
  function RegionsLabel(countries: seq<string>): string
  {
    var joined := Join(Take(countries, 3), ", ");
    if joined != "" then joined else "—"
  }

  /** The regions cell is never blank; it is a dash exactly when there is no
      country to show (none, or a single empty one), and it otherwise names
      each of the first three countries. */
  lemma RegionsLabelSpec(countries: seq<string>)
    ensures RegionsLabel(countries) != ""
    ensures countries == [] || countries == [""] ==> RegionsLabel(countries) == "—"
    ensures countries != [] && countries != [""] && (forall k :: 0 <= k < |countries| ==> countries[k] != "—") ==>
      RegionsLabel(countries) != "—"
    ensures countries != [] && countries != [""] ==>
      forall k :: 0 <= k < Min(|countries|, 3) ==> Contains(RegionsLabel(countries), countries[k])
  {
    var shown := Take(countries, 3);
    JoinEmptyIff(shown, ", ");
    JoinContainsParts(shown, ", ");
    if countries != [] && countries != [""] {
      assert shown != [] && shown != [""] by {
        if |countries| > 1 { assert |shown| > 1; }
      }
      if (forall k :: 0 <= k < |countries| ==> countries[k] != "—") {
        if |shown| == 1 {
          assert RegionsLabel(countries) == countries[0];
        } else {
          assert RegionsLabel(countries) == shown[0] + ", " + Join(shown[1..], ", ");
          assert |RegionsLabel(countries)| >= 2;
        }
      }
    }
  }

  /** The pricing cell follows the same rule as the detail page; only the
      currency formatting is not modelled. */
  function PricingCell(c: Partners.Partner): (cell: Partners.PricingLabel)
    ensures cell == Partners.ContactForPricing <==> c.minimumSpend.None?
    ensures cell == Partners.FreePlanAvailable <==> c.minimumSpend == Some(0.0) || c.minimumSpend == Some(-1.0)
  {
    Partners.PricingLabelCases(c.minimumSpend);
    Partners.PricingLabelOf(c.minimumSpend)
  }
}
