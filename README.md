# Upfounders partner directory — a Dafny model of its core

The system is a Next.js front end and API for a directory of Meta business
partners. Visitors browse and filter partner companies, open a detail page,
select up to three partners and compare them side by side. This project models
the logic underneath in Dafny and proves properties of it:

- **The comparison selection.** It is capped at three and kept in session
  storage under `compare.selectedIds` (`Utils.ComparisonStore`). The directory
  keeps its own copy, which is seeded from the `selectedIds` URL parameter and
  changed by the compare toggle (`HomePage`). The grid and the cards gate that
  copy (`PartnerGrid`, `PartnerCard`). The comparison page reads the stored
  selection and fetches all partners at once (`ComparePage`).
- **The infinite-list loader** `useInfinitePartners`, and the whole-list
  loader `useCompanies` (`InfiniteList`).
- **The pure display rules.** These are the API-record transform
  (`PartnerTransform`), the detail page's gallery, locations and pricing label
  (`PartnerDetail`, `Partners`), and the statistics cards (`StatsCards`).
- **The HTTP client.** This covers the choice of base URL and the error
  interceptor (`Api`).
- **The three API route handlers** for companies, consultation requests and
  media (`CompanyRoute`, `ConsultancyRoute`, `MediaRoute`). They share a model
  of query parameters, `parseInt`, the JavaScript number arithmetic behind
  pagination, JSON bodies, destructuring defaults and truthiness (`Requests`).
- **The two small forms**, the newsletter card and the consultation dialog
  (`NewsLetter`, `Consultation`, with the shared checkbox maps in `Flags`).

The browser and JavaScript primitives the code leans on are written out as
helper modules:

- `Text`: `split`, `join`, `trim`, ASCII `toLowerCase`, `includes` and
  `parseInt`.
- `Url`: `encodeURIComponent` and `URLSearchParams`.
- `Seqs`: `slice` and `filter`, with their subsequence facts.

Code that changes state step by step is modelled as classes whose methods
update fields:

- the storage slot;
- the page, card, detail, comparison, hook, newsletter and dialog state.

Expressions are modelled as functions with lemmas.

Everything the code cannot control is a parameter of the operation:

- the outcome of a fetch;
- a storage write that fails;
- the database's rows and failures;
- whether a component unmounted before a fetch settled.

An asynchronous handler is split into the method that starts it and the
method that receives its outcome, so that the loading flags can be observed in
between.

There is one partner record, `Partners.Partner`. The directory's own
`Partner` type lacks `service_models`, `facebook_platforms` and `media`, yet
the card, the statistics and the detail page read them from the API's
`Company` payload. The record holds exactly the fields those consumers read.
The transform's input and output records are separate, in `PartnerTransform`.

In three places the code does less than its names or comments suggest. The
model follows the code:

- The media listing builds a where object from its filters but never passes
  it to the database, so every row is listed.
- The company listing parses `page` but does not slice.
- `hasDisplayableMedia` does not exclude `.ds_store` files (see Findings).

## Model

| member | source | states |
|---|---|---|
| Utils.TruthyClasses | src/lib/utils.ts:2 | `filter(Boolean)` keeps the truthy class names in argument order and with their multiplicities: a string is kept exactly when it is non-empty and some argument names it, and no empty string survives |
| Utils.Cn | src/lib/utils.ts:1-3 | every truthy class name occurs in the combined class attribute |
| Utils.CnEmptyIff | src/lib/utils.ts:1-3 | the combined class attribute is empty exactly when no argument is truthy |
| Utils.CnSplitsBack | src/lib/utils.ts:1-3 | splitting `cn(...)` on spaces gives back the truthy classes in order (single-word classes) |
| Utils.ReadIdsCases | src/lib/utils.ts:8-18 | an absent, unparseable or non-array slot reads as []; an array reads as its first min(n, 3) elements in stored order |
| Utils.ReadIds | src/lib/utils.ts:8-18 | at most three ids are read; an array slot reads as a prefix of its ids, all of them when fewer than three are read |
| Utils.ReadAfterWrite | src/lib/utils.ts:20-24 | after a successful write, reading back gives exactly the first min(n, 3) written ids |
| Utils.Written | src/lib/utils.ts:20-24 | the slot written holds an array of at most three ids that reads back as itself; it is a prefix of the ids given, all of them when there are at most three |
| Utils.ComparisonStore.constructor | src/lib/utils.ts:10 | the store starts with the given slot content |
| Utils.ComparisonStore.GetComparisonIds | src/lib/utils.ts:8-18 | the ids read are the slot's reading and never more than three |
| Utils.ComparisonStore.SetComparisonIds | src/lib/utils.ts:20-27 | a successful write stores the first three ids; a failed write is swallowed and the slot is unchanged |
| Utils.ComparisonStore.AddToComparison | src/lib/utils.ts:29-39 | true exactly when the id is new and fewer than three are stored; the id is then appended at the end; otherwise nothing changes |
| Utils.ComparisonStore.RemoveFromComparison | src/lib/utils.ts:41-48 | true exactly when the id is among those read; every occurrence is then removed; otherwise nothing changes |
| Utils.ComparisonStore.ClearComparison | src/lib/utils.ts:50-56 | the key is removed, so the selection reads as []; a failing removal is swallowed |
| Utils.RemovalKeepsOrder | src/lib/utils.ts:46 | the removal drops every occurrence of the id and keeps the other ids in relative order, with the same multiplicities |
| Utils.SessionAddsFourIds | src/lib/utils.ts:29-39 | in a fresh session, adding four distinct ids stores the first three in order; the fourth addition and a repeated one both report false |
| HomePage.NonEmpty | src/design-system/templates/home-page/HomePage.tsx:37 | `filter(Boolean)` on the split pieces keeps every non-empty piece, in order and as often as it occurs, and drops the empty ones |
| HomePage.NonEmptyKeepsNonEmpty | src/design-system/templates/home-page/HomePage.tsx:37 | a list with no empty piece survives the filter unchanged |
| HomePage.SeedSelection | src/design-system/templates/home-page/HomePage.tsx:34-38 | every seeded id is non-empty and comma-free |
| HomePage.SeedSelectionRoundTrip | src/design-system/templates/home-page/HomePage.tsx:34-38 | a list of non-empty, comma-free ids joined by commas seeds back to the same list |
| HomePage.SeedSelectionPieces | src/design-system/templates/home-page/HomePage.tsx:34-38 | the seeded ids are the non-empty comma-separated pieces of the parameter, in order and with their repetitions |
| HomePage.SeedSelectionKeepsRepeats | src/design-system/templates/home-page/HomePage.tsx:34-38 | a repeated id in the parameter is seeded twice: "a,a" seeds ["a", "a"] |
| HomePage.SeedSelectionNotTruncated | src/design-system/templates/home-page/HomePage.tsx:34-38 | four ids in the parameter seed four ids: the seed is not cut to three |
| HomePage.ToggleComparison | src/design-system/templates/home-page/HomePage.tsx:84-96 | the id is in the new selection exactly when it was absent and fewer than three were selected; every other id keeps its presence and its multiplicity |
| HomePage.ToggleSelectedRemoves | src/design-system/templates/home-page/HomePage.tsx:86-89 | toggling a selected id removes all its occurrences and keeps the rest in order |
| HomePage.ToggleAtCapRefuses | src/design-system/templates/home-page/HomePage.tsx:90-93 | toggling an unselected id at three or more leaves the list unchanged |
| HomePage.ToggleBelowCapAppends | src/design-system/templates/home-page/HomePage.tsx:94 | toggling an unselected id below three appends it at the end |
| HomePage.ToggleTwiceRestores | src/design-system/templates/home-page/HomePage.tsx:84-96 | toggling the same unselected id twice, below the cap, restores the list |
| HomePage.ToggleTwiceMovesSelected | src/design-system/templates/home-page/HomePage.tsx:84-96 | toggling a selected id that is not last twice moves it to the end |
| HomePage.ToggleBounds | src/design-system/templates/home-page/HomePage.tsx:90-94 | a toggle keeps a list of at most three within three, never lengthens a longer one, and keeps a duplicate-free list duplicate-free |
| HomePage.FourTogglesKeepFirstThree | src/design-system/templates/home-page/HomePage.tsx:84-96 | four distinct toggles from [] keep the first three in order |
| HomePage.EmptyFilters | src/design-system/templates/home-page/HomePage.tsx:118-127 | the cleared filters have all five categories empty |
| HomePage.UrlAfterSeedingSpec | src/design-system/templates/home-page/HomePage.tsx:99-107 | the URL is rewritten exactly when `selectedIds` is non-empty; the new URL drops only `selectedIds`, keeps the other pairs in order, and has a `?` exactly when some pair remains |
| HomePage.UrlAfterSeeding | src/design-system/templates/home-page/HomePage.tsx:99-107 | a rewrite happens exactly when `selectedIds` is present and non-empty, and the new URL starts with the current pathname |
| HomePage.HomePageState.constructor | src/design-system/templates/home-page/HomePage.tsx:24-38 | the selection starts as the seeded ids and the filters start empty |
| HomePage.HomePageState.HandleCompareToggle | src/design-system/templates/home-page/HomePage.tsx:84-96 | the selection becomes its toggle and the filters stay |
| HomePage.HomePageState.HandleFiltersChange | src/design-system/templates/home-page/HomePage.tsx:114-116 | the filters are replaced and the selection stays |
| HomePage.HomePageState.HandleClearFilters | src/design-system/templates/home-page/HomePage.tsx:118-127 | the filters become empty and the selection stays |
| InfiniteList.Accumulate | src/hooks/useCompanies.ts:49 | a reset fetch replaces the list; any other fetch appends the page after the existing partners |
| InfiniteList.AccumulateAssociates | src/hooks/useCompanies.ts:49 | two appended pages follow the old list in order, and a reset after them leaves only the new page |
| InfiniteList.InfinitePartners.constructor | src/hooks/useCompanies.ts:34-38 | the hook starts with no partners, page 1, not loading, no more pages and a zero count |
| InfiniteList.InfinitePartners.StartFetch | src/hooks/useCompanies.ts:40-41 | starting a fetch for the current page (page 1 when resetting) raises `loading`, records the request and re-establishes the hook invariant; nothing else changes |
| InfiniteList.InfinitePartners.Resolve | src/hooks/useCompanies.ts:42-54 | success replaces or extends the list and overwrites `hasMore` and `totalCount`; failure changes none of them; `loading` ends false either way; the mode settled is that of some recorded request |
| InfiniteList.InfinitePartners.FetchPage | src/hooks/useCompanies.ts:40-55 | a complete `fetchPage` for the current page (page 1 when resetting, as both call sites in the hook pass) combines the two steps, and the page number is untouched |
| InfiniteList.InfinitePartners.InputsChanged | src/hooks/useCompanies.ts:58-62 | new inputs empty the list, set page 1 and request page 1 in reset mode |
| InfiniteList.InfinitePartners.LoadMore | src/hooks/useCompanies.ts:64-69 | nothing happens while loading or without more pages; otherwise the page advances by one before page+1 is requested in append mode |
| InfiniteList.ResetAfterTwoPages | src/hooks/useCompanies.ts:40-69 | two loaded pages and a later input change leave exactly the new first page, after the requests 1 (reset), 2, 1 (reset) |
| InfiniteList.StaleResponseWins | src/hooks/useCompanies.ts:40-62 | with no generation guard, an older fetch that settles last overwrites the newer page |
| InfiniteList.AllPartners.constructor | src/hooks/useCompanies.ts:6-7 | the whole-list hook starts empty and not loading |
| InfiniteList.AllPartners.Load | src/hooks/useCompanies.ts:9-24 | after unmounting, only the loading flag's rise is visible; otherwise success installs the list and loading ends false |
| PartnerTransform.Truncate | src/design-system/templates/home-page/utils.ts:102-104 | a string is kept when it fits; otherwise it becomes its first `max` characters plus `...` |
| PartnerTransform.GetPartnerType | src/design-system/templates/home-page/utils.ts:41-45 | the type is one of the three labels, and "Solution Partner" whenever SAAS is listed |
| PartnerTransform.PartnerTypeCases | src/design-system/templates/home-page/utils.ts:41-45 | SAAS gives "Solution Partner"; otherwise MANAGED or PROJECT_BASED gives "Tech Provider"; anything else gives "Tech Partner" (each an iff) |
| PartnerTransform.GetPricing | src/design-system/templates/home-page/utils.ts:82-87 | the pricing is one of the four lines, and the SaaS line exactly when the type is "Solution Partner" |
| PartnerTransform.PricingPriority | src/design-system/templates/home-page/utils.ts:82-87 | the pricing line follows the priority SAAS, MANAGED, PROJECT_BASED, then the default (each an iff) |
| PartnerTransform.TypeAndPricingAgree | src/design-system/templates/home-page/utils.ts:41-87 | the type is "Solution Partner" exactly when the pricing is the SaaS line, and "Tech Partner" exactly when it is the default |
| PartnerTransform.GetLocation | src/design-system/templates/home-page/utils.ts:48-52 | the location line is blank exactly when there are no countries or a single blank one |
| PartnerTransform.LocationNamesShownCountries | src/design-system/templates/home-page/utils.ts:48-52 | over ten countries the line is "Global"; up to ten it contains each of the first three, and past three a decimal count that reads back as the number of the others |
| PartnerTransform.GetKeyFeatures | src/design-system/templates/home-page/utils.ts:55-59 | at most four features, each the focus area truncated to 30 characters plus `...`, so each is at most 33 long |
| PartnerTransform.KeyFeaturesOf | src/design-system/templates/home-page/utils.ts:56-58 | each area maps to its own truncation, in order |
| PartnerTransform.MoreFeatures | src/design-system/templates/home-page/utils.ts:106 | the shown key features and the omitted count add up to the number of focus areas |
| PartnerTransform.ServiceName | src/design-system/templates/home-page/utils.ts:63-78 | a tabled industry gets its table name; any other gets its underscores replaced by spaces plus " Solutions" |
| PartnerTransform.GetServices | src/design-system/templates/home-page/utils.ts:76-78 | the services are the names of the first three industries, in order |
| PartnerTransform.ServicesOf | src/design-system/templates/home-page/utils.ts:76-78 | each industry maps to its own service name, in order |
| PartnerTransform.MoreServices | src/design-system/templates/home-page/utils.ts:110 | the shown services and the omitted count add up to the number of industries |
| PartnerTransform.ServiceNamesNonEmpty | src/design-system/templates/home-page/utils.ts:76-78 | no service label is empty |
| PartnerTransform.PlatformLabel | src/design-system/templates/home-page/utils.ts:99-101 | no label is `WHATSAPP`, and every other platform is its own label |
| PartnerTransform.DisplayPlatforms | src/design-system/templates/home-page/utils.ts:99-101 | the platforms keep their length and order, each mapped on its own |
| PartnerTransform.DisplayPlatformsSpec | src/design-system/templates/home-page/utils.ts:99-101 | no `WHATSAPP` remains, every other platform is kept, and mapping twice changes nothing |
| PartnerTransform.LeadingDigits | src/design-system/templates/home-page/utils.ts:95 | the length of the maximal run of leading decimal digits |
| PartnerTransform.StripLeadingNumber | src/design-system/templates/home-page/utils.ts:95 | the result is a suffix of the name; a name without a leading digit is kept; otherwise something is removed and what remains does not start with white space |
| PartnerTransform.StripLeadingNumberShape | src/design-system/templates/home-page/utils.ts:95 | what is removed is digits followed by white space, the longest such prefix: what remains starts with neither a space nor, straight after the digits, a digit |
| PartnerTransform.StrippedNumber | src/design-system/templates/home-page/utils.ts:95 | what is removed is digits followed by white space, and what remains starts with neither |
| PartnerTransform.StrippedSuffix | src/design-system/templates/home-page/utils.ts:95 | removing the digits and the white space after them leaves a proper suffix |
| PartnerTransform.StrippedWhitespace | src/design-system/templates/home-page/utils.ts:95 | the part removed after the digits is white space |
| PartnerTransform.StrippedShape | src/design-system/templates/home-page/utils.ts:95 | digits followed by white space form a prefix of digits or white space, in which no digit follows a space |
| PartnerTransform.DisplayName | src/design-system/templates/home-page/utils.ts:95 | the displayed name is no longer than the raw one and neither starts nor ends with white space |
| PartnerTransform.DisplayNameWithoutNumber | src/design-system/templates/home-page/utils.ts:95 | a name without a leading digit is only trimmed |
| PartnerTransform.StripsOneRun | src/design-system/templates/home-page/utils.ts:95 | only the first digit run is removed: "1 2X" becomes "2X" |
| PartnerTransform.Transform | src/design-system/templates/home-page/utils.ts:93-115 | id, website, image and badge are copied; the type, pricing, location, key features, services, platforms and description are those of their rules (partner type, pricing, location, the first four truncated focus areas, the first three service names, the WhatsApp relabelling, and truncation to 150 plus `...`), so the shown and omitted features and services add up to the input counts, the description is at most 153 long and unchanged when it fits, and the platforms keep their count; the name is the number-stripped, trimmed display name |
| PartnerTransform.TransformName | src/design-system/templates/home-page/utils.ts:95 | the transformed name neither starts nor ends with white space |
| Partners.PricingLabelOf | src/design-system/templates/partner-detail/PartnerDetailPage.tsx:405-413 | a minimum-spend label carries the stored amount, which is neither 0 nor -1; "contact for pricing" exactly when no number is stored |
| Partners.PricingLabelCases | src/design-system/templates/partner-detail/PartnerDetailPage.tsx:405-413 | 0 or -1 gives the free-plan label, any other number the minimum-spend label with that amount, and a non-number "contact for pricing" (each an iff) |
| PartnerCard.GetTypeVariant | src/design-system/Molecules/PartnerCard.tsx:24-35 | a badge is outlined exactly when the type is none of the three partner types |
| PartnerCard.TypeVariantCases | src/design-system/Molecules/PartnerCard.tsx:24-35 | each partner type has its own variant and every other string, such as the raw service models, is outlined |
| PartnerCard.TransformedTypeIsNotOutlined | src/design-system/Molecules/PartnerCard.tsx:24-35 | the type the transform computes never falls to the outline variant |
| PartnerCard.Overflow | src/design-system/Molecules/PartnerCard.tsx:141-143 | "+N more" appears exactly past three items, with N = count − 3 |
| PartnerCard.FocusAreasView | src/design-system/Molecules/PartnerCard.tsx:134-146 | "Not available" exactly for no areas; otherwise up to three areas truncated to 30 plus `...`, with the overflow label |
| PartnerCard.TruncatedChips | src/design-system/Molecules/PartnerCard.tsx:136-138 | each chip is its area's own truncation, in order |
| PartnerCard.CountriesView | src/design-system/Molecules/PartnerCard.tsx:158-170 | "Not available" exactly for no countries; otherwise the first three unchanged, with the overflow label |
| PartnerCard.IndustriesView | src/design-system/Molecules/PartnerCard.tsx:182-206 | the first three when collapsed and all when expanded; the expand toggle exists exactly past three |
| PartnerCard.CollapsedViewsArePrefixes | src/design-system/Molecules/PartnerCard.tsx:158-206 | the shown chips are a prefix of the list, and the shown and counted chips add up to its length |
| PartnerCard.CardState.constructor | src/design-system/Molecules/PartnerCard.tsx:22-23 | a card starts unselected and collapsed |
| PartnerCard.CardState.ClickCompare | src/design-system/Molecules/PartnerCard.tsx:219-224 | a disabled click changes nothing and calls nothing; any other click sets the flag to the opposite of `isSelected` and calls the toggle once with the id |
| PartnerCard.CardState.ToggleIndustries | src/design-system/Molecules/PartnerCard.tsx:191 | the industry toggle flips only the expansion flag |
| PartnerCard.DisabledReadsCompare | src/design-system/Molecules/PartnerCard.tsx:224-228 | a disabled button reads "Compare", and the label is "Remove" exactly when the card is selected |
| PartnerGrid.ProgressDots | src/design-system/Molecules/PartnerGrid.tsx:114-118 | three dots, the i-th filled exactly when i is below the selection size |
| PartnerGrid.FilledDotsCount | src/design-system/Molecules/PartnerGrid.tsx:32 | the filled dots number min(n, 3) |
| PartnerGrid.SelectionSummary | src/design-system/Molecules/PartnerGrid.tsx:51-54 | the summary appears exactly when something is selected |
| PartnerGrid.CompareAllowed | src/design-system/Molecules/PartnerGrid.tsx:58-61 | comparison is allowed only when the selection summary is shown and every selected id has a filled dot (at most three ids) |
| PartnerGrid.CompareSuffix | src/design-system/Molecules/PartnerGrid.tsx:65 | the button suffix is empty exactly when comparison is allowed |
| PartnerGrid.CompareHint | src/design-system/Molecules/PartnerGrid.tsx:135 | the floating hint invites a click exactly when comparison is allowed, and asks for at least 2 or allows at most 3 exactly when the main link shows "(min 2)" or "(max 3)" |
| PartnerGrid.CompareMessagesMatchGate | src/design-system/Molecules/PartnerGrid.tsx:54-65 | the suffix is empty and the hint invites a click exactly when 2 ≤ n ≤ 3; the suffix is "(min 2)" below 2 and "(max 3)" above 3; the word is "partner" exactly for 1 |
| PartnerGrid.DisabledMeansFull | src/design-system/Molecules/PartnerGrid.tsx:31-32 | selection is disabled exactly when all three dots are filled, and a new id cannot then be added |
| PartnerGrid.DigitsHaveNoQuote | src/design-system/Molecules/PartnerGrid.tsx:38-49 | a printed count contains no quotation mark |
| PartnerGrid.ResultsLine | src/design-system/Molecules/PartnerGrid.tsx:38-49 | the results line appears exactly when nothing is selected, and then starts with "Showing " and the shown count |
| PartnerGrid.ResultsLineSpec | src/design-system/Molecules/PartnerGrid.tsx:38-49 | the line appears exactly when nothing is selected; it starts with "Showing " and the shown count, contains " of N" for a positive total, and quotes the query exactly when its trimmed form is non-empty |
| PartnerGrid.FooterOf | src/design-system/Molecules/PartnerGrid.tsx:86-108 | the footer shown is chosen by the spinner, load-more and end-of-list conditions (each an iff) |
| PartnerGrid.FooterExclusive | src/design-system/Molecules/PartnerGrid.tsx:86-108 | no two of the three footer conditions hold at once |
| PartnerGrid.CompareNowClicked | src/design-system/Molecules/PartnerGrid.tsx:58-62 | navigation happens exactly for 2 to 3 partners; a blocked click writes nothing; an allowed click stores the selection, and a failing write is swallowed |
| PartnerGrid.ComparisonReadsSelection | src/design-system/Molecules/PartnerGrid.tsx:62 | after an allowed click, the comparison page reads the exact selection |
| PartnerGrid.SelectThroughCard | src/design-system/Molecules/PartnerGrid.tsx:77-80 | clicking an unselected card below the cap appends its id to the page's selection, and the card then shows as selected |
| PartnerDetail.FilterDisplayable | src/design-system/templates/partner-detail/PartnerDetailPage.tsx:70-77 | the gallery keeps exactly the items with a non-blank URL, no LOGO tag and no `.ds_store` in the lower-cased URL |
| PartnerDetail.FilterDisplayableIsSubsequence | src/design-system/templates/partner-detail/PartnerDetailPage.tsx:70-77 | the kept items keep their original order |
| PartnerDetail.FilterDisplayableIdempotent | src/design-system/templates/partner-detail/PartnerDetailPage.tsx:70-77 | filtering again changes nothing |
| PartnerDetail.DisplayableMedia | src/design-system/templates/partner-detail/PartnerDetailPage.tsx:68-78 | no media gives []; an item is listed exactly when the partner has it and it is displayable |
| PartnerDetail.DisplayableMediaSpec | src/design-system/templates/partner-detail/PartnerDetailPage.tsx:68-78 | no media gives []; otherwise the result is exactly the displayable items, in order |
| PartnerDetail.HasDisplayableMedia | src/design-system/templates/partner-detail/PartnerDetailPage.tsx:81-88 | the check passes only for a non-empty media list, and whenever the gallery list is non-empty |
| PartnerDetail.DisplayableImpliesHas | src/design-system/templates/partner-detail/PartnerDetailPage.tsx:68-88 | a non-empty gallery list implies that the gallery check passes |
| PartnerDetail.EmptyGalleryShown | src/design-system/templates/partner-detail/PartnerDetailPage.tsx:81-88 | an item whose URL contains `.ds_store` passes the gallery check with nothing to show |
| PartnerDetail.EmptyGalleryExample | src/design-system/templates/partner-detail/PartnerDetailPage.tsx:81-88 | a single `.DS_Store` upload tagged MEDIA shows an empty gallery |
| PartnerDetail.GalleryShownSpec | src/design-system/templates/partner-detail/PartnerDetailPage.tsx:339 | the corrected check shows the gallery exactly when it has an item; it implies the written check, and agrees with it when no showable item is a `.ds_store` file |
| PartnerDetail.Locations | src/design-system/templates/partner-detail/PartnerDetailPage.tsx:284-316 | "Global" exactly for no countries; otherwise three collapsed or all expanded, with a "+N More" toggle exactly past three |
| PartnerDetail.AddToComparisonTarget | src/design-system/templates/partner-detail/PartnerDetailPage.tsx:202 | a navigation target exists exactly for a non-empty id |
| PartnerDetail.AddToComparisonSeedsId | src/design-system/templates/partner-detail/PartnerDetailPage.tsx:202 | an id of unreserved characters is carried unchanged and seeds the directory's selection with exactly that id |
| PartnerDetail.ViewOf | src/design-system/templates/partner-detail/PartnerDetailPage.tsx:130-145 | loading wins; then no partner gives the not-found view; otherwise the partner is shown |
| PartnerDetail.DetailState.constructor | src/design-system/templates/partner-detail/PartnerDetailPage.tsx:16-19 | the page starts loading, with no partner, on the overview tab, with locations collapsed |
| PartnerDetail.DetailState.FetchEffect | src/design-system/templates/partner-detail/PartnerDetailPage.tsx:22-52 | no id does nothing; a cancelled fetch only raises loading; a settled fetch installs the partner or null and ends loading |
| PartnerDetail.DetailState.ToggleLocations | src/design-system/templates/partner-detail/PartnerDetailPage.tsx:294 | only the location expansion flips |
| PartnerDetail.FetchThenView | src/design-system/templates/partner-detail/PartnerDetailPage.tsx:22-52 | a failed fetch shows not-found and a successful one shows its partner |
| ComparePage.LimitWarningMeansTruncated | src/design-system/templates/compare-page/ComparePage.tsx:21-36 | the warning shows exactly when the stored array is longer than the ids read, which are then three; a parse error or non-array shows none |
| ComparePage.Companies | src/design-system/templates/compare-page/ComparePage.tsx:44-47 | all fulfilled results give the companies in id order |
| ComparePage.PromiseAll | src/design-system/templates/compare-page/ComparePage.tsx:44-47 | the companies exactly when every fetch succeeded; otherwise one of the rejections |
| ComparePage.OneFailureRejectsAll | src/design-system/templates/compare-page/ComparePage.tsx:44-50 | a single failed fetch rejects the whole comparison |
| ComparePage.SettledOf | src/services/api.ts:102-110 | a delivered response fulfils with the company; a failure rejects with an Error value, so the page reports the interceptor's message and never the "Failed to load companies" fallback |
| ComparePage.ErrorMessage | src/design-system/templates/compare-page/ComparePage.tsx:49 | the message shown is blank only for an Error whose own message is blank |
| ComparePage.ClientErrorsReachThePage | src/design-system/templates/compare-page/ComparePage.tsx:48-50 | a 404 shows "Company not found", a 5xx the server message, and any other error that is not a timeout its own message |
| ComparePage.ContentOf | src/design-system/templates/compare-page/ComparePage.tsx:115-300 | the loading panel exactly while loading, then the table exactly when there are companies, else the empty state |
| ComparePage.CompareState.constructor | src/design-system/templates/compare-page/ComparePage.tsx:12-19 | the ids are the store's reading at mount, at most three; the page starts empty, not loading, without error or warning, on the overview tab |
| ComparePage.CompareState.CheckLimit | src/design-system/templates/compare-page/ComparePage.tsx:21-36 | the warning goes up when the stored array is longer than three, and nothing else changes |
| ComparePage.CompareState.HideLimitWarning | src/design-system/templates/compare-page/ComparePage.tsx:30 | the auto-hide clears only the warning |
| ComparePage.CompareState.BeginFetch | src/design-system/templates/compare-page/ComparePage.tsx:39-42 | a fetch starts exactly when ids were read, raising loading and clearing the error |
| ComparePage.CompareState.SettleFetch | src/design-system/templates/compare-page/ComparePage.tsx:43-53 | all fulfilled installs the companies; any rejection keeps them and sets the error message; loading ends false either way |
| ComparePage.CompareState.FetchCompanies | src/design-system/templates/compare-page/ComparePage.tsx:38-56 | no ids means no change; otherwise all-or-nothing installation with loading ended |
| ComparePage.CompareState.ClearAll | src/design-system/templates/compare-page/ComparePage.tsx:62-68 | companies [], no error, the overview tab, and the stored selection removed |
| ComparePage.CompareState.SelectTab | src/design-system/templates/compare-page/ComparePage.tsx:131-160 | a tab click changes only the active tab |
| ComparePage.MountFetchClear | src/design-system/templates/compare-page/ComparePage.tsx:12-68 | with more than three stored ids, mounting, fetching three companies and clearing all leave no companies and the empty state |
| ComparePage.PartnerTypeLabel | src/design-system/templates/compare-page/ComparePage.tsx:181 | the first solution type when it is non-empty, otherwise "—"; never blank |
| ComparePage.RegionsLabelSpec | src/design-system/templates/compare-page/ComparePage.tsx:185 | never blank; "—" for no countries (or one empty one); otherwise it contains each of the first three |
| ComparePage.PricingCell | src/design-system/templates/compare-page/ComparePage.tsx:239-243 | the same free-plan, minimum-spend and contact rule as the detail page |
| StatsCards.FlatMapMembers | src/design-system/Molecules/StatsCards.tsx:41 | a string is in the flattened list exactly when some partner's list holds it |
| StatsCards.DistinctBound | src/design-system/Molecules/StatsCards.tsx:41 | a set of the list's strings is no larger than the list |
| StatsCards.SaasCount | src/design-system/Molecules/StatsCards.tsx:38 | the SaaS count never exceeds the number of partners |
| StatsCards.StatsOf | src/design-system/Molecules/StatsCards.tsx:35-44 | the total is the list length; SaaS ≤ total; each unique count is at most the flattened length |
| StatsCards.EmptyStats | src/design-system/Molecules/StatsCards.tsx:35-44 | all four statistics are 0 for no partners |
| StatsCards.UniquePlatformsSpec | src/design-system/Molecules/StatsCards.tsx:41 | a platform is counted exactly when some partner lists it |
| StatsCards.SaasCountRemove | src/design-system/Molecules/StatsCards.tsx:38 | removing one partner lowers the SaaS count by its own contribution |
| StatsCards.SaasCountPermutation | src/design-system/Molecules/StatsCards.tsx:38 | reordering the partners does not change the SaaS count |
| StatsCards.DistinctPermutation | src/design-system/Molecules/StatsCards.tsx:41-44 | reordering the partners does not change the set of platforms or countries |
| StatsCards.StatsIgnoreOrder | src/design-system/Molecules/StatsCards.tsx:35-44 | all four statistics are independent of partner order |
| Api.Normalized | src/services/api.ts:6 | exactly one trailing slash is removed; any other URL is unchanged |
| Api.NormalizedUndoesSlash | src/services/api.ts:6 | appending a slash and normalising gives the URL back; of two slashes only one goes |
| Api.BaseUrl | src/services/api.ts:4-7 | a non-empty configured base is used, else the origin, each with at most one trailing slash dropped; with neither the base is "" |
| Api.BaseUrlChoice | src/services/api.ts:4-7 | a non-empty configured base wins; otherwise the origin, or "" outside a browser; then normalised |
| Api.Intercept | src/services/api.ts:35-48 | a rethrown error is the original; a replacing message is one of the three fixed messages; a 404 or 5xx status always replaces, and never with the timeout message |
| Api.InterceptCases | src/services/api.ts:35-48 | 404 first, then ≥ 500, then ECONNABORTED each get their message (each an iff); everything else is rethrown unchanged |
| Api.StatusOutranksCode | src/services/api.ts:39-44 | a 404 or server status outranks a timeout code |
| Api.Call | src/services/api.ts:19-49 | only a response is delivered, unchanged; a failure throws one of the three fixed messages or the error's own message |
| Requests.ParamOr | src/app/api/consultancy/route.ts:8-9 | `get(name) || fallback` is the fallback or the value of the parameter, and blank only when the fallback is |
| Requests.FilterParam | src/app/api/consultancy/route.ts:15-18 | a constraint value is non-empty and comes from a pair with that name; without such a pair there is no constraint |
| Requests.FromParsed | src/app/api/company/route.ts:8 | `parseInt` never yields an infinity |
| Requests.NumberParamDefault | src/app/api/company/route.ts:8 | an absent or empty parameter (`get(name) || fallback`) reads as the default's value |
| Requests.NumberParamReadsCount | src/app/api/company/route.ts:8 | a parameter written as a decimal count is a number with that count |
| Requests.CeilDiv | src/app/api/consultancy/route.ts:36 | the least integer r with a ≤ r·b for positive b, and the mirrored bound for negative b |
| Requests.TruthyCases | src/app/api/company/route.ts:78 | exactly undefined, null, false, 0 and "" are falsy |
| Seqs.Filter | src/app/api/company/route.ts:14-28 | the selected rows are exactly the rows that satisfy the test, never more than there were |
| Seqs.FilterIsSubsequence | src/app/api/company/route.ts:26-28 | the selection keeps table order |
| CompanyRoute.Get | src/app/api/company/route.ts:5-51 | failure gives the 500 message; otherwise the listing is the filter of the rows by the where object, so exactly the matching rows in table order with their repetitions, their count under the same where object, and the parsed page with its "1" default |
| Seqs.FilterKeepsAll | src/app/api/company/route.ts:26-28 | when every row passes, all rows are selected in order |
| CompanyRoute.NoFiltersListsAll | src/app/api/company/route.ts:14-24 | with no filter parameter every row is listed |
| CompanyRoute.PageDoesNotSlice | src/app/api/company/route.ts:26-44 | adding a page parameter changes neither the companies nor the total |
| CompanyRoute.ExtraFilterNarrows | src/app/api/company/route.ts:14-23 | one more filter parameter can only narrow the listing |
| CompanyRoute.Post | src/app/api/company/route.ts:55-114 | created exactly for a destructurable body with a truthy name and description whose create succeeds; 400 exactly when a destructurable body lacks one; otherwise 500 "Failed to create company"; created data has the body's name and description |
| CompanyRoute.PostValidation | src/app/api/company/route.ts:55-114 | 400 exactly when a JSON object body lacks a truthy name or description; a non-JSON or null body gives 500; created data has both truthy |
| CompanyRoute.PostDefaults | src/app/api/company/route.ts:57-104 | each of the nine list fields defaults to [] when missing, `is_badged` to false and `typename` to "company"; a present `countries`, even an explicit null, the name and the description are kept; the id is passed exactly when truthy |
| ConsultancyRoute.WhereOf | src/app/api/consultancy/route.ts:15-18 | the business-type and interest-media constraints are present exactly when their parameters are non-empty |
| ConsultancyRoute.PageDefault | src/app/api/consultancy/route.ts:8 | a missing page reads as 1 |
| ConsultancyRoute.LimitDefault | src/app/api/consultancy/route.ts:9 | a missing limit reads as 10 |
| ConsultancyRoute.DefaultQuery | src/app/api/consultancy/route.ts:8-25 | without parameters the query skips 0 and takes 10 |
| Requests.Sub | src/app/api/consultancy/route.ts:13 | a difference is an integer exactly when both sides are, and x − x is 0 for an integer and NaN otherwise |
| Requests.Mul | src/app/api/consultancy/route.ts:13 | a product is an integer exactly when both factors are, and an infinite product needs a non-integer factor |
| Requests.CeilQuotient | src/app/api/consultancy/route.ts:36 | for a positive limit the page count is the least non-negative number of pages holding every match; it is written as null exactly for a NaN or zero limit |
| ConsultancyRoute.PageArithmetic | src/app/api/consultancy/route.ts:13-38 | skip is (p − 1)·l, and the page count written out is the least number of pages of l that holds every match |
| ConsultancyRoute.BadLimit | src/app/api/consultancy/route.ts:9-38 | a limit that does not parse makes skip NaN and the page count null in the JSON; a zero limit also makes the page count null |
| ConsultancyRoute.PageRows | src/app/api/consultancy/route.ts:21-26 | a page window has min(take, rows left) rows, taken from skip onward in order |
| ConsultancyRoute.WindowsTile | src/app/api/consultancy/route.ts:21-26 | two consecutive windows make one window twice as long |
| ConsultancyRoute.PagesTile | src/app/api/consultancy/route.ts:13-26 | consecutive pages follow on with neither gap nor overlap |
| ConsultancyRoute.Get | src/app/api/consultancy/route.ts:5-46 | failure gives the 500 message; a call that does not fail with a non-negative skip and take lists, and any listing has such a window; the listed rows are exactly the window [skip, skip + take) of the matching rows in table order; the total counts all matches; the pagination is computed from that total |
| ConsultancyRoute.Post | src/app/api/consultancy/route.ts:49-80 | created exactly for a destructurable body with all five required fields truthy whose create succeeds; 400 exactly when a destructurable body lacks one; otherwise 500 "Failed to create consultation request"; created data has the body's name and query |
| ConsultancyRoute.PostValidation | src/app/api/consultancy/route.ts:52-70 | 400 exactly when a required field is falsy; created data carries the body's values, with `interest_media` defaulting to [] |
| ConsultancyRoute.NameAloneIsRefused | src/app/api/consultancy/route.ts:54-59 | a body with only a name is refused |
| MediaRoute.WhereOf | src/app/api/media/route.ts:14-18 | each of the three constraints is present exactly when its parameter is non-empty |
| MediaRoute.Get | src/app/api/media/route.ts:5-52 | failure gives the 500 message; otherwise the listed media are exactly the rows in table order, all counted, with the parsed page |
| MediaRoute.FiltersIgnored | src/app/api/media/route.ts:14-35 | the filters have no effect: a row they exclude is still listed, whatever the other parameters |
| MediaRoute.Post | src/app/api/media/route.ts:55-93 | created exactly for a destructurable body with all four fields truthy whose create succeeds; 400 exactly when a destructurable body lacks one; otherwise 500 "Failed to create media content"; created data has the body's four values |
| MediaRoute.PostValidation | src/app/api/media/route.ts:58-73 | 400 exactly when one of the four fields is falsy; the created record holds exactly those four values, whatever else the body carries |
| Flags.Flipped | src/design-system/Molecules/NewsLetterCard.tsx:22-23 | only the named flag is written, to the negation of its value (a missing flag counts as false) |
| Flags.FlippedChangesOnlyName | src/design-system/Molecules/NewsLetterCard.tsx:22-23 | flipping changes the named flag's reading and no other |
| Flags.FlippedTwice | src/design-system/Molecules/ConsultationDialog.tsx:47-55 | flipping the same flag twice restores every reading |
| NewsLetter.NewsLetterCard.constructor | src/design-system/Molecules/NewsLetterCard.tsx:19-20 | the card starts with no address and nothing selected, so Subscribe is disabled |
| NewsLetter.NewsLetterCard.Toggle | src/design-system/Molecules/NewsLetterCard.tsx:22-23 | `toggle(id)` flips only that category's checkbox and keeps the address |
| NewsLetter.NewsLetterCard.SetEmail | src/design-system/Molecules/NewsLetterCard.tsx:36-37 | typing an address leaves the selection as it was |
| NewsLetter.SubscribeEnabledIff | src/design-system/Molecules/NewsLetterCard.tsx:62 | Subscribe is enabled exactly when some category is checked |
| NewsLetter.ToggleTwiceRestores | src/design-system/Molecules/NewsLetterCard.tsx:22-48 | toggling a category twice restores every checkbox and the button state |
| Consultation.InitialFormSpec | src/design-system/Molecules/ConsultationDialog.tsx:12-26 | the texts start empty, the size "Not specified", and only the general platform is checked |
| Consultation.WithValue | src/design-system/Molecules/ConsultationDialog.tsx:39-45 | the named input takes the value; the other inputs and the platforms stay |
| Consultation.Dialog.constructor | src/design-system/Molecules/ConsultationDialog.tsx:12-29 | the dialog opens with the initial form, neither submitting nor submitted |
| Consultation.Dialog.HandleInputChange | src/design-system/Molecules/ConsultationDialog.tsx:39-45 | only the named input changes |
| Consultation.Dialog.HandlePlatformChange | src/design-system/Molecules/ConsultationDialog.tsx:47-55 | only the named platform flips |
| Consultation.Dialog.HandleClose | src/design-system/Molecules/ConsultationDialog.tsx:89-93 | the dialog closes exactly when no submission is under way |
| Consultation.Dialog.BeginSubmit | src/design-system/Molecules/ConsultationDialog.tsx:57-59 | submission raises the submitting flag, and the form is kept |
| Consultation.Dialog.FinishSubmit | src/design-system/Molecules/ConsultationDialog.tsx:64-65 | the flag drops and the confirmation shows |
| Consultation.Dialog.ResetAfterSubmit | src/design-system/Molecules/ConsultationDialog.tsx:68-86 | the confirmation goes, the form becomes exactly the initial form, and the dialog closes |
| Consultation.SubmitCycle | src/design-system/Molecules/ConsultationDialog.tsx:57-93 | closing is refused mid-submission; the cycle ends with the initial form, the flags down and the dialog closed |
| Consultation.EditsCompose | src/design-system/Molecules/ConsultationDialog.tsx:39-55 | a text edit followed by a checkbox flip keeps both, and the other fields stay |
| Text.JoinEmptyIff | src/lib/utils.ts:2 | with a non-empty separator, a join is empty exactly when there are no parts or one empty part |
| Text.JoinContainsParts | src/design-system/templates/compare-page/ComparePage.tsx:185 | a join contains each of its parts |
| Text.Split | src/design-system/templates/home-page/HomePage.tsx:37 | a split gives at least one piece, and no piece contains the separator |
| Text.SplitJoin | src/design-system/templates/home-page/HomePage.tsx:37 | splitting a join of separator-free parts gives the parts back |
| Text.JoinSplit | src/design-system/templates/home-page/HomePage.tsx:37 | joining the pieces of a split gives the string back |
| Text.Trim | src/design-system/templates/partner-detail/PartnerDetailPage.tsx:71 | the trimmed string is an infix that neither starts nor ends with white space |
| Text.ToLower | src/design-system/templates/partner-detail/PartnerDetailPage.tsx:75 | lower-casing keeps the length and maps each character on its own |
| Text.ParseInt | src/app/api/company/route.ts:8 | a number is parsed only from text with a decimal digit, and a negative one only from text with a minus sign |
| Text.ParseIntNatToString | src/app/api/company/route.ts:8 | `parseInt` of a printed count gives the count back |
| Url.EncodeUriComponent | src/design-system/templates/partner-detail/PartnerDetailPage.tsx:202 | the encoding consists only of unreserved characters, `%` and upper-case hex digits |
| Url.EncodeUriComponentUnreserved | src/design-system/templates/partner-detail/PartnerDetailPage.tsx:202 | encoding leaves a string of unreserved characters unchanged |
| Url.GetParam | src/design-system/templates/home-page/HomePage.tsx:35 | nothing exactly when no pair has that name; otherwise the value of the first pair with that name |
| Url.DeleteParam | src/design-system/templates/home-page/HomePage.tsx:103 | no pair with the name remains, and a pair remains exactly when it was there under another name |
| Url.DeleteParamIsSubsequence | src/design-system/templates/home-page/HomePage.tsx:103 | the pairs left after deleting a name keep their original order |
| Url.Serialize | src/design-system/templates/home-page/HomePage.tsx:104 | the query text contains the text of every pair |
| Url.SerializeEmptyIff | src/design-system/templates/home-page/HomePage.tsx:104 | the serialized query is empty exactly when there are no pairs |
| Url.SerializeHasNoQuestionMark | src/design-system/templates/home-page/HomePage.tsx:104 | the serialized query contains no `?` |

## Left out

- The hard-coded JSON imports in `home-page/utils.ts` are data loading, not logic.
- `getPartners`, `getPaginatedPartners`, `PRIORITY_COMPANIES` and `FilterOptions` are imported but their bodies are not part of this model. The page fetcher's result is a parameter, and the five filter categories are a record with no filtering semantics.
- The random rating and review count (`Math.random`) are nondeterministic and not part of the transformed record.
- Currency formatting with `Intl.NumberFormat` is left out: the pricing label carries the amount rather than its formatted text. A `minimum_spend` that is NaN or infinite is not distinguished from other numbers.
- Axios and Prisma calls are I/O. Each call's outcome is a parameter: the table's rows in the order the database returns them, and a flag for a failed call.
- The determination of that row order is left out: `orderBy` and the database's own filtering are modelled by the rows given and by `Seqs.Filter`.
- Prisma's validation of body types (a string where a list is expected, say) is not modelled; it is part of the failed-create flag.
- ConsultancyRoute.Get: a page or limit under which skip or take is NaN or negative is modelled as a failed database call. The rows Prisma would return for a fractional or huge value are not modelled.
- ConsultancyRoute.Get: the listing is stated as a window of the matching rows in the order the rows parameter gives. That order stands for the database's `created_at` ordering, which is not modelled.
- The media routes' `campany` include is not modelled; its effect on the query is part of the failure flag.
- `console` logging in the interceptors and routes is not modelled.
- The request interceptor is an identity on the configuration, as `Api.Call` states. Its logging is not modelled.
- `NextResponse` objects are modelled as response datatypes with the status given by a function.
- Router navigation (`router.push`, `router.replace`) is modelled as the target URL only.
- `window.open`, the scroll listener and the retry interval of the directory page are left out, as are the lightbox and tab rendering.
- Timers are not modelled as time. The 5-second auto-hide of the limit warning and the 1.5-second and 3-second steps of the consultation dialog are separate methods called in sequence.
- Async interleaving is modelled only as explicit start and settle steps. As in the source, no generation guard is added, and `StaleResponseWins` shows the consequence.
- PromiseAll: which rejection is reported when several fetches fail depends on timing, so it is a parameter constrained to be one of the rejections.
- Session storage holds text. The model keeps the parsed shape (missing, malformed, not an array, or an array of ids); arrays of non-strings are modelled as arrays of strings.
- Strings are sequences of characters. UTF-16 code units are not distinguished from code points.
- Lower-casing follows ASCII only, including the case-insensitive `contains` of the company search. White space is the ECMAScript set of white-space and line-terminator characters that `trim()` and `\s` use.
- `encodeURIComponent` percent-encodes UTF-8 bytes of code points as Dafny characters give them. URL decoding of query parameters is not modelled: parameters are given decoded.
- The interest-media `has` filter and the company list filters compare strings for equality; Postgres collation is not modelled.
- The `serviceMap[industry]` lookup is modelled as a table lookup. An industry named like an `Object.prototype` key (such as `constructor`) would read an inherited value there, and that quirk is not modelled.
- Integers are unbounded. `parseInt` results above 2^53 lose precision in JavaScript and do not here.
- `handleInputChange` is modelled for the five named inputs of the form. An input with any other `name` would add a new key to the form object, which the model does not represent.
- Presentation-only components (header, footer, skeletons, marketing cards, the search bar that only forwards its query) and the app shell hold no logic worth stating and are left out.
- StatsCards.StatsOf: states the totals and bounds. The exact cardinality of the unique platforms and countries is stated through `UniquePlatformsSpec` and `DistinctPermutation` as a set equality, not as a number.

## Findings

| source | as written | input that shows it | evidently intended | confidence | as-written member | corrected member |
|---|---|---|---|---|---|---|
| src/design-system/templates/partner-detail/PartnerDetailPage.tsx:81-88 | `hasDisplayableMedia` tests tag and non-blank URL but not the `.ds_store` exclusion that `getDisplayableMedia` applies, and it alone decides whether the "Media Gallery" card is rendered | a partner whose only media item is tagged `MEDIA` with URL `.DS_Store`: the gallery card is rendered with an empty grid | the card appears exactly when `getDisplayableMedia()` is non-empty | not executed | PartnerDetail.EmptyGalleryExample | PartnerDetail.GalleryShownSpec |
