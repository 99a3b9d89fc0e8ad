/** The `/api/company` route handler: the listing with its where object and
    page number, and the creation of a company from a JSON body with its
    validation and defaults. The database is a parameter: the table's rows in
    the listing's order, and whether a call fails. */
module CompanyRoute {
  import opened Wrappers
  import opened Seqs
  import opened Text
  import Url
  import Requests
  import Partners

  // ---- GET ----

  /** The where object: each constraint is present exactly when its query
      parameter is given and non-empty. */
  datatype Where = Where(
    industry: Option<string>,
    focusArea: Option<string>,
    serviceModel: Option<string>,
    search: Option<string>)

  function WhereOf(params: Url.QueryParams): Where
  {
    Where(Requests.FilterParam(params, "industry"), Requests.FilterParam(params, "focus_area"),
          Requests.FilterParam(params, "service_model"), Requests.FilterParam(params, "search"))
  }

  /** Case-insensitive `contains`, with the case folding of ASCII letters. */
  predicate ContainsInsensitive(s: string, sub: string)
  {
    Contains(ToLower(s), ToLower(sub))
  }

  /** Whether a row satisfies the where object: each `has` constraint needs
      the value in the row's list, and a search needs the text in the name or
      in the description. */
  predicate Matches(w: Where, c: Partners.Partner)
  {
    && (w.industry.None? || w.industry.value in c.industries)
    && (w.focusArea.None? || w.focusArea.value in c.focusAreas)
    && (w.serviceModel.None? || w.serviceModel.value in c.serviceModels)
    && (w.search.None? || ContainsInsensitive(c.name, w.search.value) || ContainsInsensitive(c.description, w.search.value))
  }

  /** The where object as the test the database applies to each row. */
  function Keeps(w: Where): Partners.Partner -> bool
  {
    c => Matches(w, c)
  }

  /** The listing's body: the companies, the parsed page (NaN when the
      parameter does not parse) and the count of the same where object. */
  datatype Listing = Listing(companies: seq<Partners.Partner>, page: Requests.Number, total: nat)

  datatype GetResponse = Listed(listing: Listing) | FetchFailed(error: string)

  /** `GET /api/company`: every matching row, whatever the page, and their number. */
  function Get(params: Url.QueryParams, rows: seq<Partners.Partner>, dbFails: bool): (r: GetResponse)
    ensures dbFails <==> r == FetchFailed("Failed to fetch companies")
    ensures r.Listed? ==> r.listing.total == |r.listing.companies|
    ensures r.Listed? ==> forall c :: c in r.listing.companies <==> c in rows && Matches(WhereOf(params), c)
    ensures r.Listed? ==> r.listing.page == Requests.NumberParam(params, "page", "1")
    ensures r.Listed? ==> IsSubsequence(r.listing.companies, rows)
    ensures r.Listed? ==> r.listing.companies == Filter(rows, Keeps(WhereOf(params)))
  {
    if dbFails then FetchFailed("Failed to fetch companies")
    else
      var companies := Filter(rows, Keeps(WhereOf(params)));
      FilterIsSubsequence(rows, Keeps(WhereOf(params)));
      Listed(Listing(companies, Requests.NumberParam(params, "page", "1"), |companies|))
  }

  /** The HTTP status of a listing response. */
  function GetStatus(r: GetResponse): nat
  {
    if r.Listed? then 200 else 500
  }

  /** With no filter parameter every row is listed, in table order. */
  lemma NoFiltersListsAll(params: Url.QueryParams, rows: seq<Partners.Partner>)
    requires WhereOf(params) == Where(None, None, None, None)
    ensures Get(params, rows, false).listing.companies == rows
  {
    FilterKeepsAll(rows, Keeps(WhereOf(params)));
  }

  /** The page number does not slice the listing: there is no skip or take. */
  lemma PageDoesNotSlice(params: Url.QueryParams, page: string, rows: seq<Partners.Partner>)
    ensures Get([("page", page)] + params, rows, false).listing.companies == Get(params, rows, false).listing.companies
    ensures Get([("page", page)] + params, rows, false).listing.total == Get(params, rows, false).listing.total
  {
    assert ([("page", page)] + params)[1..] == params;
    assert WhereOf([("page", page)] + params) == WhereOf(params);
  }

  /** Giving one more filter parameter, not given before, can only narrow the listing. */
  lemma ExtraFilterNarrows(params: Url.QueryParams, name: string, value: string, c: Partners.Partner)
    requires Url.GetParam(params, name).None?
    ensures Matches(WhereOf([(name, value)] + params), c) ==> Matches(WhereOf(params), c)
  {
    assert ([(name, value)] + params)[1..] == params;
  }

  // ---- POST ----

  /** The record handed to `create`. `None` stands for `undefined`: for `id`
      the database then generates one, for the other optional fields the
      column is left unset. */
  datatype CompanyData = CompanyData(
    id: Option<Requests.Json>,
    name: Requests.Json,
    description: Requests.Json,
    companyWebsite: Option<Requests.Json>,
    countries: Requests.Json,
    diverseOwnedIdentities: Requests.Json,
    facebookPlatforms: Requests.Json,
    focusAreas: Requests.Json,
    industries: Requests.Json,
    isBadged: Requests.Json,
    languageTags: Requests.Json,
    mspProfilePicture: Option<Requests.Json>,
    serviceModels: Requests.Json,
    solutionTypes: Requests.Json,
    solutionSubtypes: Requests.Json,
    minimumSpend: Option<Requests.Json>,
    typename: Requests.Json)

  datatype PostResponse = Created(data: CompanyData) | BadRequest(error: string) | ServerError(error: string)

  const EmptyList: Requests.Json := Requests.JArray([])

  /** A list field: `[]` when the body does not have it. */
  function ListField(body: Requests.Json, key: string): (v: Requests.Json)
  {
    Requests.WithDefault(Requests.Field(body, key), EmptyList)
  }

  /** The fields of the body with their destructuring defaults; `id || undefined`
      turns a falsy id into `undefined`. */
  function DataOf(body: Requests.Json): CompanyData
  {
    var id := Requests.Field(body, "id");
    CompanyData(
      if Requests.Truthy(id) then id else None,
      Requests.WithDefault(Requests.Field(body, "name"), Requests.JNull),
      Requests.WithDefault(Requests.Field(body, "description"), Requests.JNull),
      Requests.Field(body, "company_website"),
      ListField(body, "countries"),
      ListField(body, "diverse_owned_identities"),
      ListField(body, "facebook_platforms"),
      ListField(body, "focus_areas"),
      ListField(body, "industries"),
      Requests.WithDefault(Requests.Field(body, "is_badged"), Requests.JBool(false)),
      ListField(body, "language_tags"),
      Requests.Field(body, "msp_profile_picture"),
      ListField(body, "service_models"),
      ListField(body, "solution_types"),
      ListField(body, "solution_subtypes"),
      Requests.Field(body, "minimum_spend"),
      Requests.WithDefault(Requests.Field(body, "typename"), Requests.JString("company")))
  }

  /** `POST /api/company`. `body` is `None` when the request body is not JSON. */
  function Post(body: Option<Requests.Json>, createFails: bool): (r: PostResponse)
    ensures r.Created? <==>
      body.Some? && Requests.Destructurable(body.value) && !createFails
      && Requests.Truthy(Requests.Field(body.value, "name")) && Requests.Truthy(Requests.Field(body.value, "description"))
    ensures r.BadRequest? <==>
      body.Some? && Requests.Destructurable(body.value)
      && !(Requests.Truthy(Requests.Field(body.value, "name")) && Requests.Truthy(Requests.Field(body.value, "description")))
    ensures r.ServerError? ==> r.error == "Failed to create company"
    ensures r.Created? ==>
      Requests.Field(body.value, "name") == Some(r.data.name) && Requests.Field(body.value, "description") == Some(r.data.description)
  {
    if body.None? || !Requests.Destructurable(body.value) then ServerError("Failed to create company")
    else if !Requests.Truthy(Requests.Field(body.value, "name")) || !Requests.Truthy(Requests.Field(body.value, "description")) then
      BadRequest("Company name and description are required")
    else if createFails then ServerError("Failed to create company")
    else Created(DataOf(body.value))
  }

  function PostStatus(r: PostResponse): nat
  {
    match r
    case Created(_) => 201
    case BadRequest(_) => 400
    case ServerError(_) => 500
  }

  /** The request is refused with 400, before anything is created, exactly
      when a JSON object body lacks a truthy name or a truthy description; a
      body that is not JSON, or `null`, fails with 500 instead. */
  lemma PostValidation(body: Option<Requests.Json>, createFails: bool)
    ensures PostStatus(Post(body, createFails)) == 400 <==>
      body.Some? && !body.value.JNull? &&
      (!Requests.Truthy(Requests.Field(body.value, "name")) || !Requests.Truthy(Requests.Field(body.value, "description")))
    ensures body.None? || body == Some(Requests.JNull) ==> PostStatus(Post(body, createFails)) == 500
    ensures Post(body, createFails).Created? ==>
      Requests.Truthy(Some(Post(body, createFails).data.name)) && Requests.Truthy(Some(Post(body, createFails).data.description))
  {
  }

  /** Every list field missing from the body is created as `[]`, a missing
      `is_badged` as `false`, a missing `typename` as "company", and a falsy
      id is left to the database; an explicit `null` is kept as it is. */
  lemma PostDefaults(fields: map<string, Requests.Json>)
    requires "name" in fields && Requests.Truthy(Some(fields["name"]))
    requires "description" in fields && Requests.Truthy(Some(fields["description"]))
    ensures Post(Some(Requests.JObject(fields)), false).Created?
    ensures var d := Post(Some(Requests.JObject(fields)), false).data;
      && ("countries" !in fields ==> d.countries == EmptyList)
      && ("industries" !in fields ==> d.industries == EmptyList)
      && ("focus_areas" !in fields ==> d.focusAreas == EmptyList)
      && ("service_models" !in fields ==> d.serviceModels == EmptyList)
      && ("diverse_owned_identities" !in fields ==> d.diverseOwnedIdentities == EmptyList)
      && ("facebook_platforms" !in fields ==> d.facebookPlatforms == EmptyList)
      && ("language_tags" !in fields ==> d.languageTags == EmptyList)
      && ("solution_types" !in fields ==> d.solutionTypes == EmptyList)
      && ("solution_subtypes" !in fields ==> d.solutionSubtypes == EmptyList)
      && ("is_badged" !in fields ==> d.isBadged == Requests.JBool(false))
      && ("typename" !in fields ==> d.typename == Requests.JString("company"))
      && ("countries" in fields ==> d.countries == fields["countries"])
      && (d.id.Some? <==> "id" in fields && Requests.Truthy(Some(fields["id"])))
      && d.name == fields["name"] && d.description == fields["description"]
  {
    var body := Requests.JObject(fields);
    assert Post(Some(body), false) == Created(DataOf(body));
  }
}
