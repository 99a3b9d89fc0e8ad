/** The `/api/consultancy` route handler: the paginated listing of
    consultation requests (page, limit, skip, take and the page count) with
    its where object, and the creation of a request from a JSON body. The
    database is a parameter: the table's rows in the listing's order, and
    whether a call fails. */
module ConsultancyRoute {
  import opened Wrappers
  import opened Seqs
  import Url
  import Requests
  import Text

  /** One stored consultation request, as far as the where object reads it. */
  datatype Consultation = Consultation(id: string, businessType: string, interestMedia: seq<string>)

  // ---- GET ----

  /** `business_type` is matched for equality, `interest_media` with `has`. */
  datatype Where = Where(businessType: Option<string>, interestMedia: Option<string>)

  function WhereOf(params: Url.QueryParams): (w: Where)
    ensures w.businessType.Some? <==> Url.GetParam(params, "business_type").Some? && Url.GetParam(params, "business_type").value != ""
    ensures w.interestMedia.Some? <==> Url.GetParam(params, "interest_media").Some? && Url.GetParam(params, "interest_media").value != ""
  {
    Where(Requests.FilterParam(params, "business_type"), Requests.FilterParam(params, "interest_media"))
  }

  predicate Matches(w: Where, c: Consultation)
  {
    && (w.businessType.None? || c.businessType == w.businessType.value)
    && (w.interestMedia.None? || w.interestMedia.value in c.interestMedia)
  }

  /** The where object as the test the database applies to each row. */
  function Keeps(w: Where): Consultation -> bool
  {
    c => Matches(w, c)
  }

  /** The query handed to the database: the where object, `skip` and `take`. */
  datatype Query = Query(where: Where, skip: Requests.Number, take: Requests.Number)

  /** The pagination block of the response. */
  datatype Pagination = Pagination(page: Requests.Number, limit: Requests.Number, total: nat, pages: Requests.Number)

  /** `parseInt(searchParams.get('page') || '1')`. */
  function PageParam(params: Url.QueryParams): Requests.Number
  {
    Requests.NumberParam(params, "page", "1")
  }

  /** `parseInt(searchParams.get('limit') || '10')`. */
  function LimitParam(params: Url.QueryParams): Requests.Number
  {
    Requests.NumberParam(params, "limit", "10")
  }

  /** `skip = (page - 1) * limit`. */
  function Skip(page: Requests.Number, limit: Requests.Number): Requests.Number
  {
    Requests.Mul(Requests.Sub(page, Requests.Int(1)), limit)
  }

  /** The query: the where object, `skip` and `take = limit`. */
  function QueryOf(params: Url.QueryParams): Query
  {
    Query(WhereOf(params), Skip(PageParam(params), LimitParam(params)), LimitParam(params))
  }

  /** The pagination block, with `pages = Math.ceil(total / limit)`. */
  function PaginationOf(params: Url.QueryParams, total: nat): Pagination
  {
    Pagination(PageParam(params), LimitParam(params), total, Requests.CeilQuotient(total, LimitParam(params)))
  }

  lemma PageDefault(params: Url.QueryParams)
    requires Url.GetParam(params, "page").None?
    ensures PageParam(params) == Requests.Int(1)
  {
    assert Text.NatToString(1) == "1";
    Requests.NumberParamDefault(params, "page", 1);
  }

  lemma LimitDefault(params: Url.QueryParams)
    requires Url.GetParam(params, "limit").None?
    ensures LimitParam(params) == Requests.Int(10)
  {
    assert Text.NatToString(10) == "10";
    Requests.NumberParamDefault(params, "limit", 10);
  }

  /** Without parameters the page is 1 and the limit 10, so the first ten rows are asked for. */
  lemma DefaultQuery(params: Url.QueryParams)
    requires Url.GetParam(params, "page").None? && Url.GetParam(params, "limit").None?
    ensures PageParam(params) == Requests.Int(1) && LimitParam(params) == Requests.Int(10)
    ensures QueryOf(params).skip == Requests.Int(0) && QueryOf(params).take == Requests.Int(10)
  {
    PageDefault(params);
    LimitDefault(params);
  }

  /** For a page `p` and a positive limit `l`, the query skips the
      `(p - 1) * l` rows of the earlier pages and takes `l`; the page count is
      the least number of such pages that holds every matching row. */
  lemma PageArithmetic(p: int, l: int, total: nat)
    requires l > 0
    ensures Skip(Requests.Int(p), Requests.Int(l)) == Requests.Int((p - 1) * l)
    ensures Requests.CeilQuotient(total, Requests.Int(l)).Int?
    ensures var n := Requests.CeilQuotient(total, Requests.Int(l)).value;
      n * l >= total && (n - 1) * l < total
  {
  }

  /** A limit that does not parse makes `skip`, `take` and the page count NaN,
      and the page count is serialized as `null`; so is the infinite page
      count of a zero limit over a non-empty table. */
  lemma BadLimit(page: Requests.Number, limit: Requests.Number, total: nat)
    ensures limit.NaN? ==> Skip(page, limit).NaN? && Requests.Serialized(Requests.CeilQuotient(total, limit)).None?
    ensures limit == Requests.Int(0) ==> Requests.Serialized(Requests.CeilQuotient(total, limit)).None?
  {
  }

  /** The rows of one page, when `skip` and `take` are non-negative integers. */
  function PageRows(rows: seq<Consultation>, skip: nat, take: nat): (r: seq<Consultation>)
    ensures |r| == Min(take, Max(|rows| - skip, 0))
    ensures forall i :: 0 <= i < |r| ==> r[i] == rows[skip + i]
  {
    if skip >= |rows| then [] else Take(rows[skip..], take)
  }

  /** Two consecutive windows of the same size make one window twice as long. */
  lemma WindowsTile(rows: seq<Consultation>, skip: nat, take: nat)
    ensures PageRows(rows, skip, take) + PageRows(rows, skip + take, take) == PageRows(rows, skip, 2 * take)
  {
    var a := PageRows(rows, skip, take);
    var b := PageRows(rows, skip + take, take);
    var c := PageRows(rows, skip, 2 * take);
    assert |a + b| == |c|;
    forall i | 0 <= i < |c| ensures (a + b)[i] == c[i] {
      if i >= |a| {
        assert |a| == take;
        assert (a + b)[i] == b[i - take] == rows[skip + i];
      }
    }
  }

  /** Consecutive pages of the same limit follow on from each other, with
      neither a gap nor an overlap. */
  lemma PagesTile(rows: seq<Consultation>, page: nat, limit: nat)
    requires page >= 1
    ensures PageRows(rows, (page - 1) * limit, limit) + PageRows(rows, page * limit, limit)
      == PageRows(rows, (page - 1) * limit, 2 * limit)
  {
    assert page * limit == (page - 1) * limit + limit;
    WindowsTile(rows, (page - 1) * limit, limit);
  }

  /** `skip` and `take` are integers the database accepts: not negative. */
  predicate WindowGiven(q: Query)
  {
    q.skip.Int? && q.skip.value >= 0 && q.take.Int? && q.take.value >= 0
  }

  datatype GetResponse = Listed(consultations: seq<Consultation>, pagination: Pagination) | FetchFailed(error: string)

  /** `GET /api/consultancy`, for a page and limit that the database accepts
      as non-negative integers: the page's rows of the matching rows, and
      the count of all matching rows. */
  function Get(params: Url.QueryParams, rows: seq<Consultation>, dbFails: bool): (r: GetResponse)
    ensures dbFails ==> r == FetchFailed("Failed to fetch consultations")
    ensures r.Listed? ==> r.pagination.total == |Filter(rows, Keeps(WhereOf(params)))|
    ensures r.Listed? ==> forall c :: c in r.consultations ==> c in rows && Matches(WhereOf(params), c)
    ensures !dbFails && WindowGiven(QueryOf(params)) ==> r.Listed?
    ensures r.Listed? ==> WindowGiven(QueryOf(params))
    ensures r.Listed? ==>
      r.consultations == PageRows(Filter(rows, Keeps(WhereOf(params))), QueryOf(params).skip.value, QueryOf(params).take.value)
    ensures r.Listed? ==> r.pagination == PaginationOf(params, |Filter(rows, Keeps(WhereOf(params)))|)
  {
    var q := QueryOf(params);
    var matching := Filter(rows, Keeps(WhereOf(params)));
    if dbFails || !WindowGiven(q) then
      FetchFailed("Failed to fetch consultations")
    else
      Listed(PageRows(matching, q.skip.value, q.take.value), PaginationOf(params, |matching|))
  }

  // ---- POST ----

  /** The record handed to `create`. */
  datatype ConsultationData = ConsultationData(
    name: Requests.Json,
    email: Requests.Json,
    companyName: Requests.Json,
    businessType: Requests.Json,
    interestMedia: Requests.Json,
    userQuery: Requests.Json)

  datatype PostResponse = Created(data: ConsultationData) | BadRequest(error: string) | ServerError(error: string)

  const RequiredFields: seq<string> := ["name", "email", "company_name", "business_type", "user_query"]

  /** All five required fields are truthy. */
  predicate HasRequired(body: Requests.Json)
  {
    forall k :: 0 <= k < |RequiredFields| ==> Requests.Truthy(Requests.Field(body, RequiredFields[k]))
  }

  function DataOf(body: Requests.Json): (d: ConsultationData)
    requires HasRequired(body)
    ensures Requests.Field(body, "name") == Some(d.name) && Requests.Field(body, "email") == Some(d.email)
    ensures Requests.Field(body, "company_name") == Some(d.companyName) && Requests.Field(body, "business_type") == Some(d.businessType)
    ensures Requests.Field(body, "user_query") == Some(d.userQuery)
  {
    assert Requests.Truthy(Requests.Field(body, RequiredFields[0]));
    assert Requests.Truthy(Requests.Field(body, RequiredFields[1]));
    assert Requests.Truthy(Requests.Field(body, RequiredFields[2]));
    assert Requests.Truthy(Requests.Field(body, RequiredFields[3]));
    assert Requests.Truthy(Requests.Field(body, RequiredFields[4]));
    ConsultationData(
      Requests.Field(body, "name").value,
      Requests.Field(body, "email").value,
      Requests.Field(body, "company_name").value,
      Requests.Field(body, "business_type").value,
      Requests.WithDefault(Requests.Field(body, "interest_media"), Requests.JArray([])),
      Requests.Field(body, "user_query").value)
  }

  /** `POST /api/consultancy`. `body` is `None` when the request body is not JSON. */
  function Post(body: Option<Requests.Json>, createFails: bool): (r: PostResponse)
    ensures r.Created? <==> body.Some? && Requests.Destructurable(body.value) && HasRequired(body.value) && !createFails
    ensures r.BadRequest? <==> body.Some? && Requests.Destructurable(body.value) && !HasRequired(body.value)
    ensures r.ServerError? ==> r.error == "Failed to create consultation request"
    ensures r.Created? ==> Requests.Field(body.value, "name") == Some(r.data.name) && Requests.Field(body.value, "user_query") == Some(r.data.userQuery)
  {
    if body.None? || !Requests.Destructurable(body.value) then ServerError("Failed to create consultation request")
    else if !HasRequired(body.value) then
      BadRequest("Name, email, company name, business type, and user query are required")
    else if createFails then ServerError("Failed to create consultation request")
    else Created(DataOf(body.value))
  }

  /** The request is refused exactly when some required field is falsy, and
      a created request carries the body's values, with `interest_media`
      defaulting to `[]`. */
  lemma PostValidation(fields: map<string, Requests.Json>)
    ensures Post(Some(Requests.JObject(fields)), false).BadRequest? <==>
      exists k :: 0 <= k < |RequiredFields| && !Requests.Truthy(Requests.Field(Requests.JObject(fields), RequiredFields[k]))
    ensures !Post(Some(Requests.JObject(fields)), false).BadRequest? ==>
      "name" in fields && "user_query" in fields &&
      var d := Post(Some(Requests.JObject(fields)), false).data;
      && d.name == fields["name"] && d.userQuery == fields["user_query"]
      && (d.interestMedia == if "interest_media" in fields then fields["interest_media"] else Requests.JArray([]))
  {
    var body := Requests.JObject(fields);
    if HasRequired(body) {
      assert Requests.Truthy(Requests.Field(body, RequiredFields[0]));
      assert Requests.Truthy(Requests.Field(body, RequiredFields[4]));
    }
  }

  /** A sample: the body with only a name is refused. */
  lemma NameAloneIsRefused()
    ensures Post(Some(Requests.JObject(map["name" := Requests.JString("Ada")])), false).BadRequest?
  {
    var body := Requests.JObject(map["name" := Requests.JString("Ada")]);
    assert !Requests.Truthy(Requests.Field(body, RequiredFields[1]));
  }
}
