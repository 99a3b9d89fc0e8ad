/** The `/api/media` route handler: the listing, whose where object is built
    from the query but never handed to the database, and the creation of a
    media item from a JSON body. The database is a parameter: the table's rows
    in the listing's order, and whether a call fails. */
module MediaRoute {
  import opened Wrappers
  import Url
  import Requests
  import Partners

  // ---- GET ----

  /** The where object built from `media_type`, `tag` and `company_id`. */
  datatype Where = Where(mediaType: Option<string>, tag: Option<string>, companyId: Option<string>)

  function WhereOf(params: Url.QueryParams): (w: Where)
    ensures w.mediaType.Some? <==> Url.GetParam(params, "media_type").Some? && Url.GetParam(params, "media_type").value != ""
    ensures w.tag.Some? <==> Url.GetParam(params, "tag").Some? && Url.GetParam(params, "tag").value != ""
    ensures w.companyId.Some? <==> Url.GetParam(params, "company_id").Some? && Url.GetParam(params, "company_id").value != ""
  {
    Where(Requests.FilterParam(params, "media_type"), Requests.FilterParam(params, "tag"), Requests.FilterParam(params, "company_id"))
  }

  /** What the where object would select, had it been passed on. */
  predicate Matches(w: Where, m: Partners.Media)
  {
    && (w.mediaType.None? || m.mediaType == w.mediaType.value)
    && (w.tag.None? || m.tag == w.tag.value)
    && (w.companyId.None? || m.companyId == w.companyId.value)
  }

  datatype GetResponse = Listed(media: seq<Partners.Media>, page: Requests.Number, total: nat) | FetchFailed(error: string)

  /** `GET /api/media`: the where object is computed and dropped, so every row
      is listed and counted. */
  function Get(params: Url.QueryParams, rows: seq<Partners.Media>, dbFails: bool): (r: GetResponse)
    ensures dbFails <==> r == FetchFailed("Failed to fetch media")
    ensures r.Listed? ==> r.page == Requests.NumberParam(params, "page", "1") && r.total == |rows|
    ensures r.Listed? ==> r.media == rows
  {
    var _ := WhereOf(params);
    if dbFails then FetchFailed("Failed to fetch media")
    else Listed(rows, Requests.NumberParam(params, "page", "1"), |rows|)
  }

  /** The filters have no effect: two queries that differ in anything but the
      page list the same rows, and a row the filters exclude is still listed. */
  lemma FiltersIgnored(params: Url.QueryParams, other: Url.QueryParams, rows: seq<Partners.Media>, k: nat)
    requires k < |rows| && !Matches(WhereOf(params), rows[k])
    ensures Get(params, rows, false).media == Get(other, rows, false).media
    ensures rows[k] in Get(params, rows, false).media
  {
  }

  // ---- POST ----

  /** The record handed to `create`: the four required fields and nothing else. */
  datatype MediaData = MediaData(companyId: Requests.Json, mediaUrl: Requests.Json, tag: Requests.Json, mediaType: Requests.Json)

  datatype PostResponse = Created(data: MediaData) | BadRequest(error: string) | ServerError(error: string)

  const RequiredFields: seq<string> := ["company_id", "media_url", "tag", "media_type"]

  predicate HasRequired(body: Requests.Json)
  {
    forall k :: 0 <= k < |RequiredFields| ==> Requests.Truthy(Requests.Field(body, RequiredFields[k]))
  }

  /** `POST /api/media`. `body` is `None` when the request body is not JSON. */
  function Post(body: Option<Requests.Json>, createFails: bool): (r: PostResponse)
    ensures r.Created? <==> body.Some? && Requests.Destructurable(body.value) && HasRequired(body.value) && !createFails
    ensures r.BadRequest? <==> body.Some? && Requests.Destructurable(body.value) && !HasRequired(body.value)
    ensures r.ServerError? ==> r.error == "Failed to create media content"
    ensures r.Created? ==>
      && Requests.Field(body.value, "company_id") == Some(r.data.companyId)
      && Requests.Field(body.value, "media_url") == Some(r.data.mediaUrl)
      && Requests.Field(body.value, "tag") == Some(r.data.tag)
      && Requests.Field(body.value, "media_type") == Some(r.data.mediaType)
  {
    if body.None? || !Requests.Destructurable(body.value) then ServerError("Failed to create media content")
    else if !HasRequired(body.value) then BadRequest("Company ID, media URL, tag, and media type are required")
    else if createFails then ServerError("Failed to create media content")
    else
      var b := body.value;
      assert Requests.Truthy(Requests.Field(b, RequiredFields[0])) && Requests.Truthy(Requests.Field(b, RequiredFields[1]));
      assert Requests.Truthy(Requests.Field(b, RequiredFields[2])) && Requests.Truthy(Requests.Field(b, RequiredFields[3]));
      Created(MediaData(Requests.Field(b, "company_id").value, Requests.Field(b, "media_url").value,
                        Requests.Field(b, "tag").value, Requests.Field(b, "media_type").value))
  }

  /** The request is refused exactly when one of the four fields is falsy;
      otherwise the record holds exactly those four values, whatever else the
      body carries. */
  lemma PostValidation(fields: map<string, Requests.Json>, extra: map<string, Requests.Json>)
    requires forall k :: k in extra ==> k !in RequiredFields
    ensures Post(Some(Requests.JObject(fields)), false).BadRequest? <==>
      exists k :: 0 <= k < |RequiredFields| && !Requests.Truthy(Requests.Field(Requests.JObject(fields), RequiredFields[k]))
    ensures Post(Some(Requests.JObject(fields)), false).Created? ==>
      && Post(Some(Requests.JObject(fields + extra)), false) == Post(Some(Requests.JObject(fields)), false)
      && "media_url" in fields && Post(Some(Requests.JObject(fields)), false).data.mediaUrl == fields["media_url"]
  {
    var body := Requests.JObject(fields);
    if HasRequired(body) {
      assert Requests.Truthy(Requests.Field(body, RequiredFields[1]));
      var wide := Requests.JObject(fields + extra);
      forall k | 0 <= k < |RequiredFields| ensures Requests.Field(wide, RequiredFields[k]) == Requests.Field(body, RequiredFields[k]) {
        assert RequiredFields[k] !in extra;
      }
      assert Requests.Field(wide, "company_id") == Requests.Field(body, "company_id") by { assert RequiredFields[0] == "company_id"; }
      assert Requests.Field(wide, "media_url") == Requests.Field(body, "media_url") by { assert RequiredFields[1] == "media_url"; }
      assert Requests.Field(wide, "tag") == Requests.Field(body, "tag") by { assert RequiredFields[2] == "tag"; }
      assert Requests.Field(wide, "media_type") == Requests.Field(body, "media_type") by { assert RequiredFields[3] == "media_type"; }
    }
  }
}
