/** The REST handlers of `src/app/api/form-data/route.ts` over the key-value store.
    A store exception is the boolean `outage`: when it is set, the store operation throws
    and is taken not to have happened. */
module FormDataRoute {

  import opened Wrappers
  import opened Text
  import opened FormTypes
  import opened UpstashStorage

  datatype Body =
    | ErrorBody(error: string, details: seq<Issue>)
    | RecordBody(record: Option<FormRecord>)
    | SuccessBody

  datatype Response = Response(status: int, body: Body)

  const MISSING_USER_ID := Response(400, ErrorBody("Missing userId", []))

  /** `!userId`: absent or the empty string. */
  predicate MissingUserId(userId: Option<string>) {
    !Truthy(userId)
  }

  /** The parsed JSON body of a POST: `{ userId, data }`, either of which may be absent. */
  datatype PostBody = PostBody(userId: Option<string>, data: Option<FormRecord>)

  /** What the schema reports for a POST body's `data`; absent data is rejected as a whole. */
  function PostIssues(data: Option<FormRecord>): seq<Issue> {
    match data
    case None => [Issue("", "Required")]
    case Some(d) => FormDataIssues(d)
  }

  /** The response of `GET /api/form-data?userId=…` against store contents `kv`. */
  function GetResponse(kv: map<string, FormRecord>, userId: Option<string>, outage: bool): (r: Response)
    ensures MissingUserId(userId) ==> r == MISSING_USER_ID
    ensures !MissingUserId(userId) && outage ==> r == Response(500, ErrorBody("Failed to fetch form data", []))
    ensures !MissingUserId(userId) && !outage ==>
      r.status == 200 && r.body.RecordBody? &&
      (r.body.record.Some? <==> StoreKey(userId.value) in kv) &&
      (r.body.record.Some? ==> r.body.record.value == kv[StoreKey(userId.value)])
  {
    if MissingUserId(userId) then MISSING_USER_ID
    else if outage then Response(500, ErrorBody("Failed to fetch form data", []))
    else Response(200, RecordBody(Lookup(kv, userId.value)))
  }

  /** `GET` */
  method HandleGet(store: FormStore, userId: Option<string>, outage: bool) returns (resp: Response)
    ensures resp == GetResponse(store.kv, userId, outage)
  {
    if userId.None? || userId.value == "" {
      return MISSING_USER_ID;
    }
    if outage {
      return Response(500, ErrorBody("Failed to fetch form data", []));
    }
    var data := store.Get(userId.value);
    resp := Response(200, RecordBody(data));
  }

  /** `POST` with body `body` (`None` when the request body is not JSON). The body is what
      `request.json()` parses, so a record in it holds no `Date` object. */
  method HandlePost(store: FormStore, body: Option<PostBody>, outage: bool) returns (resp: Response)
    requires body.Some? && body.value.data.Some? ==> FromJson(body.value.data.value)
    modifies store
    ensures body.None? ==>
      resp == Response(500, ErrorBody("Failed to save form data", [])) && store.kv == old(store.kv)
    ensures body.Some? && MissingUserId(body.value.userId) ==>
      resp == MISSING_USER_ID && store.kv == old(store.kv)
    ensures body.Some? && !MissingUserId(body.value.userId) && PostIssues(body.value.data) != [] ==>
      resp == Response(400, ErrorBody("Invalid data", PostIssues(body.value.data))) && store.kv == old(store.kv)
    ensures body.Some? && !MissingUserId(body.value.userId) && PostIssues(body.value.data) == [] ==>
      body.value.data.Some? && FormDataValid(body.value.data.value) &&
      if outage then
        resp == Response(500, ErrorBody("Failed to save form data", [])) && store.kv == old(store.kv)
      else
        resp == Response(200, SuccessBody) &&
        store.kv == Stored(old(store.kv), body.value.userId.value, Strip(body.value.data.value))
    ensures body.Some? && !MissingUserId(body.value.userId) && body.value.data.Some? &&
            body.value.data.value.uploadedFile.Some? ==>
      resp.status == 400 && resp.body.ErrorBody? &&
      Issue("uploadedFile.uploadedAt", "Expected date") in resp.body.details && store.kv == old(store.kv)
  {
    if body.None? {
      return Response(500, ErrorBody("Failed to save form data", []));
    }
    var userId, data := body.value.userId, body.value.data;
    if userId.None? || userId.value == "" {
      return MISSING_USER_ID;
    }
    if data.None? {
      return Response(400, ErrorBody("Invalid data", PostIssues(data)));
    }
    if data.value.uploadedFile.Some? {
      UploadedFileRejected(data.value);
    }
    var validated := SafeParse(data.value);
    if validated.Rejected? {
      return Response(400, ErrorBody("Invalid data", validated.issues));
    }
    if outage {
      return Response(500, ErrorBody("Failed to save form data", []));
    }
    store.Save(userId.value, validated.data);
    resp := Response(200, SuccessBody);
  }

  /** `DELETE` */
  method HandleDelete(store: FormStore, userId: Option<string>, outage: bool) returns (resp: Response)
    modifies store
    ensures MissingUserId(userId) ==> resp == MISSING_USER_ID && store.kv == old(store.kv)
    ensures !MissingUserId(userId) && outage ==>
      resp == Response(500, ErrorBody("Failed to delete form data", [])) && store.kv == old(store.kv)
    ensures !MissingUserId(userId) && !outage ==>
      resp == Response(200, SuccessBody) && store.kv == Removed(old(store.kv), userId.value)
  {
    if userId.None? || userId.value == "" {
      return MISSING_USER_ID;
    }
    if outage {
      return Response(500, ErrorBody("Failed to delete form data", []));
    }
    store.Delete(userId.value);
    resp := Response(200, SuccessBody);
  }

  /** A successful POST followed by a GET for the same user returns the parsed record;
      a successful DELETE followed by a GET returns null. */
  lemma {:induction false} PostDeleteThenGet(kv: map<string, FormRecord>, userId: string, d: FormRecord)
    requires userId != ""
    ensures GetResponse(Stored(kv, userId, Strip(d)), Some(userId), false) == Response(200, RecordBody(Some(Strip(d))))
    ensures GetResponse(Removed(kv, userId), Some(userId), false) == Response(200, RecordBody(None))
  {
    ReadYourWrites(kv, userId, Strip(d));
  }

  /** A GET for one user does not see a write or a delete for another. */
  lemma {:induction false} GetIsolated(kv: map<string, FormRecord>, u: string, v: string, d: FormRecord, outage: bool)
    requires u != v
    ensures GetResponse(Stored(kv, u, d), Some(v), outage) == GetResponse(kv, Some(v), outage)
    ensures GetResponse(Removed(kv, u), Some(v), outage) == GetResponse(kv, Some(v), outage)
  {
    OtherUsersUnaffected(kv, u, v, d);
  }
}
