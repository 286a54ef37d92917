/** The data of one admission round trip, shared by both revisions of the
    webhook (main.go and helpers.go declare the same package-level constants,
    the same `validateRequest`, `parseRequest` and `sendResponse`), and the
    transport steps that the two revisions have in common. */
module Admission {
  import opened Wrappers

  type Bytes = seq<bv8>

  /** The two things `validateRequest` reads from an `*http.Request`: its
      method and its `Content-Type` header (`Header.Get` gives "" when the
      header is missing). */
  datatype HttpRequest = HttpRequest(httpMethod: string, contentType: string)

  /** The view of a `v1.Deployment` the webhook uses. `annotations` is None
      when the Go map is nil (no `metadata.annotations` in the JSON);
      `priorityClassName` is "" when the pod template does not set one. */
  datatype Workload = Workload(
    namespace: string,
    name: string,
    annotations: Option<map<string, string>>,
    priorityClassName: string)

  /** The fields of an admission request the webhook reads. `deployment` is
      the outcome of `json.Unmarshal` on `Request.Object.Raw`: the decoded
      workload, or the decoder's error text. */
  datatype AdmissionRequest = AdmissionRequest(
    uid: string,
    operation: string,
    username: string,
    deployment: Result<Workload, string>)

  /** JSON Patch (RFC 6902) operations the webhook emits. */
  datatype OpKind = Add | Replace
  datatype PatchValue = Str(s: string) | Obj(m: map<string, string>)
  datatype PatchOp = PatchOp(op: OpKind, path: string, value: PatchValue)

  /** `v1beta1.AdmissionResponse`: a nil `Patch` is None, nil `Warnings` is
      [], a nil `AuditAnnotations` map is None. */
  datatype AdmissionResponse = AdmissionResponse(
    uid: string,
    allowed: bool,
    patch: Option<seq<PatchOp>>,
    warnings: seq<string>,
    auditAnnotations: Option<map<string, string>>)

  /** `v1beta1.AdmissionReview`: a request envelope, a response envelope, or
      (after a decode) anything in between. */
  datatype AdmissionReview = AdmissionReview(
    request: Option<AdmissionRequest>,
    response: Option<AdmissionResponse>)

  /** Why `buildResponse` gave up: the embedded object did not unmarshal
      (an error value), or the helpers.go revision wrote into a nil map
      (a Go run-time panic). */
  datatype BuildError = UnmarshalError(message: string) | NilMapAssignment

  /** What a handler leaves in its `http.ResponseWriter`. */
  datatype Body = Text(text: string) | Json(review: AdmissionReview)
  datatype Reply = Reply(status: int, allow: Option<string>, contentType: string, body: Body)

  /** Outcome of `validateRequest`: go on, or the reply it already wrote. */
  datatype Validation = Accepted | Rejected(reply: Reply)

  const JsonContentType := "application/json"
  const PriorityClassName := "high-priority-nonpreempting"
  const UpdatedAtKey := "priorityClassWebhook/updated_at"

  const MethodPost := "POST"
  const TextContentType := "text/plain; charset=utf-8"
  const StatusOK := 200
  const StatusBadRequest := 400
  const StatusMethodNotAllowed := 405
  const StatusInternalServerError := 500

  /** `http.Error`: a plain-text reply with the given status whose body is
      the message followed by a newline; never a JSON review. */
  function HttpError(message: string, status: int): (reply: Reply)
    ensures reply.status == status && reply.allow.None? && reply.contentType == TextContentType
    ensures reply.body.Text? && |reply.body.text| == |message| + 1
    ensures reply.body.text[..|message|] == message && reply.body.text[|message|] == '\n'
  {
    var text := message + "\n";
    assert text[..|message|] == message;
    Reply(status, None, TextContentType, Text(text))
  }

  /** `part` occurs in `s` starting at index `i`. */
  predicate PartAt(s: string, part: string, i: int) {
    0 <= i && i + |part| <= |s| && s[i..i + |part|] == part
  }

  /** A decision placed in the response envelope `buildResponse` returns. */
  function InReview(r: Result<AdmissionResponse, BuildError>): Result<AdmissionReview, BuildError> {
    match r
    case Ok(response) => Ok(AdmissionReview(None, Some(response)))
    case Err(e) => Err(e)
  }

  /** `validateRequest`: only a POST whose Content-Type is exactly
      application/json gets through; the method is checked first. */
  function ValidateRequest(r: HttpRequest): (v: Validation)
    ensures v.Accepted? <==> r.httpMethod == MethodPost && r.contentType == JsonContentType
    ensures r.httpMethod != MethodPost ==>
      v == Rejected(HttpError("Method Not Allowed", StatusMethodNotAllowed).(allow := Some(MethodPost)))
    ensures r.httpMethod == MethodPost && r.contentType != JsonContentType ==>
      v == Rejected(HttpError("Invalid content type " + r.contentType, StatusBadRequest))
  {
    if r.httpMethod != MethodPost then
      Rejected(HttpError("Method Not Allowed", StatusMethodNotAllowed).(allow := Some(MethodPost)))
    else if r.contentType != JsonContentType then
      Rejected(HttpError("Invalid content type " + r.contentType, StatusBadRequest))
    else
      Accepted
  }

  /** `parseRequest`: `body` is what `io.ReadAll` gave, `decode` stands for
      the universal deserializer. Parsing succeeds exactly when the body was
      read, decoded, and carries a request; the decoded envelope is then
      returned untouched. */
  function ParseRequest(body: Result<Bytes, string>, decode: Bytes -> Result<AdmissionReview, string>)
    : (r: Result<AdmissionReview, string>)
    ensures r.Ok? <==> body.Ok? && decode(body.value).Ok? && decode(body.value).value.request.Some?
    ensures r.Ok? ==> r.value == decode(body.value).value
    ensures body.Err? ==> r == Err("failed to read request body: " + body.error)
    ensures body.Ok? && decode(body.value).Err? ==>
      r == Err("could not deserialize request: " + decode(body.value).error)
    ensures body.Ok? && decode(body.value).Ok? && decode(body.value).value.request.None? ==>
      r == Err("malformed admission review (request is nil)")
  {
    match body
    case Err(e) => Err("failed to read request body: " + e)
    case Ok(bytes) =>
      match decode(bytes)
      case Err(e) => Err("could not deserialize request: " + e)
      case Ok(review) =>
        if review.request.None? then Err("malformed admission review (request is nil)")
        else Ok(review)
  }

  /** `sendResponse`: the review, marshalled as JSON, with status 200. */
  function SendResponse(review: AdmissionReview): (reply: Reply)
    ensures reply.status == StatusOK && reply.allow.None?
    ensures reply.contentType == JsonContentType && reply.body == Json(review)
  {
    Reply(StatusOK, None, JsonContentType, Json(review))
  }

  /** The error text `buildResponse` returns when the object does not unmarshal. */
  function UnmarshalMessage(decodeError: string): string {
    "could not unmarshal pod on admission request: " + decodeError
  }

  /** The name the webhook reports a workload by: the namespace and the
      name joined by one '/'. */
  function DisplayName(w: Workload): (n: string)
    ensures |n| == |w.namespace| + 1 + |w.name|
    ensures PartAt(n, w.namespace, 0) && n[|w.namespace|] == '/' && PartAt(n, w.name, |w.namespace| + 1)
  {
    var n := w.namespace + "/" + w.name;
    assert n[..|w.namespace|] == w.namespace;
    assert n[|w.namespace| + 1..] == w.name;
    n
  }

  /** Index of the first '/' in `s`, or |s| when there is none. */
  function SlashIndex(s: string): (i: nat)
    ensures i <= |s|
    ensures i < |s| ==> s[i] == '/'
    ensures forall j :: 0 <= j < i ==> s[j] != '/'
  {
    if s == [] || s[0] == '/' then 0 else 1 + SlashIndex(s[1..])
  }

  /** Inverse of DisplayName: split at the first '/'. */
  function SplitDisplayName(s: string): Option<(string, string)> {
    var i := SlashIndex(s);
    if i < |s| then Some((s[..i], s[i + 1..])) else None
  }

  /** A Kubernetes namespace never contains '/', so the display name
      identifies the workload: splitting it gives back namespace and name. */
  lemma DisplayNameSplits(w: Workload)
    requires '/' !in w.namespace
    ensures SplitDisplayName(DisplayName(w)) == Some((w.namespace, w.name))
  {
    var s := DisplayName(w);
    var k := |w.namespace|;
    assert s[k] == '/';
    assert forall j :: 0 <= j < k ==> s[j] == w.namespace[j];
    assert s[..k] == w.namespace;
    assert s[k + 1..] == w.name;
  }

  /** The first warning of a patched response, when the workload had no
      priority class at all. */
  function NotSetWarning(name: string): (s: string)
    ensures PartAt(s, name, 11)
  {
    var s := "Deployment " + name + " does not have a PriorityClassName set.";
    assert s[11..11 + |name|] == name;
    s
  }

  /** The first warning of a patched response, when the workload had another
      priority class. */
  function AlreadySetWarning(name: string, current: string): (s: string)
    ensures PartAt(s, name, 11)
    ensures PartAt(s, current, |s| - |current|)
  {
    var s := "Deployment " + name + " has PriorityClassName already set to: " + current;
    assert s[11..11 + |name|] == name;
    assert s[|s| - |current|..] == current;
    s
  }

  /** The first warning, as both revisions choose it: it always names the
      workload, reports a missing class when there is none, and otherwise
      ends with the class the workload had. */
  function Diagnosis(w: Workload): (s: string)
    ensures PartAt(s, DisplayName(w), 11)
    ensures w.priorityClassName == "" ==> s == NotSetWarning(DisplayName(w))
    ensures w.priorityClassName != "" ==>
      s == AlreadySetWarning(DisplayName(w), w.priorityClassName) &&
      PartAt(s, w.priorityClassName, |s| - |w.priorityClassName|)
  {
    if w.priorityClassName == "" then NotSetWarning(DisplayName(w))
    else AlreadySetWarning(DisplayName(w), w.priorityClassName)
  }

  /** The response of an already compliant workload: only uid and allowed. */
  function NoOpResponse(uid: string): AdmissionResponse {
    AdmissionResponse(uid, true, None, [], None)
  }
}
