/** The main.go revision of the webhook: the annotations are patched with
    `add` and a freshly built one-key map, and the audit annotations are the
    workload's own, untouched, annotations. */
module MainRevision {
  import opened Wrappers
  import opened Admission
  import opened JsonPatch

  /** Second warning of a patched response in this revision: it names the
      target class and the workload. */
  function AddedWarning(name: string): (s: string)
    ensures PartAt(s, PriorityClassName, 18)
    ensures PartAt(s, name, |s| - 1 - |name|)
    ensures s[|s| - 1] == '.'
  {
    var s := "PriorityClassName " + PriorityClassName + " added to Deployment " + name + ".";
    assert s[18..18 + |PriorityClassName|] == PriorityClassName;
    assert s[|s| - 1 - |name|..|s| - 1] == name;
    s
  }

  /** `buildJsonPatch`: set the priority class, and `add` a fresh annotations
      map whose only key is the update marker. `now` is the formatted time.
      Applied to any workload, the patch succeeds, sets the priority class,
      and leaves the marker as the workload's only annotation. */
  function BuildJsonPatch(priorityClassName: string, now: string): (p: seq<PatchOp>)
    ensures |p| == 2
    ensures p[0].op == Add && p[0].path == PriorityClassNamePath
    ensures p[1].op == Add && p[1].path == AnnotationsPath
    ensures forall w ::
              ApplyPatch(w, p) == Some(w.(priorityClassName := priorityClassName,
                                          annotations := Some(map[UpdatedAtKey := now])))
  {
    var p := [ PatchOp(Add, PriorityClassNamePath, Str(priorityClassName)),
               PatchOp(Add, AnnotationsPath, Obj(map[UpdatedAtKey := now])) ];
    assert forall w ::
             ApplyPatch(w, p) == Some(w.(priorityClassName := priorityClassName,
                                         annotations := Some(map[UpdatedAtKey := now]))) by {
      forall w {
        ApplyTwo(w, p[0], p[1]);
      }
    }
    p
  }

  /** Every annotation the workload had, other than the marker, is gone once
      the patch is applied: `add` on an existing member replaces it. */
  lemma PatchDropsOtherAnnotations(w: Workload, now: string, key: string)
    requires w.annotations.Some? && key in w.annotations.value && key != UpdatedAtKey
    ensures ApplyPatch(w, BuildJsonPatch(PriorityClassName, now)).Some?
    ensures var after := ApplyPatch(w, BuildJsonPatch(PriorityClassName, now)).value;
      after.annotations.Some? && key !in after.annotations.value
  {
  }

  /** Applying the patch a second time changes nothing. */
  lemma PatchIdempotent(w: Workload, now: string)
    ensures ApplyPatch(w, BuildJsonPatch(PriorityClassName, now)).Some?
    ensures var once := ApplyPatch(w, BuildJsonPatch(PriorityClassName, now)).value;
      ApplyPatch(once, BuildJsonPatch(PriorityClassName, now)) == Some(once)
  {
  }

  /** The two operations address disjoint paths, so their order does not
      change the result. */
  lemma PatchOpsCommute(w: Workload, now: string)
    ensures var p := BuildJsonPatch(PriorityClassName, now);
      ApplyPatch(w, [p[1], p[0]]) == ApplyPatch(w, p)
  {
  }

  /** The decision `buildResponse` takes, as a value: an undecodable object
      is an error; otherwise the uid is echoed and the request allowed; a
      workload already on the target class gets nothing more, any other the
      patch, the two warnings, and its own annotations for the audit. */
  function Decide(req: AdmissionRequest, now: string): (r: Result<AdmissionResponse, BuildError>)
    ensures r.Err? <==> req.deployment.Err?
    ensures r.Err? ==> r.error == UnmarshalError(UnmarshalMessage(req.deployment.error))
    ensures r.Ok? ==> r.value.uid == req.uid && r.value.allowed
    ensures r.Ok? ==> (r.value.patch.None? <==> req.deployment.value.priorityClassName == PriorityClassName)
    ensures r.Ok? && r.value.patch.None? ==> r.value == NoOpResponse(req.uid)
    ensures r.Ok? && r.value.patch.Some? ==>
      var w := req.deployment.value;
      && r.value.patch.value == BuildJsonPatch(PriorityClassName, now)
      && r.value.warnings == [Diagnosis(w), AddedWarning(DisplayName(w))]
      && r.value.auditAnnotations == w.annotations
  {
    match req.deployment
    case Err(e) => Err(UnmarshalError(UnmarshalMessage(e)))
    case Ok(w) =>
      if w.priorityClassName == PriorityClassName then Ok(NoOpResponse(req.uid))
      else
        Ok(AdmissionResponse(
          req.uid, true,
          Some(BuildJsonPatch(PriorityClassName, now)),
          [Diagnosis(w), AddedWarning(DisplayName(w))],
          w.annotations))
  }

  /** Admission is idempotent: once the patch of a first admission is
      applied, admitting the patched workload again (at any later time) is a
      no-op that still echoes the uid and allows. */
  lemma ReadmissionIsNoOp(req: AdmissionRequest, now: string, later: string)
    requires req.deployment.Ok?
    ensures var r := Decide(req, now).value;
      r.patch.Some? ==>
        && ApplyPatch(req.deployment.value, r.patch.value).Some?
        && Decide(req.(deployment := Ok(ApplyPatch(req.deployment.value, r.patch.value).value)), later)
           == Ok(NoOpResponse(req.uid))
  {
  }

  /** `buildResponse`: decode the object, echo the uid, always allow; a
      workload already on the target priority class gets nothing more,
      any other gets the patch, the two warnings and its own annotations
      as audit annotations. The fields are filled in one by one; the result
      is the decision `Decide` describes, wrapped in a review. */
  method BuildResponse(review: AdmissionReview, now: string) returns (r: Result<AdmissionReview, BuildError>)
    requires review.request.Some?
    ensures r == InReview(Decide(review.request.value, now))
    ensures var req := review.request.value;
      req.deployment.Err? ==> r == Err(UnmarshalError(UnmarshalMessage(req.deployment.error)))
    ensures var req := review.request.value;
      req.deployment.Ok? ==>
        && r.Ok? && r.value.request.None? && r.value.response.Some?
        && r.value.response.value.uid == req.uid && r.value.response.value.allowed
    ensures var req := review.request.value;
      req.deployment.Ok? && req.deployment.value.priorityClassName == PriorityClassName ==>
        r.Ok? && r.value.response == Some(NoOpResponse(req.uid))
    ensures var req := review.request.value;
      req.deployment.Ok? && req.deployment.value.priorityClassName != PriorityClassName ==>
        var w := req.deployment.value;
        && r.Ok? && r.value.response.Some?
        && r.value.response.value.patch == Some(BuildJsonPatch(PriorityClassName, now))
        && r.value.response.value.warnings == [Diagnosis(w), AddedWarning(DisplayName(w))]
        && r.value.response.value.auditAnnotations == w.annotations
  {
    var req := review.request.value;
    if req.deployment.Err? {
      return Err(UnmarshalError(UnmarshalMessage(req.deployment.error)));
    }
    var deployment := req.deployment.value;
    var deploymentName := DisplayName(deployment);
    var response := AdmissionResponse(req.uid, true, None, [], None);
    if deployment.priorityClassName != PriorityClassName {
      var patch := BuildJsonPatch(PriorityClassName, now);
      response := response.(auditAnnotations := deployment.annotations);
      response := response.(patch := Some(patch));
      var patchMsg := AddedWarning(deploymentName);
      if deployment.priorityClassName == "" {
        response := response.(warnings := [NotSetWarning(deploymentName), patchMsg]);
      } else {
        response := response.(warnings := [AlreadySetWarning(deploymentName, deployment.priorityClassName), patchMsg]);
      }
    }
    r := Ok(AdmissionReview(None, Some(response)));
  }

  /** `HandlePriorityClass`: validate, parse, build, send. The reply is a
      200 exactly when the request is a JSON POST whose body parses and whose
      object decodes, and its body is then the decision for that request;
      each failure gets its own status. */
  method HandlePriorityClass(
    request: HttpRequest,
    body: Result<Bytes, string>,
    decode: Bytes -> Result<AdmissionReview, string>,
    now: string)
    returns (reply: Reply)
    ensures ValidateRequest(request).Rejected? ==> reply == ValidateRequest(request).reply
    ensures ValidateRequest(request).Accepted? && ParseRequest(body, decode).Err? ==>
      reply == HttpError(ParseRequest(body, decode).error, StatusBadRequest)
    ensures ValidateRequest(request).Accepted? && ParseRequest(body, decode).Ok? ==>
      var req := ParseRequest(body, decode).value.request.value;
      (req.deployment.Err? ==> reply == HttpError(UnmarshalMessage(req.deployment.error), StatusInternalServerError))
    ensures reply.status == StatusOK <==>
      && request.httpMethod == MethodPost && request.contentType == JsonContentType
      && ParseRequest(body, decode).Ok?
      && ParseRequest(body, decode).value.request.value.deployment.Ok?
    ensures reply.status == StatusOK ==>
      var req := ParseRequest(body, decode).value.request.value;
      && reply.contentType == JsonContentType
      && reply.allow.None?
      && reply.body == Json(AdmissionReview(None, Some(Decide(req, now).value)))
      && reply.body.review.response.value.uid == req.uid
      && reply.body.review.response.value.allowed
  {
    var validation := ValidateRequest(request);
    if validation.Rejected? {
      return validation.reply;
    }
    var parsed := ParseRequest(body, decode);
    if parsed.Err? {
      return HttpError(parsed.error, StatusBadRequest);
    }
    var built := BuildResponse(parsed.value, now);
    if built.Err? {
      return HttpError(built.error.message, StatusInternalServerError);
    }
    reply := SendResponse(built.value);
  }
}
