/** The helpers.go revision of the webhook: the marker is written into the
    workload's own annotations map, in place, and that map is sent with
    `replace`; because Go maps are references, the audit annotations read
    afterwards are the same, already marked, map. */
module HelpersRevision {
  import opened Wrappers
  import opened Admission
  import opened JsonPatch

  /** A Go `map[string]string` value: a reference to mutable entries. */
  class AnnotationMap {
    var entries: map<string, string>

    constructor (entries: map<string, string>)
      ensures this.entries == entries
    {
      this.entries := entries;
    }

    /** `m[key] = value`: one key set, every other key untouched. */
    method Put(key: string, value: string)
      modifies this
      ensures entries == old(entries)[key := value]
      ensures forall k :: k in old(entries) && k != key ==> k in entries && entries[k] == old(entries)[k]
    {
      entries := entries[key := value];
    }
  }

  /** The decoded `v1.Deployment`; `annotations` is null when the Go map is
      nil. */
  class Deployment {
    var namespace: string
    var name: string
    var priorityClassName: string
    var annotations: AnnotationMap?

    /** `json.Unmarshal` of the object into a zero `v1.Deployment`. */
    constructor Unmarshal(w: Workload)
      ensures View() == w
      ensures annotations != null ==> fresh(annotations)
    {
      namespace := w.namespace;
      name := w.name;
      priorityClassName := w.priorityClassName;
      if w.annotations.Some? {
        annotations := new AnnotationMap(w.annotations.value);
      } else {
        annotations := null;
      }
    }

    function Annotations(): Option<map<string, string>>
      reads this, annotations
    {
      if annotations == null then None else Some(annotations.entries)
    }

    /** The deployment as a value. */
    function View(): Workload
      reads this, annotations
    {
      Workload(namespace, name, Annotations(), priorityClassName)
    }
  }

  /** Second warning of a patched response in this revision: it names the
      workload and the target class. */
  function UpdatedWarning(name: string): (s: string)
    ensures PartAt(s, name, 11)
    ensures PartAt(s, PriorityClassName, |s| - 1 - |PriorityClassName|)
    ensures s[|s| - 1] == '.'
  {
    var s := "Deployment " + name + " was updated with PriorityClassName " + PriorityClassName + ".";
    assert s[11..11 + |name|] == name;
    assert s[|s| - 1 - |PriorityClassName|..|s| - 1] == PriorityClassName;
    s
  }

  /** The patch document `buildJsonPatch` marshals, given the (already
      marked) annotations. Applied to a workload, it sets the priority class
      and replaces the annotations; `replace` fails when the workload has
      none. */
  function JsonPatchFor(priorityClassName: string, annotations: map<string, string>): (p: seq<PatchOp>)
    ensures |p| == 2
    ensures p[0].op == Add && p[0].path == PriorityClassNamePath
    ensures p[1].op == Replace && p[1].path == AnnotationsPath
    ensures forall w ::
              ApplyPatch(w, p) == if w.annotations.None? then None
                                  else Some(w.(priorityClassName := priorityClassName,
                                               annotations := Some(annotations)))
  {
    var p := [ PatchOp(Add, PriorityClassNamePath, Str(priorityClassName)),
               PatchOp(Replace, AnnotationsPath, Obj(annotations)) ];
    assert forall w ::
             ApplyPatch(w, p) == if w.annotations.None? then None
                                 else Some(w.(priorityClassName := priorityClassName,
                                              annotations := Some(annotations))) by {
      forall w {
        ApplyTwo(w, p[0], p[1]);
      }
    }
    p
  }

  /** `buildJsonPatch`: stamp the marker into the deployment's own
      annotations map, then describe the new priority class and the whole
      marked map. With a nil map the assignment panics. */
  method BuildJsonPatch(priorityClassName: string, deployment: Deployment, now: string)
    returns (r: Result<seq<PatchOp>, BuildError>)
    modifies deployment.annotations
    ensures deployment.annotations == null ==> r == Err(NilMapAssignment)
    ensures deployment.annotations != null ==>
      && deployment.annotations.entries == old(deployment.annotations.entries)[UpdatedAtKey := now]
      && r == Ok(JsonPatchFor(priorityClassName, deployment.annotations.entries))
  {
    var annotations := deployment.annotations;
    if annotations == null {
      return Err(NilMapAssignment);
    }
    annotations.Put(UpdatedAtKey, now);
    r := Ok(JsonPatchFor(priorityClassName, annotations.entries));
  }

  /** With the marked map this revision sends, applying the patch keeps
      every annotation the workload had other than the marker, with its
      value, adds the marker, and adds nothing else. */
  lemma PatchKeepsOtherAnnotations(w: Workload, now: string)
    requires w.annotations.Some?
    ensures var m := w.annotations.value;
      ApplyPatch(w, JsonPatchFor(PriorityClassName, m[UpdatedAtKey := now])).Some?
    ensures var m := w.annotations.value;
      var after := ApplyPatch(w, JsonPatchFor(PriorityClassName, m[UpdatedAtKey := now])).value;
      && after.priorityClassName == PriorityClassName
      && after.annotations.Some?
      && after.annotations.value.Keys == m.Keys + {UpdatedAtKey}
      && after.annotations.value[UpdatedAtKey] == now
      && (forall k :: k in m && k != UpdatedAtKey ==> after.annotations.value[k] == m[k])
  {
  }

  /** Applying the patch a second time changes nothing. */
  lemma PatchIdempotent(w: Workload, now: string)
    requires w.annotations.Some?
    ensures var p := JsonPatchFor(PriorityClassName, w.annotations.value[UpdatedAtKey := now]);
      ApplyPatch(w, p).Some? && ApplyPatch(ApplyPatch(w, p).value, p) == ApplyPatch(w, p)
  {
  }

  /** The two operations address disjoint paths, so their order does not
      change the result. */
  lemma PatchOpsCommute(w: Workload, annotations: map<string, string>)
    ensures var p := JsonPatchFor(PriorityClassName, annotations);
      ApplyPatch(w, [p[1], p[0]]) == ApplyPatch(w, p)
  {
  }

  /** The decision `buildResponse` takes, as a value: an undecodable object
      is an error; a workload on the target class gets exactly {uid,
      allowed}; any other panics when it has no annotations and otherwise
      gets the patch with the marked map, the two warnings, and audit
      annotations equal to that same marked map. */
  function Decide(req: AdmissionRequest, now: string): (r: Result<AdmissionResponse, BuildError>)
    ensures req.deployment.Err? ==> r == Err(UnmarshalError(UnmarshalMessage(req.deployment.error)))
    ensures r.Ok? ==> req.deployment.Ok? && r.value.uid == req.uid && r.value.allowed
    ensures r.Err? <==>
      || req.deployment.Err?
      || (req.deployment.value.priorityClassName != PriorityClassName && req.deployment.value.annotations.None?)
    ensures req.deployment.Ok? ==>
      var w := req.deployment.value;
      (r == Err(NilMapAssignment) <==> w.priorityClassName != PriorityClassName && w.annotations.None?)
    ensures r.Ok? ==> (r.value.patch.None? <==> req.deployment.value.priorityClassName == PriorityClassName)
    ensures r.Ok? && r.value.patch.None? ==> r.value == NoOpResponse(req.uid)
    ensures r.Ok? && r.value.patch.Some? ==>
      var w := req.deployment.value;
      var marked := w.annotations.value[UpdatedAtKey := now];
      && r.value.patch.value == JsonPatchFor(PriorityClassName, marked)
      && r.value.warnings == [Diagnosis(w), UpdatedWarning(DisplayName(w))]
      && r.value.auditAnnotations == Some(marked)
  {
    match req.deployment
    case Err(e) => Err(UnmarshalError(UnmarshalMessage(e)))
    case Ok(w) =>
      if w.priorityClassName == PriorityClassName then Ok(NoOpResponse(req.uid))
      else if w.annotations.None? then Err(NilMapAssignment)
      else
        var marked := w.annotations.value[UpdatedAtKey := now];
        Ok(AdmissionResponse(
          req.uid, true,
          Some(JsonPatchFor(PriorityClassName, marked)),
          [Diagnosis(w), UpdatedWarning(DisplayName(w))],
          Some(marked)))
  }

  /** `buildResponse`: decode the object into a Deployment object, echo
      the uid, always allow; a workload already on the target class gets
      nothing more. Any other gets the patch and the two warnings, and,
      since the marker was written into the very map the audit annotations
      then read, audit annotations equal to the marked map the patch
      carries. A workload without annotations makes the marker write panic.
      The result is the decision `Decide` describes, wrapped in a review. */
  method BuildResponse(review: AdmissionReview, now: string) returns (r: Result<AdmissionReview, BuildError>)
    requires review.request.Some?
    ensures r == InReview(Decide(review.request.value, now))
    ensures var req := review.request.value;
      req.deployment.Err? ==> r == Err(UnmarshalError(UnmarshalMessage(req.deployment.error)))
    ensures var req := review.request.value;
      r.Ok? ==>
        && req.deployment.Ok? && r.value.request.None? && r.value.response.Some?
        && r.value.response.value.uid == req.uid && r.value.response.value.allowed
    ensures var req := review.request.value;
      req.deployment.Ok? && req.deployment.value.priorityClassName == PriorityClassName ==>
        r == Ok(AdmissionReview(None, Some(NoOpResponse(req.uid))))
    ensures var req := review.request.value;
      req.deployment.Ok? && req.deployment.value.priorityClassName != PriorityClassName ==>
        var w := req.deployment.value;
        (w.annotations.None? <==> r == Err(NilMapAssignment))
    ensures var req := review.request.value;
      req.deployment.Ok? && req.deployment.value.priorityClassName != PriorityClassName &&
      req.deployment.value.annotations.Some? ==>
        var w := req.deployment.value;
        var marked := w.annotations.value[UpdatedAtKey := now];
        && r.Ok? && r.value.response.Some?
        && r.value.response.value.patch == Some(JsonPatchFor(PriorityClassName, marked))
        && r.value.response.value.warnings == [Diagnosis(w), UpdatedWarning(DisplayName(w))]
        && r.value.response.value.auditAnnotations == Some(marked)
  {
    var req := review.request.value;
    if req.deployment.Err? {
      return Err(UnmarshalError(UnmarshalMessage(req.deployment.error)));
    }
    var deployment := new Deployment.Unmarshal(req.deployment.value);
    var deploymentName := DisplayName(deployment.View());
    var response := AdmissionResponse(req.uid, true, None, [], None);
    if deployment.priorityClassName != PriorityClassName {
      var patch := BuildJsonPatch(PriorityClassName, deployment, now);
      if patch.Err? {
        return Err(patch.error);
      }
      response := response.(auditAnnotations := deployment.Annotations());
      response := response.(patch := Some(patch.value));
      var patchMsg := UpdatedWarning(deploymentName);
      if deployment.priorityClassName == "" {
        response := response.(warnings := [NotSetWarning(deploymentName), patchMsg]);
      } else {
        response := response.(warnings := [AlreadySetWarning(deploymentName, deployment.priorityClassName), patchMsg]);
      }
    }
    r := Ok(AdmissionReview(None, Some(response)));
  }

  /** The decision depends on the uid and the object alone: two requests
      that differ only in operation (CREATE, UPDATE, ...) or requesting user
      get the same answer. */
  lemma ResponseIgnoresRequester(a: AdmissionRequest, b: AdmissionRequest, now: string)
    requires a.uid == b.uid && a.deployment == b.deployment
    ensures Decide(a, now) == Decide(b, now)
  {
  }

  /** Admission is idempotent: once the patch of a first admission is
      applied, admitting the patched workload again (at any later time) is a
      no-op. */
  lemma ReadmissionIsNoOp(req: AdmissionRequest, now: string, later: string)
    requires req.deployment.Ok?
    ensures var r := Decide(req, now);
      r.Ok? && r.value.patch.Some? ==>
        && ApplyPatch(req.deployment.value, r.value.patch.value).Some?
        && Decide(req.(deployment := Ok(ApplyPatch(req.deployment.value, r.value.patch.value).value)), later)
           == Ok(NoOpResponse(req.uid))
  {
  }

  /** A Deployment foo/test-deployment without annotations and without a
      priority class: admitting it panics on the marker write instead of
      answering. */
  lemma UnannotatedDeploymentPanics(now: string)
    ensures Decide(AdmissionRequest("f0b23c24-35f6-42a3-99e3-aa4ccab85f91", "CREATE", "someuser@gmail.com",
                                    Ok(Workload("foo", "test-deployment", None, ""))), now)
            == Err(NilMapAssignment)
  {
  }
}
