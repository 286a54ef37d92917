/** The admission decision as both revisions evidently intend it: the marker
    is added to the workload's annotations, whatever they were, and every
    existing annotation survives. main.go's `add` of a one-key map erases
    the existing annotations; helpers.go's in-place write panics on a nil
    map (and its `replace` would fail on an absent member). Here the marker
    goes into a copy of the existing map, or into a new map when there is
    none, and is sent with `add`, which is valid in both cases. */
module Corrected {
  import opened Wrappers
  import opened Admission
  import opened JsonPatch
  import HelpersRevision

  /** The workload's annotations with the marker, starting from an empty map
      when it has none. */
  function Marked(annotations: Option<map<string, string>>, now: string): map<string, string> {
    annotations.GetOr(map[])[UpdatedAtKey := now]
  }

  /** The corrected patch: set the priority class, and `add` the marked
      copy of the annotations. Applied to a workload carrying those
      annotations (or none), it always succeeds, sets the priority class and
      leaves the marked map as the annotations. */
  function BuildJsonPatch(priorityClassName: string, annotations: Option<map<string, string>>, now: string)
    : (p: seq<PatchOp>)
    ensures |p| == 2
    ensures p[0].op == Add && p[0].path == PriorityClassNamePath
    ensures p[1].op == Add && p[1].path == AnnotationsPath
    ensures forall w: Workload :: w.annotations == annotations ==>
              ApplyPatch(w, p) == Some(w.(priorityClassName := priorityClassName,
                                          annotations := Some(Marked(annotations, now))))
  {
    var p := [ PatchOp(Add, PriorityClassNamePath, Str(priorityClassName)),
               PatchOp(Add, AnnotationsPath, Obj(Marked(annotations, now))) ];
    assert forall w: Workload :: w.annotations == annotations ==>
             ApplyPatch(w, p) == Some(w.(priorityClassName := priorityClassName,
                                         annotations := Some(Marked(annotations, now)))) by {
      forall w: Workload | w.annotations == annotations {
        ApplyTwo(w, p[0], p[1]);
      }
    }
    p
  }

  /** The patch applies to every workload, sets the priority class, keeps
      every existing annotation other than the marker with its value, and
      adds only the marker. */
  lemma PatchKeepsAnnotations(w: Workload, now: string)
    ensures ApplyPatch(w, BuildJsonPatch(PriorityClassName, w.annotations, now)).Some?
    ensures var after := ApplyPatch(w, BuildJsonPatch(PriorityClassName, w.annotations, now)).value;
      && after.priorityClassName == PriorityClassName
      && after.annotations.Some?
      && after.annotations.value.Keys == w.annotations.GetOr(map[]).Keys + {UpdatedAtKey}
      && after.annotations.value[UpdatedAtKey] == now
      && (forall k :: k in w.annotations.GetOr(map[]) && k != UpdatedAtKey ==>
            after.annotations.value[k] == w.annotations.value[k])
  {
    var p := BuildJsonPatch(PriorityClassName, w.annotations, now);
    ApplyTwo(w, p[0], p[1]);
  }

  /** The decision of helpers.go with the corrected patch: it fails only
      when the object does not decode. */
  function BuildResponse(req: AdmissionRequest, now: string): (r: Result<AdmissionResponse, BuildError>)
    ensures r.Err? <==> req.deployment.Err?
    ensures r.Ok? ==> r.value.uid == req.uid && r.value.allowed
    ensures r.Ok? ==> (r.value.patch.None? <==> req.deployment.value.priorityClassName == PriorityClassName)
    ensures r.Ok? && r.value.patch.None? ==> r.value == NoOpResponse(req.uid)
    ensures r.Ok? && r.value.patch.Some? ==>
      var w := req.deployment.value;
      && r.value.patch.value == BuildJsonPatch(PriorityClassName, w.annotations, now)
      && r.value.warnings == [Diagnosis(w), HelpersRevision.UpdatedWarning(DisplayName(w))]
      && r.value.auditAnnotations == Some(Marked(w.annotations, now))
  {
    match req.deployment
    case Err(e) => Err(UnmarshalError(UnmarshalMessage(e)))
    case Ok(w) =>
      if w.priorityClassName == PriorityClassName then Ok(NoOpResponse(req.uid))
      else
        Ok(AdmissionResponse(
          req.uid, true,
          Some(BuildJsonPatch(PriorityClassName, w.annotations, now)),
          [Diagnosis(w), HelpersRevision.UpdatedWarning(DisplayName(w))],
          Some(Marked(w.annotations, now))))
  }

  /** Idempotence for every decodable workload, annotated or not: after the
      patch is applied, admitting the result again is a no-op. */
  lemma ReadmissionIsNoOp(req: AdmissionRequest, now: string, later: string)
    requires req.deployment.Ok?
    ensures var r := BuildResponse(req, now).value;
      r.patch.Some? ==>
        && ApplyPatch(req.deployment.value, r.patch.value).Some?
        && BuildResponse(req.(deployment := Ok(ApplyPatch(req.deployment.value, r.patch.value).value)), later)
           == Ok(NoOpResponse(req.uid))
  {
    PatchKeepsAnnotations(req.deployment.value, now);
  }
}
