/** How the API server applies the webhook's JSON Patch (RFC 6902) to the
    workload, restricted to the two locations the webhook ever addresses.
    This is the reference semantics the patch-building code is judged
    against; it is not code of the webhook itself. */
module JsonPatch {
  import opened Wrappers
  import opened Admission

  const PriorityClassNamePath := "/spec/template/spec/priorityClassName"
  const AnnotationsPath := "/metadata/annotations"

  /** One operation. "add" on an object member creates it or replaces its
      value (section 4.1 of RFC 6902); "replace" requires the member to
      exist (section 4.3 of RFC 6902). An omitted priority class ("") and a nil
      annotations map are absent members. Any other path or value kind is
      outside the modelled document and fails. */
  function ApplyOp(w: Workload, op: PatchOp): (r: Option<Workload>)
    ensures r.Some? ==> r.value.namespace == w.namespace && r.value.name == w.name
  {
    if op.path == PriorityClassNamePath && op.value.Str? then
      if op.op == Replace && w.priorityClassName == "" then None
      else Some(w.(priorityClassName := op.value.s))
    else if op.path == AnnotationsPath && op.value.Obj? then
      if op.op == Replace && w.annotations.None? then None
      else Some(w.(annotations := Some(op.value.m)))
    else None
  }

  /** The whole patch, operation by operation; one failing operation makes
      the whole patch fail (section 5 of RFC 6902). A patch to these paths
      never renames the workload. */
  function ApplyPatch(w: Workload, ops: seq<PatchOp>): (r: Option<Workload>)
    ensures r.Some? ==> r.value.namespace == w.namespace && r.value.name == w.name
    decreases |ops|
  {
    if ops == [] then Some(w)
    else
      match ApplyOp(w, ops[0])
      case None => None
      case Some(next) => ApplyPatch(next, ops[1..])
  }

  /** Applying `p + q` is applying `p`, then `q` to its result. */
  lemma {:induction false} ApplyPatchAppend(w: Workload, p: seq<PatchOp>, q: seq<PatchOp>)
    ensures ApplyPatch(w, p + q) ==
      match ApplyPatch(w, p)
      case None => None
      case Some(mid) => ApplyPatch(mid, q)
    decreases |p|
  {
    if p == [] {
      assert p + q == q;
    } else {
      assert (p + q)[0] == p[0];
      assert (p + q)[1..] == p[1..] + q;
      match ApplyOp(w, p[0])
      case None =>
      case Some(next) => ApplyPatchAppend(next, p[1..], q);
    }
  }

  /** A two-operation patch is its two operations in sequence. */
  lemma ApplyTwo(w: Workload, a: PatchOp, b: PatchOp)
    ensures ApplyPatch(w, [a, b]) ==
      match ApplyOp(w, a)
      case None => None
      case Some(mid) => ApplyOp(mid, b)
  {
    assert [a, b] == [a] + [b];
    ApplyPatchAppend(w, [a], [b]);
    ApplySingle(w, a);
    match ApplyOp(w, a)
    case None =>
    case Some(mid) => ApplySingle(mid, b);
  }

  /** A one-operation patch is that operation. */
  lemma ApplySingle(w: Workload, a: PatchOp)
    ensures ApplyPatch(w, [a]) == ApplyOp(w, a)
  {
    assert [a][1..] == [];
  }
}
