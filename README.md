# Priority-class mutating admission webhook — Dafny model

This project models the admission decision pipeline of a Kubernetes mutating
admission webhook that forces every Deployment's pod template onto the
priority class `high-priority-nonpreempting`. An HTTP request is validated
(POST, `Content-Type: application/json`), its body is parsed into an
`AdmissionReview` whose request must not be nil, the embedded Deployment is
decoded, and the webhook answers with the request's uid, `allowed: true`
and, unless the Deployment already uses the target class, a JSON Patch
(RFC 6902, paths are RFC 6901 JSON Pointers) that sets
`/spec/template/spec/priorityClassName` and stamps the annotation
`priorityClassWebhook/updated_at`, two warnings in a fixed order, and audit
annotations.

The repository holds two revisions of the same package, modelled as two
modules:

- `MainRevision` (main.go): the patch is a pure value; the annotations are
  written with `add` and a freshly built one-key map, and the audit
  annotations are the Deployment's original annotations.
- `HelpersRevision` (helpers.go): the Deployment is an object whose
  annotations map (a Go map, i.e. a reference) is mutated in place by
  `buildJsonPatch`; the patch `replace`s the annotations with that map, and
  the audit annotations, read from the same map afterwards, carry the marker.

What the two revisions share (the constants, `validateRequest`,
`parseRequest`, `sendResponse`, the display name and the first warning) is
identical in behaviour in both files and is modelled once, in `Admission`.
`JsonPatch` gives the meaning of a patch: how the API server applies it to
the Deployment. The idempotence and "which annotations survive" properties
are stated against it. `Corrected` is the intended behaviour where the code
is wrong (see Findings).

Inputs instead of foreign code: the result of `io.ReadAll` and the
universal deserializer (a function `Bytes -> Result<AdmissionReview, string>`)
are parameters of `ParseRequest`; the outcome of `json.Unmarshal` of the raw
object is the `deployment` field of `AdmissionRequest`; the formatted
`time.Now()` is the string parameter `now`.

Some details of the code worth stating outright. The display name is `namespace + "/" + name`, with no fallback to
`generateName` (main.go:150, helpers.go:84). main.go patches the annotations
with `add`, not `replace` (main.go:224). Only Deployments are decoded, and
the messages always say "Deployment".

## Model

| member | source | states |
|---|---|---|
| `Admission.ValidateRequest` | main.go:107-120 | accepted iff the method is POST and the Content-Type is exactly application/json; a non-POST gets 405 with `Allow: POST` whatever its content type; a POST with another content type gets 400 "Invalid content type <ct>" (helpers.go:41-54 is the same code) |
| `Admission.ParseRequest` | main.go:123-137 | succeeds iff the body was read, decoded, and the envelope's request is not nil, and then returns the decoded envelope unchanged; each failure has its own message (helpers.go:57-71 is the same code) |
| `Admission.SendResponse` | main.go:199-210 | status 200, Content-Type application/json, body the review as given |
| `Admission.HttpError` | main.go:91 | `http.Error` (also main.go:98, main.go:110, main.go:115): a plain-text reply with the given status whose body is the message and a newline |
| `Admission.DisplayName` | main.go:150 | the display name is the namespace and the name joined by a single '/' (helpers.go:84 is the same) |
| `Admission.DisplayNameSplits` | main.go:150 | the display name `namespace/name` splits back, at its first '/', into the namespace and the name (namespaces contain no '/') |
| `Admission.NotSetWarning` | main.go:181 | the not-set warning names the Deployment |
| `Admission.AlreadySetWarning` | main.go:186-189 | the already-set warning names the Deployment and ends with its current class |
| `Admission.Diagnosis` | main.go:180-191 | the first warning names the Deployment; it is the not-set message when the class is empty, and otherwise the already-set message ending with the current class (helpers.go:114-127 is the same) |
| `JsonPatch.ApplyOp` | main.go:60-65 | one patch operation on the two modelled paths (`add` creates or overwrites, `replace` needs an existing member) never renames the workload |
| `JsonPatch.ApplyPatch` | main.go:60-65 | the operations are applied in order and any failure fails the whole patch; a successful patch keeps namespace and name |
| `JsonPatch.ApplyPatchAppend` | main.go:60-65 | applying `p + q` is applying `p` and then `q` to its result |
| `MainRevision.AddedWarning` | main.go:178 | the second warning names the target class and ends with the display name followed by a full stop |
| `MainRevision.BuildJsonPatch` | main.go:213-236 | the patch is exactly two `add` operations, the priority class first and the annotations second; applied to any Deployment, it succeeds, sets the priority class, and leaves exactly one annotation, the marker with the given time |
| `MainRevision.PatchDropsOtherAnnotations` | main.go:223-227 | every existing annotation other than the marker is absent after the patch |
| `MainRevision.PatchIdempotent` | main.go:217-228 | applying the patch to its own result changes nothing |
| `MainRevision.PatchOpsCommute` | main.go:217-228 | the two operations touch disjoint paths, so swapping them gives the same result |
| `MainRevision.Decide` | main.go:161-192 | an undecodable object is an error; otherwise uid echoed and allowed; no patch exactly on the target class, and then exactly {uid, allowed}; otherwise the patch is `BuildJsonPatch`, the warnings are [diagnosis, added-to message] and the audit annotations the original ones |
| `MainRevision.BuildResponse` | main.go:140-196 | the field-by-field assembly returns exactly `Decide`'s result in a review: an undecodable object is an error; otherwise the uid is echoed and allowed is true; on the target class there is no patch, no warning and no audit annotation; otherwise the patch is `BuildJsonPatch`, the warnings are [does-not-have / already-set-to diagnosis, "PriorityClassName … added to Deployment ns/name."] in that order, and the audit annotations are the Deployment's original ones |
| `MainRevision.HandlePriorityClass` | main.go:81-104 | a validation failure returns its reply, a parse failure 400, a decode failure 500; the reply is 200 exactly when the request is a JSON POST whose body parses and whose object decodes, and then it carries no Allow header and its JSON body is the review holding `Decide`'s response for the parsed request |
| `MainRevision.ReadmissionIsNoOp` | main.go:168-192 | after the patch of a first admission is applied, deciding on the patched Deployment again (at any later time) yields the no-op response |
| `HelpersRevision.AnnotationMap.Put` | helpers.go:152 | the map assignment sets one key and leaves every other key's value |
| `HelpersRevision.Deployment.Unmarshal` | helpers.go:77-81 | the decoded Deployment object holds exactly the workload's fields; a missing annotations map is null |
| `HelpersRevision.BuildJsonPatch` | helpers.go:149-173 | with a nil annotations map it fails (Go panics); otherwise the Deployment's own map gains the marker in place and the patch is `add` priority class then `replace` annotations with that same marked map |
| `HelpersRevision.UpdatedWarning` | helpers.go:112 | the second warning names the workload and ends with the target class followed by a full stop |
| `HelpersRevision.JsonPatchFor` | helpers.go:153-164 | the patch is exactly an `add` of the priority class followed by a `replace` of the annotations; applied to a Deployment, it sets the priority class and replaces the annotations with the map it carries, and fails when the Deployment has no annotations |
| `HelpersRevision.PatchKeepsOtherAnnotations` | helpers.go:151-164 | after the patch every earlier annotation other than the marker keeps its value, the marker holds the time, and no other key is added |
| `HelpersRevision.PatchIdempotent` | helpers.go:153-164 | applying the patch to its own result changes nothing |
| `HelpersRevision.PatchOpsCommute` | helpers.go:153-164 | swapping the two operations gives the same result |
| `HelpersRevision.Decide` | helpers.go:95-129 | it is an error exactly when the object does not decode or the nil-map panic applies; an undecodable object gets the unmarshal message; a Deployment on the target class gets exactly {uid, allowed}; any other fails with the nil-map panic exactly when it has no annotations, and otherwise gets the patch with the marked map, the warnings [diagnosis, was-updated message] and audit annotations equal to the marked map |
| `HelpersRevision.BuildResponse` | helpers.go:74-132 | the object-based assembly, which marks the map in place, returns exactly `Decide`'s result in a review: uid echoed and allowed on every success; the target class gives exactly {uid, allowed}; otherwise a nil annotations map fails with the panic, and an existing one gives the patch, the warnings [diagnosis, "Deployment ns/name was updated with PriorityClassName …."] in that order, and audit annotations equal to the marked map the patch sends (the aliasing) |
| `HelpersRevision.ResponseIgnoresRequester` | helpers.go:86-103 | two requests that differ only in operation or user get the same decision |
| `HelpersRevision.ReadmissionIsNoOp` | helpers.go:102-129 | whenever the first decision patches, the patch applies and deciding on the patched Deployment again yields the no-op response |
| `HelpersRevision.UnannotatedDeploymentPanics` | helpers.go:151-152 | the decision for a Deployment foo/test-deployment without annotations and without a priority class is the nil-map panic |
| `Corrected.BuildJsonPatch` | helpers.go:149-164 | the corrected patch is two `add` operations, the priority class first and the annotations second; applied to a Deployment carrying the given annotations, or none, it always succeeds, sets the class and leaves the marked copy as the annotations |
| `Corrected.PatchKeepsAnnotations` | helpers.go:149-164 | the corrected patch applies to every Deployment, annotated or not, sets the priority class, keeps every other annotation with its value and adds only the marker |
| `Corrected.BuildResponse` | helpers.go:102-129 | with the corrected patch, admission fails only when the object does not decode; uid echoed, allowed, and a patch exactly when the class is not the target, which is then the corrected patch over the marked map, with the same warnings as helpers.go and audit annotations equal to the marked map |
| `Corrected.ReadmissionIsNoOp` | helpers.go:102-129 | for every decodable Deployment, applying the corrected patch and admitting again gives the no-op response |

## Left out

- HTTPS server start-up, gorilla/mux routing, TLS files and flag parsing (main.go:29-78, helpers.go:27-38): process plumbing with no decision logic.
- The universal deserializer and `json.Unmarshal` (main.go:26, main.go:130, main.go:144; helpers.go:24, helpers.go:64, helpers.go:78): foreign library code, replaced by inputs (a decode function and a decoded `Result`).
- `json.Marshal` of the patch and of the response, and base64 in the response: the patch stays a sequence of operations and the reply body a review value. Marshalling strings and `map[string]string` cannot fail, so the 500 replies for "could not build JSON patch" and "could not marshal JSON Admission Response" are not modelled.
- `time.Now` and its layout string (main.go:214-216, helpers.go:150-152): the formatted time is the input `now`.
- Logging (`log.Printf`, `log.Println`), and the `X-Content-Type-Options` header that `http.Error` also sets.
- What net/http does with a panic (it recovers and drops the connection): the model stops at the `NilMapAssignment` error.
- helpers.go has no handler of its own, so its `BuildResponse` errors are not mapped to HTTP replies.
- handlers_test.go is not modelled: it calls `webhookHandler`, which is not part of these files, and expects output of a later revision (DaemonSet wording, an `updated_by` marker, no audit annotations).
- DaemonSets and the `kind` of the request: both revisions decode only `v1.Deployment`.
- JsonPatch.ApplyOp: the modelled document has only the two locations the webhook patches; an operation on any other path, or with a value of the wrong shape, fails.

## Findings

| source | as written | input that shows it | evidently intended | confidence | as-written member | corrected member |
|---|---|---|---|---|---|---|
| main.go:223-227 | the annotations are patched with `add` and a new map holding only the marker, and `add` on an existing member replaces it | Deployment foo/test-deployment, annotation some_annotation=some_value, no priority class: after the patch its only annotation is the marker | add the marker and keep the existing annotations, as helpers.go:151-164 does and as handlers_test.go:25 expects for some_annotation | medium; not executed | `MainRevision.PatchDropsOtherAnnotations` | `Corrected.PatchKeepsAnnotations` |
| helpers.go:151-152 | the marker is written into `deployment.ObjectMeta.Annotations` without a nil check | Deployment foo/test-deployment with no `metadata.annotations` and no priority class: assignment to an entry in a nil map panics and no response is sent (and the `replace` would also fail on the absent member) | start from an empty map when there is none and send it with `add` | high; not executed | `HelpersRevision.UnannotatedDeploymentPanics` | `Corrected.PatchKeepsAnnotations` |
