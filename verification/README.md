# Sidecar-injector admission webhook, modelled in Dafny

This project models the decision and patch-generation core of a Kubernetes mutating
admission webhook (`webhook.go`). For each incoming AdmissionReview, the webhook:

1. decodes the pod;
2. decides whether the pod should be mutated (the eligibility policy);
3. fetches the sidecar templates;
4. keeps the templates whose selector matches the pod's `injector` label;
5. answers with a JSON Patch. The patch appends the selected containers to `spec.containers`
   and sets the status annotation to `injected`.

Modules, one per component of the source:

- `Wrappers`: `Option` and `Result`. A Go nil map or nil pointer is `None`. A Go `(value, error)`
  pair is a `Result`.
- `Objects`: pod metadata, pods, the sidecar templates, the annotation keys, the ignored
  namespaces and Go's map-read semantics. Reading a missing key or a nil map gives `""`.
  Containers are an opaque type parameter `C` throughout.
- `Eligibility`: `mutationRequired` as a function, with its policy proved as lemmas.
- `Selection`: `filterSidecar` as a method with a loop. It is proved equal to the
  specification function `Selected`, and the lemmas characterise `Selected`.
- `JsonPatch`: `addContainer` and `updateAnnotation` as methods with loops, each proved equal to
  a recursive specification function (`ContainerOps`, `AnnotationOps`). Per-index lemmas state
  which operation comes at which position. `createPatch` is a method without a loop, as in the
  source. It appends the two lists, and its contract ties the result to `PatchOps`, the
  concatenation of the two specification functions.
  The operation kinds are `add` (section 4.1 of RFC 6902) and `replace` (section 4.3 of
  RFC 6902). The append token `-` is from section 4 of RFC 6901.
- `Admission`: `mutate`'s chain of early returns as a function, and the part of `serve` that
  copies the request UID into the response. External results are inputs:
  - the template fetch;
  - the pod decode;
  - the envelope decode;
  - `json.Marshal`;
  - the container defaulting.

Two points follow the code literally:

- The `replace` path is `"/metadata/annotations/" + key` (webhook.go:144), with no RFC 6901
  `~1` escaping. The status key contains `/`, so under section 3 of RFC 6901 this path names a
  nested member, not the annotation. The model keeps the concatenation as written.
- `strings.ToLower` is modelled as ASCII lower-casing.

`filterSidecar`'s result is compared with `nil` in `mutate` (webhook.go:229). Go's `append` of
empty slices onto a nil slice stays nil. So "nil" is modelled as "empty": a matching template
with no containers injects nothing.

## Model

| member | source | states |
|---|---|---|
| `Eligibility.ToLower` | webhook.go:94-97 | lower-casing keeps the length and lower-cases every character in place |
| `Eligibility.MutationRequired` | webhook.go:76-107 | never true in an ignored namespace; never true once the status lower-cases to "injected"; otherwise true iff the inject annotation lower-cases to one of y, yes, true, on |
| `Eligibility.IgnoredNamespacesNeverMutated` | webhook.go:78-83 | pods in kube-system and kube-public are never mutated, whatever their annotations |
| `Eligibility.NoInjectAnnotationNotMutated` | webhook.go:85-103 | nil annotations, or no inject annotation, means no mutation |
| `Eligibility.AlreadyInjectedNotMutated` | webhook.go:90-95 | a status of "injected" in any letter case prevents mutation even when injection is requested |
| `Eligibility.MixedCaseTokensRequestInjection` | webhook.go:97-102 | inject values Y, YES, True, ON (and yes, on) with no status annotation request mutation outside ignored namespaces |
| `Selection.SelectedAppend` | webhook.go:184-195 | selection over a concatenated template list is the concatenation of the selections: template order is kept |
| `Selection.SelectedMember` | webhook.go:189-193 | a container is selected iff some item whose selector equals the `injector` label exactly carries it |
| `Selection.SelectedEmpty` | webhook.go:189-193 | nothing is selected iff every matching item has no containers |
| `Selection.NoInjectorLabelSelectsNothing` | webhook.go:185-191 | without an `injector` label nothing is selected, even by an empty selector |
| `Selection.FilterSidecar` | webhook.go:182-196 | the loop returns exactly the in-order concatenation of the matching items' containers, and its error is always nil |
| `JsonPatch.ContainerOps` | webhook.go:109-128 | one operation per added container |
| `JsonPatch.ContainerOpsAt` | webhook.go:110-126 | the i-th operation is an `add` of the i-th container: at the base path as a one-element array when it is the first into an empty array, otherwise at `basePath + "/-"` as a bare container |
| `JsonPatch.AddContainer` | webhook.go:109-128 | the loop with its `first` flag emits one `add` per container, in input order, with the path and value rule above; no containers gives an empty patch |
| `JsonPatch.AnnotationOps` | webhook.go:130-150 | one operation per annotation key |
| `JsonPatch.AnnotationOpsAt` | webhook.go:131-147 | the i-th operation replaces its key at `/metadata/annotations/` + key iff this key and every earlier key already had a non-empty value; otherwise it adds a single-entry map at `/metadata/annotations` |
| `JsonPatch.AddIsSticky` | webhook.go:132-133 | once an `add` is emitted, every later key is added too, because `target` was reset to an empty map |
| `JsonPatch.UpdateAnnotation` | webhook.go:130-150 | the loop that reassigns `target` emits exactly the operations characterised above |
| `JsonPatch.CreatePatch` | webhook.go:153-160 | container operations come first and annotation operations after them; the length is the number of sidecars plus the number of annotations; an encoder failure is returned as the error |
| `Admission.Mutate` | webhook.go:199-258 | exactly one of error / allowed without patch / allowed with a JSON patch; a patch is present iff the pod decoded, is eligible, templates were fetched, something was selected and encoding succeeded; allowed iff no error message; an error iff the pod did not decode or an injecting patch could not be encoded |
| `Admission.MutateDecodeFailure` | webhook.go:200-209 | a pod that does not decode is not allowed, and the response carries the decoder's message |
| `Admission.MutateSkipsStoreWhenNotRequired` | webhook.go:214-221 | an ineligible pod is allowed unchanged, and the template store's answer has no influence on the response |
| `Admission.MutateNothingSelected` | webhook.go:228-234 | an eligible pod for which no template selects a container is allowed unchanged: no patch, no error |
| `Admission.MutateEncodeFailure` | webhook.go:240-247 | when the patch cannot be encoded the response is not allowed and carries the encoder's message |
| `Admission.MutateFailsOpen` | webhook.go:221-227 | a template-store failure gives allowed, no patch, no error |
| `Admission.MutatePatchShape` | webhook.go:228-257 | an injecting response has one `add` per selected, defaulted sidecar in selection order, then one operation setting the status annotation to "injected": an `add` of a single-entry map if the status was unset, else a `replace` |
| `Admission.Serve` | webhook.go:282-301 | the response's UID is the request's whenever a request was decoded; an envelope decode error gives an error response with the decoder's message |
| `Admission.ServeCarriesDecision` | webhook.go:291-300 | apart from the UID, `serve` answers exactly what `mutate` decided |
| `Admission.ScenarioPodEligible` | webhook.go:90-102 | a pod with the inject annotation "true" and no status annotation is eligible |
| `Admission.InjectionScenario` | webhook.go:199-257 | a labelled pod asking for injection with one matching template of two containers gets three operations: two container `add`s, then an `add` of the status annotation |
| `Admission.StoreDownScenario` | webhook.go:221-227 | the same pod with the store unreachable is allowed with no patch and no error |
| `Admission.AlreadyInjectedScenario` | webhook.go:214-220 | a pod whose status is "Injected" is allowed unchanged whatever the store would answer |

## Left out

- HTTP plumbing in `serve` (webhook.go:261-313) is not modelled:
  - reading the body;
  - the empty-body 400 and Content-Type 415 rejections;
  - `http.Error` and `w.Write`;
  - the HTTP 500 on a response-encoding failure, including the missing `return` after it.
  All of this is I/O.
- `getSidecarFromCrd` (webhook.go:162-179) is a network GET plus JSON decoding. Its outcome is
  the input `templates: Result<Template<C>, string>`.
- `json.Unmarshal` of the pod, the Kubernetes deserializer and `json.Marshal` are foreign
  serialisation (webhook.go:19-26, 67-73, 159, 202, 284).
  - Their outcomes are inputs: `Request.decoded`, `Serve`'s `review` and `decodeError`, and
    `encodeError`.
  - A successful patch encoding is represented by the operation list itself.
  - When the envelope decode fails, the model takes the partially filled review as given.
- `defaulter.Default` (webhook.go:238) is library code. `Admission.Defaulted` models its effect
  as a per-container function `defaults` supplied by the caller. Applied to every selected
  container, it stands for the in-place rewrite through the slice shared with `sidecars`.
  Defaulting that depends on the rest of the pod is not modelled.
- `glog` logging and the request fields used only for logging (kind, namespace, name,
  operation, user info) have no effect on results.
- Go map iteration order in `updateAnnotation`: the `added` map is a sequence of key/value
  pairs in whatever order Go iterates it. The only caller passes one key.
- The nil-`Request` dereference in `mutate` (webhook.go:200-202) is a precondition of `Mutate`,
  not a modelled panic. `Serve` requires a request whenever the envelope decoded.
- Eligibility.ToLower: ASCII lower-casing only. `strings.ToLower` maps every Unicode rune to its lower case, so non-ASCII capitals such as 'É' are left as they are here.
- Applying the patch on the API server is not modelled. This includes the effect of the `add`
  at `/metadata/annotations`, which replaces the whole annotation map.

