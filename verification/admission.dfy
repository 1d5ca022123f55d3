/** The admission protocol: `mutate`'s chain of early returns (webhook.go:199-258) and the
    envelope handling of `serve` that copies the request UID into the response
    (webhook.go:282-301). */
module Admission {
  import opened Wrappers
  import opened Objects
  import opened Eligibility
  import opened Selection
  import opened JsonPatch

  datatype PatchType = JSONPatch

  /** The AdmissionRequest fields the webhook uses: the correlation UID and the outcome of
      unmarshalling `Object.Raw` into a pod. */
  datatype Request<C> = Request(uid: string, decoded: Result<Pod<C>, string>)

  /** AdmissionReview; `request` is None when the envelope carried no request. */
  datatype Review<C> = Review(request: Option<Request<C>>)

  /** AdmissionResponse: `result` is the Status message, `patch` stands for the encoded patch bytes. */
  datatype Response<C> = Response(
    uid: string,
    allowed: bool,
    result: Option<string>,
    patch: Option<seq<Op<C>>>,
    patchType: Option<PatchType>)

  /** `&AdmissionResponse{Allowed: true}`. */
  function AllowedUnchanged<C>(): Response<C>
  {
    Response("", true, None, None, None)
  }

  /** `&AdmissionResponse{Result: &metav1.Status{Message: msg}}`: Allowed keeps its zero value. */
  function Errored<C>(msg: string): Response<C>
  {
    Response("", false, Some(msg), None, None)
  }

  /** The three terminal outcomes of one request. */
  predicate IsError<C>(r: Response<C>) { !r.allowed && r.result.Some? && r.patch.None? }
  predicate IsAllowedNoPatch<C>(r: Response<C>) { r.allowed && r.result.None? && r.patch.None? && r.patchType.None? }
  predicate IsAllowedWithPatch<C>(r: Response<C>) { r.allowed && r.result.None? && r.patch.Some? && r.patchType == Some(JSONPatch) }

  /** The annotation update `mutate` asks for (webhook.go:239). */
  const StatusUpdate: seq<(string, string)> := [(StatusKey, "injected")]

  /** Every sidecar after `defaulter.Default`, which fills in defaults container by container. */
  function Defaulted<C>(defaults: C -> C, sidecars: seq<C>): (r: seq<C>)
    ensures |r| == |sidecars|
    ensures forall i :: 0 <= i < |sidecars| ==> r[i] == defaults(sidecars[i])
  {
    seq(|sidecars|, i requires 0 <= i < |sidecars| => defaults(sidecars[i]))
  }

  /** Whether the request gets a patch: decoded, eligible, templates fetched, something
      selected and the patch encoded. */
  predicate Injects<C>(req: Request<C>, templates: Result<Template<C>, string>, encodeError: Option<string>)
  {
    && req.decoded.Success?
    && MutationRequired(IgnoredNamespaces, req.decoded.value.meta)
    && templates.Success?
    && |Selected(OrEmpty(req.decoded.value.meta.labels), templates.value.items)| > 0
    && encodeError.None?
  }

  /** `mutate`: `templates` is what `getSidecarFromCrd` returned, `defaults` the effect of
      `defaulter.Default` on one container, `encodeError` the outcome of `json.Marshal`.
      The request must be present: the source dereferences it unchecked. */
  function Mutate<C>(review: Review<C>, templates: Result<Template<C>, string>, defaults: C -> C, encodeError: Option<string>): (r: Response<C>)
    requires review.request.Some?
    ensures IsError(r) || IsAllowedNoPatch(r) || IsAllowedWithPatch(r)
    ensures r.uid == ""
    ensures r.patch.Some? <==> Injects(review.request.value, templates, encodeError)
    ensures r.allowed <==> r.result.None?
    ensures IsError(r) <==> review.request.value.decoded.Failure?
                            || (&& MutationRequired(IgnoredNamespaces, review.request.value.decoded.value.meta)
                                && templates.Success?
                                && |Selected(OrEmpty(review.request.value.decoded.value.meta.labels), templates.value.items)| > 0
                                && encodeError.Some?)
  {
    var req := review.request.value;
    match req.decoded
    case Failure(e) => Errored(e)
    case Success(pod) =>
      if !MutationRequired(IgnoredNamespaces, pod.meta) then
        AllowedUnchanged()
      else
        match templates
        case Failure(_) => AllowedUnchanged()
        case Success(st) =>
          var sidecars := Selected(OrEmpty(pod.meta.labels), st.items);
          if |sidecars| == 0 then
            AllowedUnchanged()
          else
            var patched := Defaulted(defaults, sidecars);
            if encodeError.Some? then
              Errored(encodeError.value)
            else
              Response("", true, None, Some(PatchOps(pod, patched, StatusUpdate)), Some(JSONPatch))
  }

  /** A pod that cannot be decoded is refused with the decoder's message. */
  lemma MutateDecodeFailure<C>(review: Review<C>, templates: Result<Template<C>, string>, defaults: C -> C, encodeError: Option<string>)
    requires review.request.Some? && review.request.value.decoded.Failure?
    ensures var r := Mutate(review, templates, defaults, encodeError);
            IsError(r) && r.result == Some(review.request.value.decoded.error)
  {
  }

  /** When the pod is not eligible the answer is "allowed, unchanged" and the template store's
      answer has no influence: the store is consulted only after eligibility holds. */
  lemma MutateSkipsStoreWhenNotRequired<C>(review: Review<C>, t1: Result<Template<C>, string>, t2: Result<Template<C>, string>,
                                           defaults: C -> C, e1: Option<string>, e2: Option<string>)
    requires review.request.Some? && review.request.value.decoded.Success?
    requires !MutationRequired(IgnoredNamespaces, review.request.value.decoded.value.meta)
    ensures Mutate(review, t1, defaults, e1) == Mutate(review, t2, defaults, e2) == AllowedUnchanged()
  {
  }

  /** A template-store failure fails open: allowed, no patch, no error. */
  lemma MutateFailsOpen<C>(review: Review<C>, msg: string, defaults: C -> C, encodeError: Option<string>)
    requires review.request.Some? && review.request.value.decoded.Success?
    ensures Mutate(review, Failure(msg), defaults, encodeError) == AllowedUnchanged()
  {
  }

  /** An eligible pod for which no template selects a container is allowed unchanged. */
  lemma MutateNothingSelected<C>(review: Review<C>, st: Template<C>, defaults: C -> C, encodeError: Option<string>)
    requires review.request.Some? && review.request.value.decoded.Success?
    requires MutationRequired(IgnoredNamespaces, review.request.value.decoded.value.meta)
    requires |Selected(OrEmpty(review.request.value.decoded.value.meta.labels), st.items)| == 0
    ensures Mutate(review, Success(st), defaults, encodeError) == AllowedUnchanged()
  {
  }

  /** When the patch cannot be encoded, the response is an error carrying the encoder's message. */
  lemma MutateEncodeFailure<C>(review: Review<C>, st: Template<C>, defaults: C -> C, msg: string)
    requires review.request.Some? && review.request.value.decoded.Success?
    requires MutationRequired(IgnoredNamespaces, review.request.value.decoded.value.meta)
    requires |Selected(OrEmpty(review.request.value.decoded.value.meta.labels), st.items)| > 0
    ensures var r := Mutate(review, Success(st), defaults, Some(msg));
            IsError(r) && r.result == Some(msg)
  {
  }

  /** An injecting response carries one `add` per selected sidecar, in selection order and
      after defaulting, followed by one operation setting the status annotation to "injected". */
  lemma MutatePatchShape<C>(review: Review<C>, templates: Result<Template<C>, string>, defaults: C -> C, encodeError: Option<string>)
    requires review.request.Some? && Injects(review.request.value, templates, encodeError)
    ensures var r := Mutate(review, templates, defaults, encodeError);
            var pod := review.request.value.decoded.value;
            var sidecars := Selected(OrEmpty(pod.meta.labels), templates.value.items);
            && IsAllowedWithPatch(r)
            && |r.patch.value| == |sidecars| + 1
            && (forall i :: 0 <= i < |sidecars| ==>
                  r.patch.value[i] == if |pod.containers| == 0 && i == 0 then Op(Add, ContainersPath, ContainerList([defaults(sidecars[0])]))
                                      else Op(Add, AppendPath(ContainersPath), SingleContainer(defaults(sidecars[i]))))
            && r.patch.value[|sidecars|]
               == if Unset(pod.meta.annotations, StatusKey) then Op(Add, AnnotationsPath, StringMap(map[StatusKey := "injected"]))
                  else Op(Replace, AnnotationKeyPrefix + StatusKey, Text("injected"))
  {
    var r := Mutate(review, templates, defaults, encodeError);
    var pod := review.request.value.decoded.value;
    var sidecars := Selected(OrEmpty(pod.meta.labels), templates.value.items);
    var patched := Defaulted(defaults, sidecars);
    assert r.patch.value == ContainerOps(|pod.containers| == 0, patched, ContainersPath) + AnnotationOps(pod.meta.annotations, StatusUpdate);
    forall i | 0 <= i < |sidecars|
      ensures r.patch.value[i] == if |pod.containers| == 0 && i == 0 then Op(Add, ContainersPath, ContainerList([defaults(sidecars[0])]))
                                  else Op(Add, AppendPath(ContainersPath), SingleContainer(defaults(sidecars[i])))
    {
      ContainerOpsAt(|pod.containers| == 0, patched, ContainersPath, i);
    }
    AnnotationOpsAt<C>(pod.meta.annotations, StatusUpdate, 0);
  }

  /** `serve` after the envelope is decoded: `decodeError` is the deserializer's error, `review`
      what it filled in. The request UID is copied whenever a request is present. */
  function Serve<C>(review: Review<C>, decodeError: Option<string>, templates: Result<Template<C>, string>,
                    defaults: C -> C, encodeError: Option<string>): (r: Response<C>)
    requires decodeError.None? ==> review.request.Some?
    ensures review.request.Some? ==> r.uid == review.request.value.uid
    ensures review.request.None? ==> r.uid == ""
    ensures decodeError.Some? ==> IsError(r) && r.result == decodeError
    ensures IsError(r) || IsAllowedNoPatch(r) || IsAllowedWithPatch(r)
  {
    var response := if decodeError.Some? then Errored(decodeError.value) else Mutate(review, templates, defaults, encodeError);
    if review.request.Some? then response.(uid := review.request.value.uid) else response
  }

  /** Apart from the UID, `serve` answers exactly what `mutate` decided. */
  lemma ServeCarriesDecision<C>(review: Review<C>, templates: Result<Template<C>, string>, defaults: C -> C, encodeError: Option<string>)
    requires review.request.Some?
    ensures var r := Serve(review, None, templates, defaults, encodeError);
            r == Mutate(review, templates, defaults, encodeError).(uid := review.request.value.uid)
  {
  }

  /** The workload of the end-to-end scenarios: namespace "default", label injector=logging,
      and the inject annotation set to "true". */
  function ScenarioPod<C>(existing: seq<C>, extra: map<string, string>): Pod<C>
  {
    Pod(Meta("default", "app", Some(map[InjectorLabel := "logging"]), Some(map[InjectKey := "true"] + extra)), existing)
  }

  lemma ScenarioPodEligible<C>(existing: seq<C>)
    ensures MutationRequired(IgnoredNamespaces, ScenarioPod(existing, map[]).meta)
    ensures Unset(ScenarioPod(existing, map[]).meta.annotations, StatusKey)
  {
    var meta := ScenarioPod(existing, map[]).meta;
    assert StatusKey != InjectKey by { assert StatusKey[|StatusKey| - 1] != InjectKey[|InjectKey| - 1]; }
    assert Get(meta.annotations, StatusKey) == "";
    assert Get(meta.annotations, InjectKey) == "true";
    assert ToLower("") == "";
    assert ToLower("true") == "true";
  }

  /** A pod in namespace "default" labelled injector=logging that asks for injection, with one
      matching template of two containers, gets three operations: two container `add`s and an
      `add` of the status annotation. */
  lemma InjectionScenario<C>(uid: string, existing: seq<C>, c1: C, c2: C, defaults: C -> C)
    ensures var review := Review(Some(Request(uid, Success(ScenarioPod(existing, map[])))));
            var r := Serve(review, None, Success(Template([TemplateItem("logging", [c1, c2])])), defaults, None);
            && r.uid == uid && IsAllowedWithPatch(r)
            && |r.patch.value| == 3
            && r.patch.value[0].kind == Add
            && r.patch.value[1] == Op(Add, "/spec/containers/-", SingleContainer(defaults(c2)))
            && r.patch.value[2] == Op(Add, "/metadata/annotations", StringMap(map[StatusKey := "injected"]))
  {
    var pod := ScenarioPod(existing, map[]);
    var review := Review(Some(Request(uid, Success(pod))));
    var st := Template([TemplateItem("logging", [c1, c2])]);
    ScenarioPodEligible(existing);
    assert st.items[..0] == [];
    assert Matches(OrEmpty(pod.meta.labels), st.items[0]);
    assert Selected(OrEmpty(pod.meta.labels), st.items[..0]) == [];
    var sidecars := Selected(OrEmpty(pod.meta.labels), st.items);
    assert sidecars == [c1, c2];
    assert Injects(review.request.value, Success(st), None);
    MutatePatchShape(review, Success(st), defaults, None);
    ServeCarriesDecision(review, Success(st), defaults, None);
    var m := Mutate(review, Success(st), defaults, None);
    assert IsAllowedWithPatch(m) && |m.patch.value| == 3;
    assert m.patch.value[0].kind == Add;
    assert m.patch.value[1] == Op(Add, AppendPath(ContainersPath), SingleContainer(defaults(sidecars[1])));
    assert m.patch.value[2] == Op(Add, AnnotationsPath, StringMap(map[StatusKey := "injected"]));
  }

  /** The same pod when the template store is unreachable: allowed, no patch, no error. */
  lemma StoreDownScenario<C>(uid: string, existing: seq<C>, msg: string, defaults: C -> C)
    ensures var r := Serve(Review(Some(Request(uid, Success(ScenarioPod(existing, map[]))))), None, Failure(msg), defaults, None);
            r.uid == uid && IsAllowedNoPatch(r)
  {
  }

  /** A pod already marked "Injected" is allowed unchanged whatever the store would answer:
      re-admitting an injected pod is a no-op. */
  lemma AlreadyInjectedScenario<C>(uid: string, existing: seq<C>, templates: Result<Template<C>, string>, defaults: C -> C)
    ensures var r := Serve(Review(Some(Request(uid, Success(ScenarioPod(existing, map[StatusKey := "Injected"]))))), None, templates, defaults, None);
            r.uid == uid && IsAllowedNoPatch(r)
  {
    var meta := ScenarioPod(existing, map[StatusKey := "Injected"]).meta;
    assert Get(meta.annotations, StatusKey) == "Injected";
    assert ToLower("Injected") == InjectedMark;
  }
}
