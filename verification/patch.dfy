/** Patch construction: `addContainer`, `updateAnnotation` and `createPatch`
    (webhook.go:109-160). A patch is an ordered list of JSON Patch operations
    (RFC 6902: `add` is section 4.1, `replace` section 4.3). */
module JsonPatch {
  import opened Wrappers
  import opened Objects

  datatype OpKind = Add | Replace

  /** The `value` member, restricted to the shapes the webhook emits. */
  datatype PatchValue<C> =
    | ContainerList(containers: seq<C>)
    | SingleContainer(container: C)
    | StringMap(entries: map<string, string>)
    | Text(text: string)

  /** One `patchOperation` (webhook.go:49-53). */
  datatype Op<C> = Op(kind: OpKind, path: string, value: PatchValue<C>)

  const ContainersPath: string := "/spec/containers"
  const AnnotationsPath: string := "/metadata/annotations"
  /** Prefix of a replace path; the key is appended as is, without RFC 6901 `~1` escaping. */
  const AnnotationKeyPrefix: string := "/metadata/annotations/"

  /** `basePath + "/-"`: the RFC 6901 section 4 token `-` names the end of the array. */
  function AppendPath(basePath: string): string
  {
    basePath + "/-"
  }

  /** The operations `addContainer` emits for `added`; `first` is true while the
      target array is still known to be empty. */
  function ContainerOps<C>(first: bool, added: seq<C>, basePath: string): (ops: seq<Op<C>>)
    ensures |ops| == |added|
    decreases |added|
  {
    if |added| == 0 then []
    else
      var op := if first then Op(Add, basePath, ContainerList([added[0]]))
                else Op(Add, AppendPath(basePath), SingleContainer(added[0]));
      [op] + ContainerOps(false, added[1..], basePath)
  }

  /** The i-th container operation is an `add` carrying the i-th container: the first one
      creates the array when it was empty, every other one appends. */
  lemma {:induction false} ContainerOpsAt<C>(first: bool, added: seq<C>, basePath: string, i: int)
    requires 0 <= i < |added|
    ensures ContainerOps(first, added, basePath)[i]
            == if first && i == 0 then Op(Add, basePath, ContainerList([added[0]]))
               else Op(Add, AppendPath(basePath), SingleContainer(added[i]))
    decreases |added|
  {
    if i > 0 {
      ContainerOpsAt(false, added[1..], basePath, i - 1);
    }
  }

  /** `addContainer`: a loop over `added` that flips `first` after the first element. */
  method AddContainer<C>(target: seq<C>, added: seq<C>, basePath: string) returns (patch: seq<Op<C>>)
    ensures |patch| == |added|
    ensures forall i :: 0 <= i < |added| && (|target| > 0 || i > 0) ==>
              patch[i] == Op(Add, AppendPath(basePath), SingleContainer(added[i]))
    ensures |target| == 0 && |added| > 0 ==> patch[0] == Op(Add, basePath, ContainerList([added[0]]))
    ensures patch == ContainerOps(|target| == 0, added, basePath)
  {
    var first := |target| == 0;
    patch := [];
    var i := 0;
    while i < |added|
      invariant 0 <= i <= |added|
      invariant first == (|target| == 0 && i == 0)
      invariant patch + ContainerOps(first, added[i..], basePath) == ContainerOps(|target| == 0, added, basePath)
    {
      var add := added[i];
      var value := SingleContainer(add);
      var path := basePath;
      if first {
        first := false;
        value := ContainerList([add]);
      } else {
        path := path + "/-";
      }
      assert added[i..][1..] == added[i + 1..];
      patch := patch + [Op(Add, path, value)];
      i := i + 1;
    }
    forall j | 0 <= j < |added|
      ensures patch[j] == if |target| == 0 && j == 0 then Op(Add, basePath, ContainerList([added[0]]))
                          else Op(Add, AppendPath(basePath), SingleContainer(added[j]))
    {
      ContainerOpsAt(|target| == 0, added, basePath, j);
    }
  }

  /** Go's `target == nil || target[key] == ""`: the key has no non-empty value yet. */
  predicate Unset(target: Option<map<string, string>>, key: string)
  {
    target.None? || Get(target, key) == ""
  }

  /** The operations `updateAnnotation` emits for the (key, value) pairs of `added`,
      in iteration order. After an `add`, `target` is reset to the empty map. */
  function AnnotationOps<C>(target: Option<map<string, string>>, added: seq<(string, string)>): (ops: seq<Op<C>>)
    ensures |ops| == |added|
    decreases |added|
  {
    if |added| == 0 then []
    else
      var key, value := added[0].0, added[0].1;
      if Unset(target, key) then
        [Op(Add, AnnotationsPath, StringMap(map[key := value]))] + AnnotationOps(Some(map[]), added[1..])
      else
        [Op(Replace, AnnotationKeyPrefix + key, Text(value))] + AnnotationOps(target, added[1..])
  }

  /** No `add` has been emitted before or at position i: every key up to i already had a value. */
  predicate AllSetThrough(target: Option<map<string, string>>, added: seq<(string, string)>, i: int)
    requires i < |added|
  {
    forall j :: 0 <= j <= i ==> !Unset(target, added[j].0)
  }

  /** The i-th annotation operation is a `replace` of exactly that key iff every key up to
      and including it already had a non-empty value; otherwise it is an `add` of a
      single-entry map at the annotations path. */
  lemma {:induction false} AnnotationOpsAt<C>(target: Option<map<string, string>>, added: seq<(string, string)>, i: int)
    requires 0 <= i < |added|
    ensures AnnotationOps<C>(target, added)[i]
            == if AllSetThrough(target, added, i) then Op(Replace, AnnotationKeyPrefix + added[i].0, Text(added[i].1))
               else Op(Add, AnnotationsPath, StringMap(map[added[i].0 := added[i].1]))
    decreases |added|
  {
    if i > 0 {
      var rest := added[1..];
      assert forall j :: 1 <= j < |added| ==> added[j] == rest[j - 1];
      if Unset(target, added[0].0) {
        AnnotationOpsAt<C>(Some(map[]), rest, i - 1);
        assert Unset(Some(map[]), rest[i - 1].0);
        assert !AllSetThrough(target, added, i);
        assert !AllSetThrough(Some(map[]), rest, i - 1);
      } else {
        AnnotationOpsAt<C>(target, rest, i - 1);
        assert AllSetThrough(target, added, i) <==> AllSetThrough(target, rest, i - 1) by {
          if AllSetThrough(target, rest, i - 1) {
            forall j | 0 <= j <= i ensures !Unset(target, added[j].0) {
              if j > 0 { assert !Unset(target, rest[j - 1].0); }
            }
          }
        }
      }
    }
  }

  /** Once one key is added, every later key is added too, never replaced. */
  lemma AddIsSticky<C>(target: Option<map<string, string>>, added: seq<(string, string)>, i: int, j: int)
    requires 0 <= i < j < |added|
    requires AnnotationOps<C>(target, added)[i].kind == Add
    ensures AnnotationOps<C>(target, added)[j].kind == Add
  {
    AnnotationOpsAt<C>(target, added, i);
    AnnotationOpsAt<C>(target, added, j);
  }

  /** `updateAnnotation`: a loop that appends one operation per key and resets the local
      `target` to an empty map after an `add`. */
  method UpdateAnnotation<C>(target: Option<map<string, string>>, added: seq<(string, string)>) returns (patch: seq<Op<C>>)
    ensures |patch| == |added|
    ensures forall i :: 0 <= i < |added| ==>
              patch[i] == if AllSetThrough(target, added, i) then Op(Replace, AnnotationKeyPrefix + added[i].0, Text(added[i].1))
                          else Op(Add, AnnotationsPath, StringMap(map[added[i].0 := added[i].1]))
    ensures patch == AnnotationOps(target, added)
  {
    var current := target;
    patch := [];
    var i := 0;
    while i < |added|
      invariant 0 <= i <= |added|
      invariant patch + AnnotationOps(current, added[i..]) == AnnotationOps(target, added)
    {
      var key, value := added[i].0, added[i].1;
      assert added[i..][1..] == added[i + 1..];
      if current.None? || Get(current, key) == "" {
        current := Some(map[]);
        patch := patch + [Op(Add, AnnotationsPath, StringMap(map[key := value]))];
      } else {
        patch := patch + [Op(Replace, "/metadata/annotations/" + key, Text(value))];
      }
      i := i + 1;
    }
    forall j | 0 <= j < |added|
      ensures patch[j] == if AllSetThrough(target, added, j) then Op(Replace, AnnotationKeyPrefix + added[j].0, Text(added[j].1))
                          else Op(Add, AnnotationsPath, StringMap(map[added[j].0 := added[j].1]))
    {
      AnnotationOpsAt<C>(target, added, j);
    }
  }

  /** The whole patch `createPatch` encodes: container operations, then annotation operations. */
  function PatchOps<C>(pod: Pod<C>, sidecars: seq<C>, annotations: seq<(string, string)>): (ops: seq<Op<C>>)
  {
    ContainerOps(|pod.containers| == 0, sidecars, ContainersPath) + AnnotationOps(pod.meta.annotations, annotations)
  }

  /** `createPatch`: appends the container operations, then the annotation operations, and
      encodes them; `encodeError` is the outcome of `json.Marshal`, which is not modelled. */
  method CreatePatch<C>(pod: Pod<C>, sidecars: seq<C>, annotations: seq<(string, string)>, encodeError: Option<string>)
    returns (r: Result<seq<Op<C>>, string>)
    ensures encodeError.Some? ==> r == Failure(encodeError.value)
    ensures encodeError.None? ==> r == Success(PatchOps(pod, sidecars, annotations))
    ensures r.Success? ==> |r.value| == |sidecars| + |annotations|
    ensures r.Success? ==> forall i :: 0 <= i < |sidecars| ==> r.value[i].kind == Add && r.value[i].path in {ContainersPath, AppendPath(ContainersPath)}
    ensures r.Success? ==> r.value[|sidecars|..] == AnnotationOps(pod.meta.annotations, annotations)
  {
    var patch: seq<Op<C>> := [];
    var containerOps := AddContainer(pod.containers, sidecars, ContainersPath);
    patch := patch + containerOps;
    var annotationOps := UpdateAnnotation(pod.meta.annotations, annotations);
    patch := patch + annotationOps;
    assert patch == containerOps + annotationOps;
    forall i | 0 <= i < |sidecars| ensures patch[i].kind == Add && patch[i].path in {ContainersPath, AppendPath(ContainersPath)} {
      ContainerOpsAt(|pod.containers| == 0, sidecars, ContainersPath, i);
    }
    if encodeError.Some? {
      r := Failure(encodeError.value);
    } else {
      r := Success(patch);
    }
  }
}
