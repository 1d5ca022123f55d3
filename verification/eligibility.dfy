/** The eligibility policy of `mutationRequired` (webhook.go:76-107):
    should the webhook touch this pod at all? */
module Eligibility {
  import opened Wrappers
  import opened Objects

  /** The inject-annotation values, after lower-casing, that request injection (webhook.go:100). */
  const TruthyTokens: set<string> := {"y", "yes", "true", "on"}

  /** The status-annotation value, after lower-casing, that marks a pod as done (webhook.go:94). */
  const InjectedMark: string := "injected"

  /** ASCII lower-casing of one character. */
  function LowerChar(c: char): (d: char)
    ensures 'A' <= c <= 'Z' ==> d as int == c as int + 32
    ensures !('A' <= c <= 'Z') ==> d == c
  {
    if 'A' <= c <= 'Z' then (c as int + 32) as char else c
  }

  /** `strings.ToLower`, restricted to ASCII letters. */
  function ToLower(s: string): (r: string)
    ensures |r| == |s|
    ensures forall i :: 0 <= i < |s| ==> r[i] == LowerChar(s[i])
  {
    if |s| == 0 then "" else [LowerChar(s[0])] + ToLower(s[1..])
  }

  /** The decision chain of `mutationRequired`: ignored namespace first, then the
      status annotation, then the inject annotation. */
  function MutationRequired(ignoredList: seq<string>, meta: Meta): (required: bool)
    ensures meta.namespace in ignoredList ==> !required
    ensures ToLower(Get(meta.annotations, StatusKey)) == InjectedMark ==> !required
    ensures required ==> ToLower(Get(meta.annotations, InjectKey)) in TruthyTokens
    ensures meta.namespace !in ignoredList && ToLower(Get(meta.annotations, StatusKey)) != InjectedMark
            ==> (required <==> ToLower(Get(meta.annotations, InjectKey)) in TruthyTokens)
  {
    if meta.namespace in ignoredList then
      false
    else
      var annotations := Some(OrEmpty(meta.annotations));
      var status := Get(annotations, StatusKey);
      if ToLower(status) == InjectedMark then
        false
      else
        ToLower(Get(annotations, InjectKey)) in TruthyTokens
  }

  /** Pods in kube-system and kube-public are never mutated, whatever their annotations. */
  lemma IgnoredNamespacesNeverMutated(meta: Meta)
    requires meta.namespace == "kube-system" || meta.namespace == "kube-public"
    ensures !MutationRequired(IgnoredNamespaces, meta)
  {
    assert meta.namespace in IgnoredNamespaces;
  }

  /** A pod without annotations, or without the inject annotation, is not mutated. */
  lemma NoInjectAnnotationNotMutated(ignoredList: seq<string>, meta: Meta)
    requires meta.annotations.None? || InjectKey !in meta.annotations.value
    ensures !MutationRequired(ignoredList, meta)
  {
    assert ToLower("") == "";
  }

  /** An already-injected pod (status "injected" in any case) is not mutated,
      even when its inject annotation asks for it. */
  lemma AlreadyInjectedNotMutated(ignoredList: seq<string>, meta: Meta, status: string)
    requires meta.annotations.Some? && StatusKey in meta.annotations.value
    requires meta.annotations.value[StatusKey] == status
    requires |status| == 8 && forall i :: 0 <= i < 8 ==> LowerChar(status[i]) == InjectedMark[i]
    ensures !MutationRequired(ignoredList, meta)
  {
    assert ToLower(status) == InjectedMark;
  }

  /** Mixed-case truthy tokens request injection when there is no status annotation. */
  lemma MixedCaseTokensRequestInjection(ignoredList: seq<string>, meta: Meta, v: string)
    requires meta.namespace !in ignoredList
    requires meta.annotations.Some? && StatusKey !in meta.annotations.value
    requires InjectKey in meta.annotations.value && meta.annotations.value[InjectKey] == v
    requires v in {"Y", "YES", "True", "ON", "yes", "on"}
    ensures MutationRequired(ignoredList, meta)
  {
    assert ToLower("") == "";
    assert ToLower(v) in TruthyTokens by {
      if v == "Y" { assert ToLower(v) == "y"; }
      else if v == "YES" { assert ToLower(v) == "yes"; }
      else if v == "True" { assert ToLower(v) == "true"; }
      else if v == "ON" { assert ToLower(v) == "on"; }
      else if v == "yes" { assert ToLower(v) == "yes"; }
      else { assert ToLower(v) == "on"; }
    }
  }
}
