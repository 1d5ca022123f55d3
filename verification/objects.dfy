/** The Kubernetes objects the webhook reads: pod metadata, the pod itself,
    and the sidecar template list served by the template store.
    Containers are opaque: every type here is generic in the container type C. */
module Objects {
  import opened Wrappers

  /** Annotation key a workload sets to ask for injection (webhook.go:34). */
  const InjectKey: string := "sidecar-injector-webhook.morven.me/inject"
  /** Annotation key the webhook writes once it has injected (webhook.go:35). */
  const StatusKey: string := "sidecar-injector-webhook.morven.me/status"
  /** metav1.NamespaceSystem and metav1.NamespacePublic (webhook.go:28-31). */
  const IgnoredNamespaces: seq<string> := ["kube-system", "kube-public"]
  /** The one label key template selection looks at (webhook.go:189). */
  const InjectorLabel: string := "injector"

  /** The parts of ObjectMeta the webhook reads. A nil Go map is None. */
  datatype Meta = Meta(
    namespace: string,
    name: string,
    labels: Option<map<string, string>>,
    annotations: Option<map<string, string>>)

  /** A decoded pod: its metadata and `spec.containers`. */
  datatype Pod<C> = Pod(meta: Meta, containers: seq<C>)

  /** One entry of SidecarTemplate.Items: `selector.injector` and `spec.containers`. */
  datatype TemplateItem<C> = TemplateItem(injector: string, containers: seq<C>)

  /** The template store's answer (SidecarTemplate). */
  datatype Template<C> = Template(items: seq<TemplateItem<C>>)

  /** A nil map reads as the empty map, as the `if x == nil { x = map[string]string{} }`
      guards in the source make it. */
  function OrEmpty(m: Option<map<string, string>>): (r: map<string, string>)
    ensures m.Some? ==> r == m.value
    ensures m.None? ==> |r| == 0
  {
    if m.Some? then m.value else map[]
  }

  /** Go's map read `m[key]`: a missing key (or a nil map) yields "". */
  function Get(m: Option<map<string, string>>, key: string): (v: string)
    ensures v != "" ==> m.Some? && key in m.value && m.value[key] == v
    ensures m.Some? && key in m.value ==> v == m.value[key]
  {
    if m.Some? && key in m.value then m.value[key] else ""
  }
}
