/** The parts of an apps/v1 Deployment that the webhook reads, already decoded. */
module Workload {
  /** A `resource.Quantity`, kept opaque. `ZeroQuantity` is Go's zero value, which is what
      indexing a resource list with a missing resource name yields. */
  datatype Quantity = ZeroQuantity | Amount(repr: string)

  /** A `corev1.ResourceList`: resource name to quantity. */
  type ResourceList = map<string, Quantity>

  const ResourceCpu: string := "cpu"
  const ResourceMemory: string := "memory"

  /** Go's `list[name]` on a resource list. */
  function QuantityOf(list: ResourceList, name: string): Quantity {
    if name in list then list[name] else ZeroQuantity
  }

  /** Go's `m[key]` on a `map[string]string`: the empty string when the key is absent.
      A nil map reads like an empty one. */
  function Lookup(m: map<string, string>, key: string): string {
    if key in m then m[key] else ""
  }

  datatype Container = Container(name: string, requests: ResourceList, limits: ResourceList)

  datatype ObjectMeta = ObjectMeta(name: string, namespace: string)

  /** `metadata`, `spec.template.metadata.annotations`, `spec.template.metadata.labels`,
      `spec.template.spec.nodeSelector` and `spec.template.spec.containers`. */
  datatype Deployment = Deployment(
    meta: ObjectMeta,
    templateAnnotations: map<string, string>,
    templateLabels: map<string, string>,
    nodeSelector: map<string, string>,
    containers: seq<Container>)
}
