/**
 * The slice of the Kubernetes API objects the webhook reads. A Go `nil`
 * map or slice is `None`; a present but empty one is `Some` of an empty
 * collection, because the webhook treats the two differently.
 */
module KubeTypes {
  import opened Wrappers

  newtype uint8 = x: int | 0 <= x < 256

  datatype ObjectMeta = ObjectMeta(name: string, namespace: string, annotations: Option<map<string, string>>)

  datatype VolumeMount = VolumeMount(name: string, mountPath: string, readOnly: bool)

  datatype VolumeSource = HostPath(path: string) | OtherSource

  datatype Volume = Volume(name: string, source: VolumeSource)

  datatype Container = Container(name: string, volumeMounts: Option<seq<VolumeMount>>)

  datatype Pod = Pod(meta: ObjectMeta, containers: seq<Container>, volumes: Option<seq<Volume>>)

  datatype GroupVersionResource = GroupVersionResource(group: string, version: string, resource: string)

  /** Go's `annotations[key]`: the empty string when the map is nil or the key is absent. */
  function Lookup(annotations: Option<map<string, string>>, key: string): (value: string)
    // a non-empty answer is the entry stored under the key
    // a present key reads its stored entry
    ensures annotations.Some? && key in annotations.value ==> value == annotations.value[key]
    // a non-empty answer is the entry stored under the key
    ensures value != "" ==> annotations.Some? && key in annotations.value && annotations.value[key] == value
  {
    if annotations.Some? && key in annotations.value then annotations.value[key] else ""
  }
}
