# LXCFS admission webhook — a Dafny model

The webhook is a Kubernetes mutating admission webhook. For every pod it is
asked about, it answers with an RFC 6902 JSON Patch that does three things.
It marks the pod with the status annotation
`lxcfs-admission-webhook.aliyun.com/status: mutated`. It mounts eight LXCFS
files (`/proc/cpuinfo`, `/proc/meminfo`, … `/sys/devices/system/cpu/online`)
read-only into every container. It adds the matching host-path volumes under
`/var/lib/lxcfs` to the pod.

The model covers the patch builder, the mutation policy and the request
handler. Each module follows one part of the program:

- `Wrappers` (wrappers.dfy): `Option` and `Result`.
- `GoStrings` (go_strings.dfy): the Go string functions the webhook calls.
  These are `strings.Replace` with count -1, ASCII `strings.ToLower`, and the
  `%d` formatting of a container index. Each has a partner. For replacement
  it is a character-by-character reference definition, and in `JsonPointer`
  the decoder `UnescapeJsonPointerValue`. For lower-casing it is
  `EqualFold`, and for formatting it is `Atoi`.
- `KubeTypes` (kube_types.dfy): the parts of a pod the webhook reads. A Go
  `nil` map or slice is `None`, and an empty one is `Some` of an empty
  collection. The webhook treats the two differently.
- `Config` (config.dfy): the annotation keys, the ignored namespaces, the
  `patchOperation` record and the two templates, with lemmas about their
  contents.
- `JsonPointer` (json_pointer.dfy): `escapeJSONPointerValue` (section 4 of
  RFC 6901) and its inverse, with the round trip proved.
- `Policy` (policy.dfy): `admissionRequired` and `mutationRequired`.
- `PatchBuilder` (patch_builder.dfy): `podLxcfsPatch`. `LxcfsPatches`
  specifies the list of operations as a function of the pod. The method
  `PodLxcfsPatch` builds the list with the source's loops and is proved equal
  to it. Lemmas place each operation in the list. `ApplyToAnnotations` models
  how an RFC 6902 server applies an operation to the annotations. It is used
  to show what the first operation does.
- `Adapter` (adapter.dfy): `applyPodPatch` and `mutatePods`. They are
  functions of the pod decoder and the JSON encoder, which are parameters.

The first operation's op string is modelled exactly as the source writes it.
For a pod whose status annotation is already set, that string is
`" replace"`, with a leading space. `StatusPatchMarksPod` shows what this
means. On a pod whose status is unset, the first operation sets the status,
keeps all other annotations and turns the policy off. On a pod whose status
is already set, the operation is not a valid RFC 6902 operation. The patch
handler in `mutatePods` patches every pod regardless of the policy, so such a
pod gets this patch again (`MarkedPodPatchedAgain`).

## Model

| member | source | states |
|---|---|---|
| GoStrings.ReplaceAll | webhook/pods.go:37-38 | `strings.Replace` with count -1: a replacement no shorter than the pattern never shortens the string, one no longer never lengthens it, and replacing the pattern by itself changes nothing |
| GoStrings.ReplaceAllNoMatch | webhook/pods.go:37-38 | a string without the pattern's first character comes back unchanged |
| GoStrings.ReplaceAllOneChar | webhook/pods.go:37-38 | for a one-character pattern, the left-to-right scan equals the character-by-character reference definition |
| GoStrings.ReplaceCharAppend | webhook/pods.go:37-38 | replacing a one-character pattern distributes over concatenation, so the string can be escaped character by character |
| GoStrings.ToLower | webhook/pods.go:132 | lower-casing keeps the length and lower-cases each character (ASCII) |
| GoStrings.LowerEqualsIffEqualFold | webhook/pods.go:132-149 | `ToLower(v) == w` for a lower-case literal `w` holds exactly when `v` equals `w` ignoring case |
| GoStrings.Itoa | webhook/pods.go:70 | the `%d` text of an index is nonempty, all decimal digits, and has no leading zero |
| GoStrings.AtoiItoa | webhook/pods.go:70 | reading back the `%d` text of an index gives the index |
| GoStrings.ItoaInjective | webhook/pods.go:70 | distinct indices have distinct `%d` texts |
| JsonPointer.EscapeJsonPointerValue | webhook/pods.go:36-39 | escaping never shortens a value, and a value without '~' or '/' is its own reference token; its inverse is stated by `UnescapeEscape` |
| JsonPointer.UnescapeJsonPointerValue | webhook/pods.go:36-39 | the RFC 6901 decoder the escape is checked against (the source has no decoder): it never lengthens a token, and a token without '~' decodes to itself |
| JsonPointer.EscapedChar | webhook/pods.go:36-39 | an escaped character never contains '/', and only '~' and '/' grow to two characters |
| JsonPointer.EscapeOneChar | webhook/pods.go:36-39 | the two passes turn '~' into "~0", '/' into "~1" and leave every other character alone |
| JsonPointer.EscapeCons | webhook/pods.go:36-39 | the escape of a string is the escape of its first character followed by the escape of the rest |
| JsonPointer.EscapeHasNoSlash | webhook/pods.go:36-39 | an escaped value contains no '/', so it is a single JSON Pointer segment |
| JsonPointer.UnescapeStep | webhook/pods.go:36-39 | decoding an escaped character followed by any text gives the character followed by the decoded text |
| JsonPointer.UnescapeEscape | webhook/pods.go:36-39 | unescaping (`~1` to '/', then `~0` to '~') undoes the escape for every string |
| JsonPointer.SlashFirstBreaksRoundTrip | webhook/pods.go:37-38 | the two replacements must run '~' first: the other order turns "/" into "~01", which unescapes to "~1" |
| KubeTypes.Lookup | webhook/pods.go:126-132 | Go's map read: a present key reads its stored entry, and a non-empty answer is the entry stored under the key, so a nil map or a missing key reads "" |
| Policy.OptsOut | webhook/pods.go:132-137 | a value opts out, compared ignoring case, exactly when its lower-cased form is one of the switch's cases n, no, false, off |
| Policy.MarkedMutated | webhook/pods.go:147-149 | a status is "mutated" ignoring case exactly when its lower-cased form equals "mutated" |
| Policy.AdmissionRequired | webhook/pods.go:116-139 | false for a namespace in the ignored list; otherwise false exactly when the annotation (empty when absent) is n, no, false or off, ignoring case |
| Policy.MutationRequired | webhook/pods.go:141-155 | false when the status annotation is "mutated" ignoring case; otherwise the answer of `AdmissionRequired` for the mutate key |
| Policy.MutationPolicy | webhook/pods.go:141-155 | with the configured namespaces: mutation is required exactly when the pod is outside kube-system and kube-public, has not opted out, and is not marked mutated |
| Policy.DefaultRequired | webhook/pods.go:126-138 | a pod outside the ignored namespaces with no annotations (nil or empty) requires mutation |
| Policy.OptOutExamples | webhook/pods.go:132-137 | "No", "OFF", "False" and "n" opt out; "maybe", "" and "yes" do not |
| Config.AnnotationKeysShareDomain | webhook/config.go:24-27 | the mutate and status keys differ and both start with "lxcfs-admission-webhook.aliyun.com/" |
| Config.IgnoredNamespacesAreSystemAndPublic | webhook/config.go:29-34 | the ignored list has two entries, and a namespace is in it exactly when it is kube-system or kube-public |
| Config.JsonMembers | webhook/config.go:36-40 | an operation encodes as op, path and then value, and value is omitted exactly when it is empty |
| Config.VolumeMountsTemplateWellFormed | webhook/config.go:42-84 | eight mounts, all read-only, with pairwise distinct names |
| Config.VolumesTemplateMatchesMounts | webhook/config.go:86-151 | eight volumes; each is a host-path volume at "/var/lib/lxcfs" plus the mount path of the mount with the same name |
| Config.VolumeMatchesMountAt | webhook/config.go:86-151 | the same fact for the volume at a single index |
| Config.TemplatesShareNamesNotOrder | webhook/config.go:42-151 | both templates have the same set of names; entries 1 and 2 (diskstats, meminfo) are swapped between them and all others align |
| PatchBuilder.StatusPatch | webhook/pods.go:45-61 | the op is " replace" exactly when the status annotation is set and "add" otherwise; the value is the one-entry map exactly when the annotations are nil, and the text "mutated" otherwise |
| PatchBuilder.VolumeMountsPath | webhook/pods.go:70 | the path starts with "/spec/containers/" and ends with "/volumeMounts", with the index in between |
| PatchBuilder.VolumeMountsPathIndex | webhook/pods.go:70 | the text between those two parts is all digits and reads back as the container index |
| PatchBuilder.AppendPath | webhook/pods.go:78 | the append path is the array path followed by the RFC 6901 end-of-array token "/-" |
| PatchBuilder.MountOps | webhook/pods.go:68-88 | one operation for a container without mounts and eight otherwise, all "add" with a value |
| PatchBuilder.AppendContainerMounts | webhook/pods.go:69-87 | one iteration of the container loop appends exactly that container's operations |
| PatchBuilder.VolumeOps | webhook/pods.go:90-106 | one operation for nil volumes and eight otherwise, all "add" with a value |
| PatchBuilder.ContainerOps | webhook/pods.go:65-88 | the operations for the first n containers number Σ (1 or 8), all "add" with a value |
| PatchBuilder.LxcfsPatches | webhook/pods.go:41-106 | 1 + Σ over containers (1 or 8) + (1 or 8) operations, every one after the first is "add", and every one encodes with a value |
| PatchBuilder.AppendMounts | webhook/pods.go:78-86 | the inner loop appends one "add" of each template mount, in template order, at the append path |
| PatchBuilder.AppendVolumes | webhook/pods.go:97-106 | the loop appends one "add" of each template volume, in template order, at "/spec/volumes/-" |
| PatchBuilder.StatusOperation | webhook/pods.go:45-61 | the field-by-field construction yields the status operation |
| PatchBuilder.PodLxcfsPatch | webhook/pods.go:41-114 | the method's loops build exactly `LxcfsPatches(pod)` and return the encoder's result for it |
| PatchBuilder.ContainerOpsPrefix | webhook/pods.go:65-88 | the operations for the first m containers are a prefix of those for the first n ≥ m, so containers are processed in index order |
| PatchBuilder.ContainerBlock | webhook/pods.go:65-88 | container i's operations form one block, right after those of containers 0 … i-1 and before those of later containers |
| PatchBuilder.MountOpsShape | webhook/pods.go:68-88 | nil mounts: one "add" of the whole template at /spec/containers/i/volumeMounts; otherwise eight "add" at …/volumeMounts/- in template order |
| PatchBuilder.VolumeOpsShape | webhook/pods.go:90-106 | nil volumes: one "add" of the whole template at /spec/volumes; otherwise eight "add" at /spec/volumes/- in template order |
| PatchBuilder.VolumeMountsPathsDistinct | webhook/pods.go:70-78 | distinct containers get distinct paths, and a whole-array path never equals an append path |
| PatchBuilder.PatchLayout | webhook/pods.go:63-106 | the list is the status operation, then all container operations, then all volume operations |
| PatchBuilder.ApplyToAnnotations | webhook/pods.go:45-61 | not the webhook's code: a model of the API server applying an operation to the annotations under sections 4.1 and 4.3 of RFC 6902; an op other than "add" or "replace" is rejected, and setting one annotation keeps every existing key (that the status operation also keeps their values is stated by `StatusPatchMarksPod`) |
| PatchBuilder.StatusPatchTargetsStatusKey | webhook/pods.go:45-61 | with nil annotations, the operation adds the one-entry map {status key: "mutated"} at /metadata/annotations; with annotations present, the path is one segment below /metadata/annotations that unescapes to the status key; the op is "add" exactly when the status is empty, else " replace" |
| PatchBuilder.StatusPatchMarksPod | webhook/pods.go:45-61 | on an unmarked pod the first operation sets the status to "mutated", keeps every other annotation, and then no mutation is required; on a marked pod it is rejected |
| PatchBuilder.BarePodPatch | webhook/pods.go:41-106 | a pod with one container and no mounts or volumes gets three operations, each adding a whole template |
| PatchBuilder.AppendPodPatch | webhook/pods.go:41-106 | a pod with one container with mounts and existing volumes gets seventeen operations, all appends after the first |
| Adapter.ErrorResponse | webhook/pods.go:189 | assumed behaviour of `toV1AdmissionResponse`, which is defined outside the modelled files: not allowed, the error text as the status message, no patch and no patch type |
| Adapter.ApplyPodPatch | webhook/pods.go:173-207 | nil exactly for a resource other than v1 pods; a decode error is refused with its message; otherwise refused with the patch error exactly when the predicate holds and patching fails; a patch and the JSON Patch type are set exactly when the predicate holds and the pod is allowed |
| Adapter.ShouldPatchPod | webhook/pods.go:162-169 | the predicate holds for every pod, whatever the policy says |
| Adapter.MutatePods | webhook/pods.go:157-171 | for a decoded pod: allowed with the encoded LXCFS patch when encoding succeeds, refused with the encoder's message when it fails |
| Adapter.MarkedPodPatchedAgain | webhook/pods.go:157-171 | a pod already marked as mutated needs no mutation by the policy, yet is allowed with the full patch, whose first op is " replace" |
| Adapter.SystemPodStillPatched | webhook/pods.go:157-171 | a pod in kube-system needs no mutation by the policy, yet is allowed with a patch |

## Left out

- JSON encoding of the patch list (`json.Marshal`, webhook/pods.go:108-113) is a library call. It is the `marshal` parameter and may fail with a message. `Config.JsonMembers` models only which members the encoding of one operation has.
- Decoding the pod with the universal deserializer (webhook/pods.go:184-190) is a library call. It is the `decode` parameter.
- `toV1AdmissionResponse` is defined outside the modelled files. `ErrorResponse` assumes it returns Allowed unset, Result.Message set to the error text, and no patch. The decode-failure clause of `ApplyPodPatch` rests on that assumption.
- Logging (glog/klog) has no effect on results and is omitted. `ShouldPatchPod` evaluates the policy only for its log line.
- The TLS configuration (`Config`, `configTLS`) and main.go are certificate loading and command-line wiring. They are not part of this model.
- The unused `podsInitContainerPatch` and `podsSidecarPatch` constants are never referenced, so they are not modelled.
- GoStrings.ToLower: lower-cases ASCII letters only, because `strings.ToLower` applies full Unicode case mapping, which is not modelled.
- The admission review envelope (UID, kind, the rest of the request) is not read by the handler beyond the resource and the raw object, so only those two fields are modelled.
- A review whose Request is nil makes `applyPodPatch` panic when it reads `ar.Request.Resource` (webhook/pods.go:179). `AdmissionRequest` is always present, so the model does not capture that panic.
- The API server that applies the patch is outside the program. `PatchBuilder.ApplyToAnnotations` models only the RFC 6902 add and replace rules (sections 4.1 and 4.3) that apply to the status operation.
