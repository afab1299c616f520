/**
 * The patch builder (`podLxcfsPatch`): the ordered list of RFC 6902
 * operations that marks the pod as mutated, adds the LXCFS mounts to every
 * container and the LXCFS host-path volumes to the pod. `LxcfsPatches` is
 * the list as a function of the pod; the method `PodLxcfsPatch` builds it
 * step by step, as the source does, and hands it to the JSON encoder.
 */
module PatchBuilder {
  import opened Wrappers
  import opened GoStrings
  import opened KubeTypes
  import opened Config
  import opened JsonPointer
  import opened Policy

  const AnnotationsPath: string := "/metadata/annotations"
  const VolumesPath: string := "/spec/volumes"

  /** `fmt.Sprintf("/spec/containers/%d/volumeMounts", i)` */
  function VolumeMountsPath(i: nat): (path: string)
    // the path runs from the containers array to the mounts of one container
    ensures |path| > |ContainersPrefix| + |MountsSuffix|
    ensures path[..|ContainersPrefix|] == ContainersPrefix
    ensures path[|path| - |MountsSuffix|..] == MountsSuffix
  {
    ContainersPrefix + Itoa(i) + MountsSuffix
  }

  /** The container index can be read back from its path. */
  lemma VolumeMountsPathIndex(i: nat)
    ensures var path := VolumeMountsPath(i);
      var digits := path[|ContainersPrefix|..|path| - |MountsSuffix|];
      (forall k :: 0 <= k < |digits| ==> IsDigit(digits[k])) && Atoi(digits) == i
  {
    var path := VolumeMountsPath(i);
    assert path[|ContainersPrefix|..|path| - |MountsSuffix|] == Itoa(i);
    AtoiItoa(i);
  }

  const ContainersPrefix: string := "/spec/containers/"
  const MountsSuffix: string := "/volumeMounts"

  /** The RFC 6902 path that appends to the end of the array at `path`: one
      more reference token, "-", which section 4 of RFC 6901 reserves for
      the position after the last element. */
  function AppendPath(path: string): (appendPath: string)
    ensures |appendPath| == |path| + 2
    ensures appendPath[..|path|] == path
    ensures appendPath[|path|] == '/' && appendPath[|path| + 1] == '-'
  {
    path + "/-"
  }

  /** The first operation: mark the pod with the status annotation. */
  function StatusPatch(annotations: Option<map<string, string>>): (p: PatchOperation)
    // " replace" exactly when the status annotation is already set, else "add"
    ensures p.op == " replace" <==> Lookup(annotations, AnnotationStatusKey) != ""
    ensures p.op == "add" || p.op == " replace"
    // the whole map when there is none, a single text value otherwise
    ensures annotations.None? <==> p.value == AnnotationMap(map[AnnotationStatusKey := "mutated"])
    ensures annotations.Some? <==> p.value == Text("mutated")
  {
    if annotations.None? then
      PatchOperation("add", AnnotationsPath, AnnotationMap(map[AnnotationStatusKey := "mutated"]))
    else
      PatchOperation(
        if Lookup(annotations, AnnotationStatusKey) != "" then " replace" else "add",
        AnnotationsPath + "/" + EscapeJsonPointerValue(AnnotationStatusKey),
        Text("mutated"))
  }

  /** One append operation per mount, in order. */
  function AppendMountOps(path: string, mounts: seq<VolumeMount>): (ops: seq<PatchOperation>)
  {
    seq(|mounts|, k requires 0 <= k < |mounts| => PatchOperation("add", path, MountEntry(mounts[k])))
  }

  /** One append operation per volume, in order. */
  function AppendVolumeOps(path: string, volumes: seq<Volume>): (ops: seq<PatchOperation>)
  {
    seq(|volumes|, k requires 0 <= k < |volumes| => PatchOperation("add", path, VolumeEntry(volumes[k])))
  }

  /** The operations for the container at index `i`. */
  function MountOps(i: nat, c: Container): (ops: seq<PatchOperation>)
    ensures |ops| == OpsPerContainer(c)
    ensures forall k :: 0 <= k < |ops| ==> ops[k].op == "add" && !ops[k].value.NoValue?
  {
    if c.volumeMounts.None? then [PatchOperation("add", VolumeMountsPath(i), MountList(VolumeMountsTemplate))]
    else AppendMountOps(AppendPath(VolumeMountsPath(i)), VolumeMountsTemplate)
  }

  function OpsPerContainer(c: Container): nat
  {
    if c.volumeMounts.None? then 1 else 8
  }

  /** Σ over containers `0 .. n-1` of 1 (no mounts) or 8 (some mounts). */
  function MountOpCount(cs: seq<Container>, n: nat): nat
    requires n <= |cs|
  {
    if n == 0 then 0 else MountOpCount(cs, n - 1) + OpsPerContainer(cs[n - 1])
  }

  /** The operations for containers `0 .. n-1`, container 0 first. */
  function ContainerOps(cs: seq<Container>, n: nat): (ops: seq<PatchOperation>)
    requires n <= |cs|
    ensures |ops| == MountOpCount(cs, n)
    ensures forall k :: 0 <= k < |ops| ==> ops[k].op == "add" && !ops[k].value.NoValue?
  {
    if n == 0 then [] else ContainerOps(cs, n - 1) + MountOps(n - 1, cs[n - 1])
  }

  /** The pod-level volume operations. */
  function VolumeOps(volumes: Option<seq<Volume>>): (ops: seq<PatchOperation>)
    ensures |ops| == VolumeOpCount(volumes)
    ensures forall k :: 0 <= k < |ops| ==> ops[k].op == "add" && !ops[k].value.NoValue?
  {
    if volumes.None? then [PatchOperation("add", VolumesPath, VolumeList(VolumesTemplate))]
    else AppendVolumeOps(AppendPath(VolumesPath), VolumesTemplate)
  }

  function VolumeOpCount(volumes: Option<seq<Volume>>): nat
  {
    if volumes.None? then 1 else 8
  }

  /** The patch list `podLxcfsPatch` builds before encoding it. */
  function LxcfsPatches(pod: Pod): (patches: seq<PatchOperation>)
    ensures |patches| == 1 + MountOpCount(pod.containers, |pod.containers|) + VolumeOpCount(pod.volumes)
    ensures forall k :: 1 <= k < |patches| ==> patches[k].op == "add"
    ensures forall k :: 0 <= k < |patches| ==> |JsonMembers(patches[k])| == 3
  {
    [StatusPatch(pod.meta.annotations)] + ContainerOps(pod.containers, |pod.containers|) + VolumeOps(pod.volumes)
  }

  /** The inner loop over the mount template: append one operation per entry. */
  method AppendMounts(patches: seq<PatchOperation>, path: string, mounts: seq<VolumeMount>)
    returns (result: seq<PatchOperation>)
    ensures result == patches + AppendMountOps(path, mounts)
  {
    result := patches;
    for j := 0 to |mounts|
      invariant result == patches + AppendMountOps(path, mounts[..j])
    {
      var op := PatchOperation("add", path, MountEntry(mounts[j]));
      result := result + [op];
      assert AppendMountOps(path, mounts[..j + 1]) == AppendMountOps(path, mounts[..j]) + [op];
    }
    assert mounts[..|mounts|] == mounts;
  }

  /** One iteration of the loop over the containers: the whole template at
      the container's mounts when it has none, else one append per entry. */
  method AppendContainerMounts(patches: seq<PatchOperation>, i: nat, c: Container)
    returns (result: seq<PatchOperation>)
    ensures result == patches + MountOps(i, c)
  {
    if c.volumeMounts.None? {
      var path := VolumeMountsPath(i);
      var op := PatchOperation("add", path, MountList(VolumeMountsTemplate));
      result := patches + [op];
    } else {
      var path := AppendPath(VolumeMountsPath(i));
      result := AppendMounts(patches, path, VolumeMountsTemplate);
    }
  }

  /** The loop over the volume template: append one operation per entry. */
  method AppendVolumes(patches: seq<PatchOperation>, path: string, volumes: seq<Volume>)
    returns (result: seq<PatchOperation>)
    ensures result == patches + AppendVolumeOps(path, volumes)
  {
    result := patches;
    for j := 0 to |volumes|
      invariant result == patches + AppendVolumeOps(path, volumes[..j])
    {
      var op := PatchOperation("add", path, VolumeEntry(volumes[j]));
      result := result + [op];
      assert AppendVolumeOps(path, volumes[..j + 1]) == AppendVolumeOps(path, volumes[..j]) + [op];
    }
    assert volumes[..|volumes|] == volumes;
  }

  /** The status operation, as the source assembles it field by field. */
  method StatusOperation(annotations: Option<map<string, string>>) returns (op: PatchOperation)
    ensures op == StatusPatch(annotations)
  {
    op := PatchOperation("", AnnotationsPath, AnnotationMap(map[AnnotationStatusKey := "mutated"]));
    if annotations.None? {
      op := op.(op := "add");
    } else {
      op := op.(op := "add");
      if Lookup(annotations, AnnotationStatusKey) != "" {
        op := op.(op := " replace");
      }
      op := op.(path := AnnotationsPath + "/" + EscapeJsonPointerValue(AnnotationStatusKey));
      op := op.(value := Text("mutated"));
    }
  }

  /** `podLxcfsPatch`: build the list step by step, then encode it with
      `marshal` (`json.Marshal`, whose failure is returned as the error). */
  method PodLxcfsPatch(pod: Pod, marshal: seq<PatchOperation> -> Result<seq<uint8>, string>)
    returns (result: Result<seq<uint8>, string>)
    ensures result == marshal(LxcfsPatches(pod))
  {
    var patches: seq<PatchOperation> := [];
    var op := StatusOperation(pod.meta.annotations);
    patches := patches + [op];

    var containers := pod.containers;
    for i := 0 to |containers|
      invariant patches == [StatusPatch(pod.meta.annotations)] + ContainerOps(containers, i)
    {
      patches := AppendContainerMounts(patches, i, containers[i]);
    }

    if pod.volumes.None? {
      op := PatchOperation("add", VolumesPath, VolumeList(VolumesTemplate));
      patches := patches + [op];
    } else {
      patches := AppendVolumes(patches, AppendPath(VolumesPath), VolumesTemplate);
    }
    result := marshal(patches);
  }

  // ---- Where each operation lands in the list ----

  /** The operations for the first `m` containers are a prefix of those for
      the first `n`; in particular containers are processed in index order. */
  lemma {:induction false} ContainerOpsPrefix(cs: seq<Container>, m: nat, n: nat)
    requires m <= n <= |cs|
    ensures MountOpCount(cs, m) <= MountOpCount(cs, n)
    ensures ContainerOps(cs, m) == ContainerOps(cs, n)[..MountOpCount(cs, m)]
    decreases n - m
  {
    if m < n {
      ContainerOpsPrefix(cs, m, n - 1);
      var before, block := ContainerOps(cs, n - 1), MountOps(n - 1, cs[n - 1]);
      assert ContainerOps(cs, n) == before + block;
      PrefixOfConcat(before, block, MountOpCount(cs, m));
    }
  }

  lemma PrefixOfConcat<T>(a: seq<T>, b: seq<T>, k: nat)
    requires k <= |a|
    ensures (a + b)[..k] == a[..k]
  {
  }

  /** Container `i`'s operations sit, as one block, right after those of
      containers `0 .. i-1`, and every later container's block comes after it. */
  lemma ContainerBlock(cs: seq<Container>, i: nat)
    requires i < |cs|
    ensures MountOpCount(cs, i + 1) == MountOpCount(cs, i) + OpsPerContainer(cs[i]) <= MountOpCount(cs, |cs|)
    ensures ContainerOps(cs, |cs|)[MountOpCount(cs, i)..MountOpCount(cs, i + 1)] == MountOps(i, cs[i])
  {
    ContainerOpsPrefix(cs, i + 1, |cs|);
    var all := ContainerOps(cs, |cs|);
    var upTo := ContainerOps(cs, i + 1);
    assert upTo == ContainerOps(cs, i) + MountOps(i, cs[i]);
    assert all[MountOpCount(cs, i)..MountOpCount(cs, i + 1)] == upTo[MountOpCount(cs, i)..];
  }

  /** A container without mounts gets the whole template in one operation;
      a container with mounts gets eight appends in template order. */
  lemma MountOpsShape(i: nat, c: Container)
    ensures c.volumeMounts.None? ==>
      MountOps(i, c) == [PatchOperation("add", VolumeMountsPath(i), MountList(VolumeMountsTemplate))]
    ensures c.volumeMounts.Some? ==>
      |MountOps(i, c)| == 8 &&
      forall k :: 0 <= k < 8 ==>
        MountOps(i, c)[k] == PatchOperation("add", VolumeMountsPath(i) + "/-", MountEntry(VolumeMountsTemplate[k]))
  {
  }

  /** The same for the pod's volumes. */
  lemma VolumeOpsShape(volumes: Option<seq<Volume>>)
    ensures volumes.None? ==> VolumeOps(volumes) == [PatchOperation("add", "/spec/volumes", VolumeList(VolumesTemplate))]
    ensures volumes.Some? ==>
      |VolumeOps(volumes)| == 8 &&
      forall k :: 0 <= k < 8 ==>
        VolumeOps(volumes)[k] == PatchOperation("add", "/spec/volumes/-", VolumeEntry(VolumesTemplate[k]))
  {
  }

  /** Distinct containers are addressed by distinct paths, and a whole-array
      path is never an append path. */
  lemma VolumeMountsPathsDistinct(i: nat, j: nat)
    ensures VolumeMountsPath(i) == VolumeMountsPath(j) ==> i == j
    ensures AppendPath(VolumeMountsPath(i)) == AppendPath(VolumeMountsPath(j)) ==> i == j
    ensures VolumeMountsPath(i) != AppendPath(VolumeMountsPath(j))
  {
    VolumeMountsPathIndex(i);
    VolumeMountsPathIndex(j);
    var pi, pj := VolumeMountsPath(i), VolumeMountsPath(j);
    var ai, aj := AppendPath(pi), AppendPath(pj);
    assert ai[..|pi|] == pi;
    assert aj[..|pj|] == pj;
    assert pi[|pi| - 1] == 's';
    assert aj[|aj| - 1] == '-';
  }

  /** The list is the status operation, then all container operations, then
      all volume operations. */
  lemma PatchLayout(pod: Pod)
    ensures var patches := LxcfsPatches(pod);
      var n := 1 + MountOpCount(pod.containers, |pod.containers|);
      && patches[0] == StatusPatch(pod.meta.annotations)
      && patches[1..n] == ContainerOps(pod.containers, |pod.containers|)
      && patches[n..] == VolumeOps(pod.volumes)
  {
  }

  // ---- The status operation and what it does to the annotations ----

  /** How the server applying the patch treats an operation on the pod's
      annotations, following sections 4.1 (add) and 4.3 (replace) of
      RFC 6902: the new annotations, or `None` when it rejects the operation. */
  function ApplyToAnnotations(annotations: Option<map<string, string>>, p: PatchOperation): (applied: Option<map<string, string>>)
    // an op other than "add" or "replace" is rejected
    ensures p.op != "add" && p.op != "replace" ==> applied.None?
    // setting a single annotation keeps every other one
    ensures applied.Some? && !p.value.AnnotationMap? ==>
      annotations.Some? && forall k :: k in annotations.value ==> k in applied.value
  {
    var prefix := AnnotationsPath + "/";
    if p.op == "add" && p.path == AnnotationsPath && p.value.AnnotationMap? then
      Some(p.value.entries)
    else if (p.op == "add" || p.op == "replace") && annotations.Some? && p.value.Text?
            && |prefix| <= |p.path| && p.path[..|prefix|] == prefix && '/' !in p.path[|prefix|..] then
      var key := UnescapeJsonPointerValue(p.path[|prefix|..]);
      if p.op == "replace" && key !in annotations.value then None
      else Some(annotations.value[key := p.value.text])
    else
      None
  }

  /** The status operation addresses exactly the status annotation: its path
      is one segment below the annotations, and that segment unescapes to the
      status key. Its op is "add" unless the status is already set. */
  lemma StatusPatchTargetsStatusKey(annotations: Option<map<string, string>>)
    ensures annotations.None? ==>
      StatusPatch(annotations) == PatchOperation("add", AnnotationsPath, AnnotationMap(map[AnnotationStatusKey := "mutated"]))
    ensures var p := StatusPatch(annotations);
      var prefix := AnnotationsPath + "/";
      annotations.Some? ==>
        && |prefix| < |p.path| && p.path[..|prefix|] == prefix
        && '/' !in p.path[|prefix|..]
        && UnescapeJsonPointerValue(p.path[|prefix|..]) == AnnotationStatusKey
        && p.value == Text("mutated")
        && (p.op == "add" <==> Lookup(annotations, AnnotationStatusKey) == "")
        && (p.op != "add" ==> p.op == " replace")
  {
    var prefix := AnnotationsPath + "/";
    var seg := EscapeJsonPointerValue(AnnotationStatusKey);
    EscapeHasNoSlash(AnnotationStatusKey);
    UnescapeEscape(AnnotationStatusKey);
    var path := prefix + seg;
    assert path[..|prefix|] == prefix && path[|prefix|..] == seg;
    assert AnnotationsPath + "/" + seg == path;
    assert |seg| > 0 by {
      assert AnnotationStatusKey == [AnnotationStatusKey[0]] + AnnotationStatusKey[1..];
      EscapeCons(AnnotationStatusKey[0], AnnotationStatusKey[1..]);
    }
  }

  /** Applied to a pod whose status is unset, the first operation sets the
      status annotation to "mutated", keeps every other annotation, and from
      then on the policy no longer asks for the pod to be mutated. When the
      status is already set, the op is the literal " replace", which is not
      an RFC 6902 operation, so the operation is rejected. */
  lemma StatusPatchMarksPod(ignoredList: seq<string>, meta: ObjectMeta)
    ensures var applied := ApplyToAnnotations(meta.annotations, StatusPatch(meta.annotations));
      Lookup(meta.annotations, AnnotationStatusKey) == "" ==>
        && applied.Some?
        && AnnotationStatusKey in applied.value && applied.value[AnnotationStatusKey] == "mutated"
        && (meta.annotations.Some? ==>
              forall k :: k in meta.annotations.value && k != AnnotationStatusKey ==>
                k in applied.value && applied.value[k] == meta.annotations.value[k])
        && !MutationRequired(ignoredList, meta.(annotations := applied))
    ensures Lookup(meta.annotations, AnnotationStatusKey) != "" ==>
      ApplyToAnnotations(meta.annotations, StatusPatch(meta.annotations)).None?
  {
    var p := StatusPatch(meta.annotations);
    var applied := ApplyToAnnotations(meta.annotations, p);
    if Lookup(meta.annotations, AnnotationStatusKey) == "" {
      if meta.annotations.Some? {
        StatusPatchTargetsStatusKey(meta.annotations);
      }
      assert applied.Some?;
      assert Lookup(applied, AnnotationStatusKey) == "mutated";
      assert MarkedMutated("mutated");
    } else {
      assert p.op == " replace";
    }
  }

  // ---- The two example pods ----

  /** One container, no mounts, no volumes: three operations, each template
      added whole. */
  lemma BarePodPatch(meta: ObjectMeta, c: Container)
    requires c.volumeMounts.None?
    ensures var patches := LxcfsPatches(Pod(meta, [c], None));
      && |patches| == 3
      && patches[1] == PatchOperation("add", "/spec/containers/0/volumeMounts", MountList(VolumeMountsTemplate))
      && patches[2] == PatchOperation("add", "/spec/volumes", VolumeList(VolumesTemplate))
  {
    assert Itoa(0) == "0";
    assert VolumeMountsPath(0) == "/spec/containers/0/volumeMounts";
  }

  /** One container with one mount, one existing volume: seventeen
      operations, all but the first appending to an array. */
  lemma AppendPodPatch(meta: ObjectMeta, c: Container, m: VolumeMount, v: Volume)
    requires c.volumeMounts == Some([m])
    ensures var patches := LxcfsPatches(Pod(meta, [c], Some([v])));
      && |patches| == 17
      && forall k :: 1 <= k < 17 ==>
           patches[k].op == "add" && |patches[k].path| >= 2 && patches[k].path[|patches[k].path| - 2..] == "/-"
  {
    var cs := [c];
    var patches := LxcfsPatches(Pod(meta, cs, Some([v])));
    PatchLayout(Pod(meta, cs, Some([v])));
    MountOpsShape(0, c);
    VolumeOpsShape(Some([v]));
    forall k | 1 <= k < 17
      ensures |patches[k].path| >= 2 && patches[k].path[|patches[k].path| - 2..] == "/-"
    {
      if k < 9 {
        assert patches[k] == MountOps(0, c)[k - 1];
      } else {
        assert patches[k] == VolumeOps(Some([v]))[k - 9];
      }
    }
  }
}
