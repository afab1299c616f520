/**
 * The constant configuration of the webhook: the two annotation keys, the
 * namespaces it never mutates, the JSON Patch operation record and the two
 * eight-entry tables of LXCFS mounts and host-path volumes.
 */
module Config {
  import opened KubeTypes

  const AnnotationDomain: string := "lxcfs-admission-webhook.aliyun.com/"

  /** Opt-out annotation read by the policy. */
  const AnnotationMutateKey: string := "lxcfs-admission-webhook.aliyun.com/mutate"

  /** Marker annotation written by the patch and read back by the policy. */
  const AnnotationStatusKey: string := "lxcfs-admission-webhook.aliyun.com/status"

  /** `metav1.NamespaceSystem` and `metav1.NamespacePublic`. */
  const NamespaceSystem: string := "kube-system"
  const NamespacePublic: string := "kube-public"

  const IgnoredNamespaces: seq<string> := [NamespaceSystem, NamespacePublic]

  /** The `interface{}` value of a patch operation: nil, or one of the
      values the patch builder puts there. */
  datatype PatchValue =
    | NoValue
    | AnnotationMap(entries: map<string, string>)
    | Text(text: string)
    | MountList(mounts: seq<VolumeMount>)
    | MountEntry(mount: VolumeMount)
    | VolumeList(volumes: seq<Volume>)
    | VolumeEntry(volume: Volume)

  /** One RFC 6902 operation: `op`, `path` and an optional `value`. */
  datatype PatchOperation = PatchOperation(op: string, path: string, value: PatchValue)

  /** The JSON members written for an operation, in order; `value` carries
      `omitempty`, so a nil value is left out. */
  function JsonMembers(p: PatchOperation): (members: seq<string>)
    ensures |members| == if p.value.NoValue? then 2 else 3
    ensures members[..2] == ["op", "path"]
    ensures "value" in members <==> !p.value.NoValue?
  {
    ["op", "path"] + (if p.value.NoValue? then [] else ["value"])
  }

  const VolumeMountsTemplate: seq<VolumeMount> := [
    VolumeMount("lxcfs-proc-cpuinfo", "/proc/cpuinfo", true),
    VolumeMount("lxcfs-proc-meminfo", "/proc/meminfo", true),
    VolumeMount("lxcfs-proc-diskstats", "/proc/diskstats", true),
    VolumeMount("lxcfs-proc-stat", "/proc/stat", true),
    VolumeMount("lxcfs-proc-swaps", "/proc/swaps", true),
    VolumeMount("lxcfs-proc-uptime", "/proc/uptime", true),
    VolumeMount("lxcfs-proc-loadavg", "/proc/loadavg", true),
    VolumeMount("lxcfs-sys-devices-system-cpu-online", "/sys/devices/system/cpu/online", true)
  ]

  const VolumesTemplate: seq<Volume> := [
    Volume("lxcfs-proc-cpuinfo", HostPath("/var/lib/lxcfs/proc/cpuinfo")),
    Volume("lxcfs-proc-diskstats", HostPath("/var/lib/lxcfs/proc/diskstats")),
    Volume("lxcfs-proc-meminfo", HostPath("/var/lib/lxcfs/proc/meminfo")),
    Volume("lxcfs-proc-stat", HostPath("/var/lib/lxcfs/proc/stat")),
    Volume("lxcfs-proc-swaps", HostPath("/var/lib/lxcfs/proc/swaps")),
    Volume("lxcfs-proc-uptime", HostPath("/var/lib/lxcfs/proc/uptime")),
    Volume("lxcfs-proc-loadavg", HostPath("/var/lib/lxcfs/proc/loadavg")),
    Volume("lxcfs-sys-devices-system-cpu-online", HostPath("/var/lib/lxcfs/sys/devices/system/cpu/online"))
  ]

  /** The host directory under which LXCFS exposes its files. */
  const LxcfsRoot: string := "/var/lib/lxcfs"

  /** Index of the mount entry that has the same name as volume entry `k`:
      the tables agree except that entries 1 and 2 are swapped. */
  function MountIndexOfVolume(k: nat): (j: nat)
    requires k < 8
    ensures j < 8
  {
    if k == 1 then 2 else if k == 2 then 1 else k
  }

  lemma AnnotationKeysShareDomain()
    ensures AnnotationMutateKey != AnnotationStatusKey
    ensures AnnotationMutateKey == AnnotationDomain + "mutate"
    ensures AnnotationStatusKey == AnnotationDomain + "status"
  {
  }

  lemma IgnoredNamespacesAreSystemAndPublic(ns: string)
    ensures |IgnoredNamespaces| == 2
    ensures ns in IgnoredNamespaces <==> ns == "kube-system" || ns == "kube-public"
  {
  }

  lemma VolumeMountsTemplateWellFormed()
    ensures |VolumeMountsTemplate| == 8
    ensures forall k :: 0 <= k < 8 ==> VolumeMountsTemplate[k].readOnly
    ensures forall j, k :: 0 <= j < k < 8 ==> VolumeMountsTemplate[j].name != VolumeMountsTemplate[k].name
  {
  }

  /** Volume entry `k` is the host-path volume behind the mount entry of the same name. */
  lemma VolumesTemplateMatchesMounts()
    ensures |VolumesTemplate| == 8
    ensures forall k :: 0 <= k < 8 ==>
      var m := VolumeMountsTemplate[MountIndexOfVolume(k)];
      VolumesTemplate[k] == Volume(m.name, HostPath(LxcfsRoot + m.mountPath))
  {
    forall k | 0 <= k < 8
      ensures var m := VolumeMountsTemplate[MountIndexOfVolume(k)];
        VolumesTemplate[k] == Volume(m.name, HostPath(LxcfsRoot + m.mountPath))
    {
      VolumeMatchesMountAt(k);
    }
  }

  /** One entry of the pairing. */
  lemma VolumeMatchesMountAt(k: nat)
    requires k < 8
    ensures var m := VolumeMountsTemplate[MountIndexOfVolume(k)];
      VolumesTemplate[k] == Volume(m.name, HostPath(LxcfsRoot + m.mountPath))
  {
    match k
    case 0 => HostPathUnderRoot0();
    case 1 => HostPathUnderRoot1();
    case 2 => HostPathUnderRoot2();
    case 3 => HostPathUnderRoot3();
    case 4 => HostPathUnderRoot4();
    case 5 => HostPathUnderRoot5();
    case 6 => HostPathUnderRoot6();
    case 7 => HostPathUnderRoot7();
  }

  // One lemma per table entry, each about string literals only, keeps every proof small.

  lemma HostPathUnderRoot0()
    ensures LxcfsRoot + "/proc/cpuinfo" == "/var/lib/lxcfs/proc/cpuinfo"
  {
  }

  lemma HostPathUnderRoot1()
    ensures LxcfsRoot + "/proc/diskstats" == "/var/lib/lxcfs/proc/diskstats"
  {
  }

  lemma HostPathUnderRoot2()
    ensures LxcfsRoot + "/proc/meminfo" == "/var/lib/lxcfs/proc/meminfo"
  {
  }

  lemma HostPathUnderRoot3()
    ensures LxcfsRoot + "/proc/stat" == "/var/lib/lxcfs/proc/stat"
  {
  }

  lemma HostPathUnderRoot4()
    ensures LxcfsRoot + "/proc/swaps" == "/var/lib/lxcfs/proc/swaps"
  {
  }

  lemma HostPathUnderRoot5()
    ensures LxcfsRoot + "/proc/uptime" == "/var/lib/lxcfs/proc/uptime"
  {
  }

  lemma HostPathUnderRoot6()
    ensures LxcfsRoot + "/proc/loadavg" == "/var/lib/lxcfs/proc/loadavg"
  {
  }

  lemma HostPathUnderRoot7()
    ensures LxcfsRoot + "/sys/devices/system/cpu/online" == "/var/lib/lxcfs/sys/devices/system/cpu/online"
  {
  }

  /** Both tables name the same eight files, but meminfo and diskstats
      sit in opposite order. */
  lemma TemplatesShareNamesNotOrder()
    ensures (set k | 0 <= k < 8 :: VolumesTemplate[k].name) == (set k | 0 <= k < 8 :: VolumeMountsTemplate[k].name)
    ensures VolumesTemplate[1].name == VolumeMountsTemplate[2].name
    ensures VolumesTemplate[2].name == VolumeMountsTemplate[1].name
    ensures VolumesTemplate[1].name != VolumeMountsTemplate[1].name
    ensures forall k :: 0 <= k < 8 && k != 1 && k != 2 ==> VolumesTemplate[k].name == VolumeMountsTemplate[k].name
  {
    VolumesTemplateMatchesMounts();
    VolumeMountsTemplateWellFormed();
    var volumeNames := set k | 0 <= k < 8 :: VolumesTemplate[k].name;
    var mountNames := set k | 0 <= k < 8 :: VolumeMountsTemplate[k].name;
    forall j | 0 <= j < 8 ensures VolumeMountsTemplate[j].name in volumeNames {
      var k := MountIndexOfVolume(j);
      assert MountIndexOfVolume(k) == j;
      assert VolumesTemplate[k].name == VolumeMountsTemplate[j].name;
    }
    forall k | 0 <= k < 8 ensures VolumesTemplate[k].name in mountNames {
      assert VolumesTemplate[k].name == VolumeMountsTemplate[MountIndexOfVolume(k)].name;
    }
  }
}
