/**
 * Where a pod's cgroup lives under cgroup v2 with the systemd driver: the
 * pod's slice name from its UID, the QoS slice it sits in, the absolute
 * path of the pod slice, and the scope of each of its running containers.
 * The joins of path components are plain `/`-concatenations; they agree
 * with Go's `path.Join` and `path.Clean` for components without `/`.
 */
module CgroupTranslate {
  import opened Wrappers
  import opened Strs
  import opened Kube
  import opened CgroupManager

  const OpenshiftKubeletCgroupName: string := "/kubepods.slice"

  /** The UID escaped for systemd: every `-` becomes `_`. */
  function EscapedUid(uid: string): (r: string)
    ensures |r| == |uid| && '-' !in r
  {
    ReplaceCharRemoves(uid, '-', '_');
    ReplaceChar(uid, '-', '_')
  }

  /** `PodToCgroupSlice`: `pod<escaped UID>.slice`, and an error for a pod without a UID. */
  function PodToCgroupSlice(pod: Pod): (r: Result<string, string>)
    ensures r.Err? <==> pod.uid == ""
    ensures r.Err? ==> r.error == "Pod UID is empty"
    ensures r.Ok? ==> IsSystemdStyleName(r.value) && StartsWith(r.value, PodCgroupNamePrefix)
    ensures r.Ok? ==> TrimSuffix(r.value, SystemdSuffix) == PodCgroupNamePrefix + EscapedUid(pod.uid)
  {
    if |pod.uid| == 0 || pod.uid == "" then Err("Pod UID is empty")
    else
      var s := "pod" + EscapedUid(pod.uid) + ".slice";
      assert EndsWith(s, SystemdSuffix) && StartsWith(s, PodCgroupNamePrefix);
      assert s[..|s| - |SystemdSuffix|] == PodCgroupNamePrefix + EscapedUid(pod.uid);
      Ok(s)
  }

  /** `PodQosClassToCgroupPath`: the QoS slice prefix, empty for Guaranteed pods; an unknown class is an error. */
  function PodQosClassToCgroupPath(pod: Pod): (r: Result<string, string>)
    ensures r.Err? <==> pod.statusQOSClass.UnknownQOS?
    ensures r.Err? ==> r.error == "cound not determine pod QOS"
    ensures r.Ok? ==> '/' !in r.value && (r.value == "" <==> pod.statusQOSClass == Guaranteed)
  {
    match pod.statusQOSClass
    case Guaranteed => Ok("")
    case Burstable => Ok("kubepods-burstable")
    case BestEffort => Ok("kubepods-besteffort")
    case UnknownQOS(_) => Err("cound not determine pod QOS")
  }

  /**
   * `PodAbsCgroupPath`: `/kubepods.slice/<qos>.slice/<qos>-<pod slice>`. A
   * QoS error is reported before a missing UID.
   */
  function PodAbsCgroupPath(pod: Pod): (r: Result<string, string>)
    ensures PodQosClassToCgroupPath(pod).Err? ==> r == Err(PodQosClassToCgroupPath(pod).error)
    ensures PodQosClassToCgroupPath(pod).Ok? && PodToCgroupSlice(pod).Err? ==> r == Err(PodToCgroupSlice(pod).error)
    ensures r.Ok? <==> PodQosClassToCgroupPath(pod).Ok? && PodToCgroupSlice(pod).Ok?
    ensures r.Ok? ==> StartsWith(r.value, OpenshiftKubeletCgroupName + "/") && IsSystemdStyleName(r.value)
  {
    var podQos := PodQosClassToCgroupPath(pod);
    if podQos.Err? then Err(podQos.error)
    else
      var podCgroup := PodToCgroupSlice(pod);
      if podCgroup.Err? then Err(podCgroup.error)
      else
        var p := OpenshiftKubeletCgroupName + "/" + podQos.value + ".slice" + "/" + podQos.value + "-" + podCgroup.value;
        assert p[..|OpenshiftKubeletCgroupName + "/"|] == OpenshiftKubeletCgroupName + "/";
        assert p[|p| - |SystemdSuffix|..] == podCgroup.value[|podCgroup.value| - |SystemdSuffix|..];
        Ok(p)
  }

  /** The path of a Burstable pod with UID `uid`. */
  lemma BurstablePodPath(pod: Pod)
    requires pod.statusQOSClass == Burstable && pod.uid != ""
    ensures PodAbsCgroupPath(pod) ==
      Ok("/kubepods.slice/kubepods-burstable.slice/kubepods-burstable-" + ("pod" + EscapedUid(pod.uid) + ".slice"))
  {
    BurstableDir();
    BurstableSlicePrefix();
    var slice := PodToCgroupSlice(pod).value;
    assert slice == "pod" + EscapedUid(pod.uid) + ".slice";
    assert PodAbsCgroupPath(pod).value ==
      (OpenshiftKubeletCgroupName + "/" + "kubepods-burstable" + ".slice" + "/" + "kubepods-burstable" + "-") + slice;
  }

  /** The Burstable QoS directory spelled out. */
  lemma BurstableDir()
    ensures OpenshiftKubeletCgroupName + "/" + "kubepods-burstable" + ".slice" + "/" ==
      "/kubepods.slice/kubepods-burstable.slice/"
  {
    assert OpenshiftKubeletCgroupName + "/" == "/kubepods.slice/";
    assert "/kubepods.slice/" + "kubepods-burstable" == "/kubepods.slice/kubepods-burstable";
    assert "/kubepods.slice/kubepods-burstable" + ".slice" == "/kubepods.slice/kubepods-burstable.slice";
  }

  /** The Burstable pod slice's prefix spelled out. */
  lemma BurstableSlicePrefix()
    ensures "/kubepods.slice/kubepods-burstable.slice/" + "kubepods-burstable" + "-" ==
      "/kubepods.slice/kubepods-burstable.slice/kubepods-burstable-"
  {
    assert "/kubepods.slice/kubepods-burstable.slice/" + "kubepods-burstable" ==
      "/kubepods.slice/kubepods-burstable.slice/kubepods-burstable";
  }

  /**
   * With the empty QoS prefix, a Guaranteed pod's path has a `.slice`
   * directory and a slice name that starts with `-`.
   */
  lemma GuaranteedPodPath(pod: Pod)
    requires pod.statusQOSClass == Guaranteed && pod.uid != ""
    ensures PodAbsCgroupPath(pod) == Ok("/kubepods.slice/.slice/-" + ("pod" + EscapedUid(pod.uid) + ".slice"))
  {
    assert OpenshiftKubeletCgroupName + "/" == "/kubepods.slice/";
    assert "/kubepods.slice/" + "" + ".slice" == "/kubepods.slice/.slice";
    assert "/kubepods.slice/.slice" + "/" + "" + "-" == "/kubepods.slice/.slice/-";
    var slice := PodToCgroupSlice(pod).value;
    assert PodAbsCgroupPath(pod).value == (OpenshiftKubeletCgroupName + "/" + "" + ".slice" + "/" + "" + "-") + slice;
  }

  /** The driver name of a pod slice path `<a>/<q>-<v>.slice`. */
  lemma PodSliceDriverName(a: string, q: string, v: string)
    requires '/' !in q && '/' !in v
    ensures DriverName(a + "/" + (q + "-" + v + ".slice")) == q + "-" + v
  {
    var b := q + "-" + v + ".slice";
    BaseOf(a, b);
    assert b[..|b| - |SystemdSuffix|] == q + "-" + v;
  }

  /** The last `-`-separated part of `<q>-<v>` is `v` when `v` holds no `-`. */
  lemma LastDashPart(q: string, v: string)
    requires '-' !in v
    ensures Last(Split(q + "-" + v, "-")) == v
  {
    assert q + "-" + v == q + ['-'] + v;
    SplitCharLast(q, '-', v);
  }

  /** Unescaping `pod<escaped UID>` gives `pod<UID>` back. */
  lemma UnescapePodComponent(uid: string)
    requires '_' !in uid
    ensures UnescapeSystemdCgroupName("pod" + EscapedUid(uid)) == "pod" + uid
  {
    ReplaceCharAppend("pod", EscapedUid(uid), '_', '-');
    assert ReplaceChar("pod", '_', '-') == "pod";
    UnescapeUndoesEscape(uid);
  }

  /** The last component of a pod slice path `<a>/<q>-<v>.slice` is `v` unescaped. */
  lemma PodSliceLastComponent(a: string, q: string, v: string)
    requires '/' !in q && '/' !in v && '-' !in v
    ensures Last(CgroupNameOf(a + "/" + (q + "-" + v + ".slice"))) == UnescapeSystemdCgroupName(v)
  {
    var name := a + "/" + (q + "-" + v + ".slice");
    CgroupNameLast(name);
    PodSliceDriverName(a, q, v);
    LastDashPart(q, v);
  }

  /** A pod's slice path split at its last `/`. */
  lemma PodAbsCgroupPathParts(pod: Pod)
    requires PodAbsCgroupPath(pod).Ok?
    ensures var q := PodQosClassToCgroupPath(pod).value;
      PodAbsCgroupPath(pod).value ==
        OpenshiftKubeletCgroupName + "/" + q + ".slice" + "/" + (q + "-" + ("pod" + EscapedUid(pod.uid)) + ".slice")
  {
  }

  /**
   * Parsing a pod's slice path back into systemd components ends with
   * `pod<UID>`, the component the pod lookup matches, whenever the UID
   * holds no `_` and no `/`.
   */
  lemma PodCgroupRoundTrip(pod: Pod)
    requires PodAbsCgroupPath(pod).Ok?
    requires '_' !in pod.uid && '/' !in pod.uid
    ensures Last(CgroupNameOf(PodAbsCgroupPath(pod).value)) == GetPodCgroupNameSuffix(pod.uid)
  {
    var q := PodQosClassToCgroupPath(pod).value;
    var u := EscapedUid(pod.uid);
    PodAbsCgroupPathParts(pod);
    assert '/' !in u;
    PodSliceLastComponent(OpenshiftKubeletCgroupName + "/" + q + ".slice", q, "pod" + u);
    UnescapePodComponent(pod.uid);
  }

  /** A status whose container gets a scope path: ready, running, and an ID of the form `<runtime>://<id>`. */
  predicate HasScope(st: ContainerStatus) {
    st.ready && st.state.running && |Split(TrimChar(st.containerID, '"'), "://")| == 2
  }

  /** The scope path of such a container: `<pod path>/crio-<id>.scope`. */
  function ScopePath(podPath: string, st: ContainerStatus): string
    requires HasScope(st)
  {
    podPath + "/crio-" + Split(TrimChar(st.containerID, '"'), "://")[1] + ".scope"
  }

  /** The map the container loop builds: a later status of the same name overwrites an earlier one. */
  function ContainerPaths(podPath: string, statuses: seq<ContainerStatus>): map<string, string> {
    if |statuses| == 0 then map[]
    else
      var m := ContainerPaths(podPath, statuses[..|statuses| - 1]);
      var st := statuses[|statuses| - 1];
      if HasScope(st) then m[st.name := ScopePath(podPath, st)] else m
  }

  /**
   * A container name is in the map exactly when some status of that name
   * has a scope, and every path is a `crio-….scope` directly under the
   * pod's path.
   */
  lemma {:induction false} ContainerPathsProperties(podPath: string, statuses: seq<ContainerStatus>)
    ensures forall name :: name in ContainerPaths(podPath, statuses) <==>
      exists st :: st in statuses && HasScope(st) && st.name == name
    ensures forall name | name in ContainerPaths(podPath, statuses) ::
      StartsWith(ContainerPaths(podPath, statuses)[name], podPath + "/crio-") &&
      EndsWith(ContainerPaths(podPath, statuses)[name], ".scope")
    decreases |statuses|
  {
    if |statuses| > 0 {
      var init := statuses[..|statuses| - 1];
      var st := statuses[|statuses| - 1];
      assert statuses == init + [st];
      ContainerPathsProperties(podPath, init);
      if HasScope(st) {
        var p := ScopePath(podPath, st);
        assert p[..|podPath + "/crio-"|] == podPath + "/crio-";
        assert p[|p| - 6..] == ".scope";
      }
      forall name | exists s :: s in statuses && HasScope(s) && s.name == name
        ensures name in ContainerPaths(podPath, statuses)
      {
        var s :| s in statuses && HasScope(s) && s.name == name;
        if s != st {
          assert s in init;
        }
      }
    }
  }

  /**
   * `PodContainersToCgroupPath`: the scope path of every container with a
   * scope, by name; an error from the pod's path is passed on, and a pod
   * without any such container is an error.
   */
  method PodContainersToCgroupPath(pod: Pod) returns (r: Result<map<string, string>, string>)
    ensures PodAbsCgroupPath(pod).Err? ==> r == Err(PodAbsCgroupPath(pod).error)
    ensures PodAbsCgroupPath(pod).Ok? ==>
      var m := ContainerPaths(PodAbsCgroupPath(pod).value, pod.containerStatuses);
      r == if |m| == 0 then Err("none of the pod containers are in running state") else Ok(m)
  {
    var podPath := PodAbsCgroupPath(pod);
    if podPath.Err? {
      return Err(podPath.error);
    }
    var statuses := pod.containerStatuses;
    var containers: map<string, string> := map[];
    var i := 0;
    while i < |statuses|
      invariant 0 <= i <= |statuses|
      invariant containers == ContainerPaths(podPath.value, statuses[..i])
    {
      var ctr := statuses[i];
      assert statuses[..i + 1][..i] == statuses[..i];
      if ctr.ready && ctr.state.running {
        var key := ctr.name;
        var parts := Split(TrimChar(ctr.containerID, '"'), "://");
        if |parts| == 2 {
          containers := containers[key := podPath.value + "/crio-" + parts[1] + ".scope"];
        }
      }
      i := i + 1;
    }
    assert statuses[..i] == statuses;
    if |containers| == 0 {
      return Err("none of the pod containers are in running state");
    }
    return Ok(containers);
  }
}
