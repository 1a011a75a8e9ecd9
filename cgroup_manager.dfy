/**
 * Systemd cgroup names: a systemd slice name such as
 * `kubepods-burstable-pod1234_abcd.slice` stands for the component list
 * `kubepods`, `burstable`, `pod1234-abcd`, where `-` separates components
 * and `_` escapes a `-` inside one.
 */
module CgroupManager {
  import opened Strs

  const SystemdSuffix: string := ".slice"
  const Cgroup2MaxSwapFilename: string := "memory.swap.max"
  const PodCgroupNamePrefix: string := "pod"

  /** `unescapeSystemdCgroupName`: every `_` becomes `-`, every other character stays. */
  function UnescapeSystemdCgroupName(part: string): (r: string)
    ensures |r| == |part| && '_' !in r
    ensures forall i | 0 <= i < |part| && part[i] != '_' :: r[i] == part[i]
    ensures forall i | 0 <= i < |part| && part[i] == '_' :: r[i] == '-'
  {
    ReplaceCharRemoves(part, '_', '-');
    ReplaceChar(part, '_', '-')
  }

  /** Escaping a component (`-` to `_`) and unescaping it gives it back when it holds no `_`. */
  lemma UnescapeUndoesEscape(part: string)
    requires '_' !in part
    ensures UnescapeSystemdCgroupName(ReplaceChar(part, '-', '_')) == part
  {
  }

  /** The base of the path without its `.slice` suffix. */
  function DriverName(name: string): string {
    TrimSuffix(Base(name), SystemdSuffix)
  }

  /** The components `ParseSystemdToCgroupName` returns. */
  function CgroupNameOf(name: string): (r: seq<string>)
    ensures |r| == |Split(DriverName(name), "-")|
  {
    var parts := Split(DriverName(name), "-");
    seq(|parts|, i requires 0 <= i < |parts| => UnescapeSystemdCgroupName(parts[i]))
  }

  /** The last component of a parsed name is the last part of the driver name, unescaped. */
  lemma CgroupNameLast(name: string)
    ensures var parts := Split(DriverName(name), "-");
      Last(CgroupNameOf(name)) == UnescapeSystemdCgroupName(Last(parts))
  {
    var parts := Split(DriverName(name), "-");
    var r := CgroupNameOf(name);
    assert r == seq(|parts|, i requires 0 <= i < |parts| => UnescapeSystemdCgroupName(parts[i]));
    assert r[|parts| - 1] == UnescapeSystemdCgroupName(parts[|parts| - 1]);
  }

  /** `ParseSystemdToCgroupName`: the loop that unescapes the `-`-separated parts of the driver name. */
  method ParseSystemdToCgroupName(name: string) returns (result: seq<string>)
    ensures result == CgroupNameOf(name)
  {
    var driverName := Base(name);
    driverName := TrimSuffix(driverName, SystemdSuffix);
    var parts := Split(driverName, "-");
    result := [];
    var i := 0;
    while i < |parts|
      invariant 0 <= i <= |parts|
      invariant |result| == i
      invariant forall k :: 0 <= k < i ==> result[k] == UnescapeSystemdCgroupName(parts[k])
    {
      result := result + [UnescapeSystemdCgroupName(parts[i])];
      i := i + 1;
    }
  }

  /**
   * A parsed name is never empty, has one component more than the driver
   * name has `-` characters, and no component holds `_`.
   */
  lemma CgroupNameShape(name: string)
    ensures |CgroupNameOf(name)| == multiset(DriverName(name))['-'] + 1
    ensures forall k :: 0 <= k < |CgroupNameOf(name)| ==> '_' !in CgroupNameOf(name)[k]
  {
    SplitCharCount(DriverName(name), '-');
    assert "-" == ['-'];
  }

  /** `GetPodCgroupNameSuffix`: the last component of a pod's cgroup name, `pod` followed by the UID. */
  function GetPodCgroupNameSuffix(podUID: string): (r: string)
    ensures StartsWith(r, PodCgroupNamePrefix) && r[|PodCgroupNamePrefix|..] == podUID
  {
    PodCgroupNamePrefix + podUID
  }

  /** `IsSystemdStyleName`: the name ends with `.slice`. */
  predicate IsSystemdStyleName(name: string) {
    EndsWith(name, SystemdSuffix)
  }

  /** A name is systemd-style exactly when trimming `.slice` and putting it back gives the name. */
  lemma SystemdStyleNameRoundTrip(name: string)
    ensures IsSystemdStyleName(name) <==> TrimSuffix(name, SystemdSuffix) + SystemdSuffix == name
  {
    if !IsSystemdStyleName(name) {
      assert |TrimSuffix(name, SystemdSuffix) + SystemdSuffix| == |name| + 6;
    }
  }
}
