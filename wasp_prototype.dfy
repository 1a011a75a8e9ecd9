/**
 * The Rust prototype of the agent: it finds the cgroup of every process
 * from `/proc/<pid>/cgroup`, keeps those whose cgroup has a
 * `memory.swap.max` interface, splits them into Kubernetes container
 * cgroups and the rest, and writes `0` to the swap limit of each. The
 * file system is the prototype's mock, a map from paths to contents; the
 * lines it prints are recorded.
 */
module WaspPrototype {
  import opened Strs
  import opened Seqs

  const CgroupRoot: string := "/sys/fs/cgroup"
  const SwapMaxFile: string := "memory.swap.max"

  /** `PathBuf::push` on Unix: an absolute path replaces the buffer; otherwise a separator is added unless one ends it. */
  function Push(buf: string, p: string): (r: string)
    ensures EndsWith(r, p)
  {
    if StartsWith(p, "/") then p
    else if |buf| > 0 && buf[|buf| - 1] != '/' then buf + "/" + p
    else buf + p
  }

  /** `cg_full_path`: the cgroup and the key pushed, each without one leading `/`, onto `/sys/fs/cgroup`. */
  function CgFullPath(cg: string, key: string): string {
    Push(Push(CgroupRoot, TrimPrefix(cg, "/")), TrimPrefix(key, "/"))
  }

  /**
   * For a cgroup path that is neither empty nor begins or ends with a
   * separator once its leading `/` is stripped, and a relative key, the
   * full path is the three joined by `/`.
   */
  lemma CgFullPathJoins(cg: string, key: string)
    requires var c := TrimPrefix(cg, "/"); c != "" && c[0] != '/' && c[|c| - 1] != '/'
    requires !StartsWith(TrimPrefix(key, "/"), "/")
    ensures CgFullPath(cg, key) == CgroupRoot + "/" + TrimPrefix(cg, "/") + "/" + TrimPrefix(key, "/")
  {
    var c := TrimPrefix(cg, "/");
    assert !StartsWith(c, "/");
    var b := CgroupRoot + "/" + c;
    assert b[|b| - 1] == c[|c| - 1];
  }

  /**
   * The edges of `PathBuf::push`: the root cgroup gives the key directly
   * under `/sys/fs/cgroup/`, and a cgroup that begins with `//` is taken
   * as an absolute path that replaces `/sys/fs/cgroup`.
   */
  lemma CgFullPathEdges(cg: string, key: string)
    requires !StartsWith(TrimPrefix(key, "/"), "/")
    ensures (cg == "" || cg == "/") ==> CgFullPath(cg, key) == CgroupRoot + "/" + TrimPrefix(key, "/")
    ensures StartsWith(cg, "//") ==> StartsWith(CgFullPath(cg, key), cg[1..])
  {
    if cg == "" || cg == "/" {
      assert TrimPrefix(cg, "/") == "";
      assert Push(CgroupRoot, "") == CgroupRoot + "/";
    }
    if StartsWith(cg, "//") {
      var c := TrimPrefix(cg, "/");
      assert c == cg[1..] && StartsWith(c, "/");
      var k := TrimPrefix(key, "/");
      if |c| > 0 && c[|c| - 1] != '/' {
        assert (c + "/" + k)[..|c|] == c;
      } else {
        assert (c + k)[..|c|] == c;
      }
    }
  }

  // The glob `**/cgroup`: the path is `cgroup` or ends with `/cgroup`.
  predicate MatchesCgroupGlob(e: string) {
    e == "cgroup" || EndsWith(e, "/cgroup")
  }

  /** The line `cg_set` prints. */
  function ConfiguringLine(path: string, val: string): string {
    "Configuring '" + path + "' to " + val
  }

  /** `FS` in mock mode: the mock map, and the lines printed so far. */
  class FS {
    var mock: map<string, string>
    var printed: seq<string>

    /** `FS::new_mock`. */
    constructor NewMock()
      ensures mock == map[] && printed == []
    {
      mock := map[];
      printed := [];
    }

    /** `find` on the mock: the keys under `path` that match the pattern, each once, in the map's order. */
    method Find(path: string, matches: string -> bool) returns (r: seq<string>)
      ensures forall e :: e in r <==> e in mock && StartsWith(e, path) && matches(e)
      ensures forall i, j | 0 <= i < j < |r| :: r[i] != r[j]
    {
      var keys := mock.Keys;
      r := [];
      while keys != {}
        invariant keys <= mock.Keys
        invariant forall e :: e in r <==> e in mock && e !in keys && StartsWith(e, path) && matches(e)
        invariant forall i, j | 0 <= i < j < |r| :: r[i] != r[j]
        decreases keys
      {
        var k :| k in keys;
        if StartsWith(k, path) && matches(k) {
          r := r + [k];
        }
        keys := keys - {k};
      }
    }

    /** `read_to_string` on the mock; a missing key makes the prototype panic. */
    method ReadToString(path: string) returns (s: string)
      requires path in mock
      ensures s == mock[path]
    {
      s := mock[path];
    }

    /** `exists` on the mock. */
    method Exists(path: string) returns (b: bool)
      ensures b <==> path in mock
    {
      b := path in mock;
    }

    /** `write_string` on the mock. */
    method WriteString(path: string, val: string)
      modifies this`mock
      ensures mock == old(mock)[path := val]
    {
      mock := mock[path := val];
    }

    /** `cg_has_interface`. */
    method CgHasInterface(cg: string, key: string) returns (b: bool)
      ensures b <==> CgFullPath(cg, key) in mock
    {
      b := Exists(CgFullPath(cg, key));
    }

    /** `cg_set`: print the path and the value, and write it. */
    method CgSet(cg: string, key: string, val: string)
      modifies this`mock, this`printed
      ensures mock == old(mock)[CgFullPath(cg, key) := val]
      ensures printed == old(printed) + [ConfiguringLine(CgFullPath(cg, key), val)]
    {
      var fullPath := CgFullPath(cg, key);
      printed := printed + [ConfiguringLine(fullPath, val)];
      WriteString(fullPath, val);
    }
  }

  /** After `write_string(p, v)`, `p` exists and reads back as `v`; no other path changes. */
  lemma WriteThenRead(m: map<string, string>, p: string, v: string)
    ensures p in m[p := v] && m[p := v][p] == v
    ensures forall q | q != p :: (q in m[p := v] <==> q in m) && (q in m ==> m[p := v][q] == m[q])
  {
  }

  // ---------------------------------------------------------------------
  // The cgroups of processes
  // ---------------------------------------------------------------------

  // A file that `find("/proc", "**/cgroup")` returns.
  predicate IsProcCgroupFile(k: string) {
    StartsWith(k, "/proc") && MatchesCgroupGlob(k)
  }

  /** Every such file is long enough for `raw[3..]`, which otherwise panics. */
  predicate ProcFilesReadable(m: map<string, string>) {
    forall k | k in m && IsProcCgroupFile(k) :: |m[k]| >= 3
  }

  /** The cgroup a `/proc/<pid>/cgroup` file names: its content from the fourth character, trimmed. */
  function CgroupOfRaw(raw: string): string
    requires |raw| >= 3
  {
    TrimWhitespace(raw[3..])
  }

  predicate HasSwap(m: map<string, string>, cg: string) {
    CgFullPath(cg, SwapMaxFile) in m
  }

  /** The cgroups of processes, as a set: each named by a process's cgroup file and swap-capable. */
  function ProcCgroups(m: map<string, string>): set<string> {
    set k | k in m && IsProcCgroupFile(k) && |m[k]| >= 3 && HasSwap(m, CgroupOfRaw(m[k])) :: CgroupOfRaw(m[k])
  }

  /** The cgroups the loop of `cgroups_of_procs` pushes for `entries`, in order. */
  function Collected(m: map<string, string>, entries: seq<string>): seq<string>
    requires forall e | e in entries :: e in m && |m[e]| >= 3
    decreases |entries|
  {
    if |entries| == 0 then []
    else
      var e := entries[|entries| - 1];
      var prev := Collected(m, entries[..|entries| - 1]);
      if HasSwap(m, CgroupOfRaw(m[e])) then prev + [CgroupOfRaw(m[e])] else prev
  }

  /** A cgroup pushed by `e`: the cgroup its file names, when that cgroup has a swap limit file. */
  predicate PushedBy(m: map<string, string>, e: string, cg: string) {
    e in m && |m[e]| >= 3 && HasSwap(m, CgroupOfRaw(m[e])) && cg == CgroupOfRaw(m[e])
  }

  lemma {:induction false} CollectedMembers(m: map<string, string>, entries: seq<string>)
    requires forall e | e in entries :: e in m && |m[e]| >= 3
    ensures forall cg :: cg in Collected(m, entries) <==> exists e :: e in entries && PushedBy(m, e, cg)
    decreases |entries|
  {
    if |entries| > 0 {
      var init := entries[..|entries| - 1];
      var last := entries[|entries| - 1];
      assert forall e :: e in entries <==> e in init || e == last by {
        assert entries == init + [last];
      }
      CollectedMembers(m, init);
      var c := CgroupOfRaw(m[last]);
      assert forall cg :: cg in Collected(m, entries) <==>
        cg in Collected(m, init) || (HasSwap(m, c) && cg == c);
      forall cg ensures cg in Collected(m, entries) <==> exists e :: e in entries && PushedBy(m, e, cg)
      {
        if cg in Collected(m, entries) && cg !in Collected(m, init) {
          assert PushedBy(m, last, cg);
        }
      }
    }
  }


  // ---------------------------------------------------------------------
  // BTreeSet: a strictly increasing sequence
  // ---------------------------------------------------------------------

  predicate StrictlySorted(s: seq<string>) {
    forall i, j | 0 <= i < j < |s| :: LessThan(s[i], s[j])
  }

  /** `BTreeSet::insert`, with the set as its increasing sequence of elements. */
  function Insert(s: seq<string>, x: string): seq<string>
    decreases |s|
  {
    if |s| == 0 then [x]
    else if x == s[0] then s
    else if LessThan(x, s[0]) then [x] + s
    else [s[0]] + Insert(s[1..], x)
  }

  /** Insertion keeps the sequence strictly increasing and adds exactly `x`. */
  lemma {:induction false} InsertProperties(s: seq<string>, x: string)
    requires StrictlySorted(s)
    ensures StrictlySorted(Insert(s, x))
    ensures forall y :: y in Insert(s, x) <==> y in s || y == x
    decreases |s|
  {
    if |s| > 0 && x != s[0] {
      if LessThan(x, s[0]) {
        forall j | 0 <= j < |s| ensures LessThan(x, s[j]) {
          if j > 0 {
            LessThanTransitive(x, s[0], s[j]);
          }
        }
      } else {
        LessThanTotal(x, s[0]);
        InsertProperties(s[1..], x);
        var r := Insert(s[1..], x);
        forall y | y in r ensures LessThan(s[0], y) {
          if y != x {
            var j :| 0 <= j < |s[1..]| && s[1..][j] == y;
            assert s[j + 1] == y;
          }
        }
        assert s == [s[0]] + s[1..];
        forall i, j | 0 <= i < j < |[s[0]] + r| ensures LessThan(([s[0]] + r)[i], ([s[0]] + r)[j]) {
          if i == 0 {
            assert ([s[0]] + r)[j] == r[j - 1];
            assert r[j - 1] in r;
          } else {
            assert ([s[0]] + r)[i] == r[i - 1];
          }
        }
      }
    }
  }

  /** `BTreeSet::from_iter` followed by `collect`: the distinct elements in increasing order. */
  function FromIter(s: seq<string>): seq<string>
    decreases |s|
  {
    if |s| == 0 then [] else Insert(FromIter(s[..|s| - 1]), s[|s| - 1])
  }

  lemma {:induction false} FromIterProperties(s: seq<string>)
    ensures StrictlySorted(FromIter(s))
    ensures forall y :: y in FromIter(s) <==> y in s
    decreases |s|
  {
    if |s| > 0 {
      FromIterProperties(s[..|s| - 1]);
      InsertProperties(FromIter(s[..|s| - 1]), s[|s| - 1]);
      assert s == s[..|s| - 1] + [s[|s| - 1]];
    }
  }

  lemma HeadIsMember(s: seq<string>)
    ensures |s| > 0 ==> s[0] in s
  {
  }

  /** Two increasing sequences with the same elements are the same sequence: the output depends only on the set. */
  lemma {:induction false} StrictlySortedUnique(a: seq<string>, b: seq<string>)
    requires StrictlySorted(a) && StrictlySorted(b)
    requires forall y :: y in a <==> y in b
    ensures a == b
    decreases |a|
  {
    if |a| == 0 {
      HeadIsMember(b);
    } else {
      assert a[0] in b;
      assert b[0] in a;
      if a[0] != b[0] {
        var i :| 0 <= i < |a| && a[i] == b[0];
        var j :| 0 <= j < |b| && b[j] == a[0];
        assert LessThan(a[0], a[i]) && LessThan(b[0], b[j]);
        LessThanTransitive(a[0], b[0], a[0]);
        LessThanIrreflexive(a[0]);
      }
      forall y ensures y in a[1..] <==> y in b[1..] {
        if y in a[1..] {
          var i :| 0 <= i < |a[1..]| && a[1..][i] == y;
          assert LessThan(a[0], y);
          LessThanIrreflexive(y);
          assert y in b && y != b[0];
          var j :| 0 <= j < |b| && b[j] == y;
          assert b[1..][j - 1] == y;
        }
        if y in b[1..] {
          var j :| 0 <= j < |b[1..]| && b[1..][j] == y;
          assert LessThan(b[0], y);
          LessThanIrreflexive(y);
          assert y in a && y != a[0];
          var i :| 0 <= i < |a| && a[i] == y;
          assert a[1..][i - 1] == y;
        }
      }
      StrictlySortedUnique(a[1..], b[1..]);
      assert a == [a[0]] + a[1..] && b == [b[0]] + b[1..];
    }
  }

  /** Keeping some elements of an increasing sequence leaves it increasing. */
  lemma {:induction false} FilterSorted(keep: string -> bool, s: seq<string>)
    requires StrictlySorted(s)
    ensures StrictlySorted(Filter(keep, s))
    decreases |s|
  {
    if |s| > 0 {
      var init := s[..|s| - 1];
      var last := s[|s| - 1];
      FilterSorted(keep, init);
      FilterMembers(keep, init);
      if keep(last) {
        var f := Filter(keep, init);
        forall i, j | 0 <= i < j < |f + [last]| ensures LessThan((f + [last])[i], (f + [last])[j]) {
          if j == |f| {
            assert f[i] in f;
            var k :| 0 <= k < |init| && init[k] == f[i];
            assert s[k] == f[i];
          } else {
            assert (f + [last])[i] == f[i] && (f + [last])[j] == f[j];
          }
        }
      }
    }
  }

  // ---------------------------------------------------------------------
  // The agent
  // ---------------------------------------------------------------------

  /** `kube_container_cgroups`' test: a Kubernetes pod cgroup that is not a `conmon` monitor. */
  predicate IsKubeCgroup(cg: string) {
    Contains(cg, "kubepods.slice") && !Contains(cg, "conmon")
  }

  /** The swap limit files of a set of cgroups. */
  function SwapPaths(cgs: set<string>): set<string> {
    set cg | cg in cgs :: CgFullPath(cg, SwapMaxFile)
  }

  /** The mock with `0` written to every path of `paths`. */
  function Overwrite(m: map<string, string>, paths: set<string>): map<string, string> {
    map p | p in m.Keys + paths :: if p in paths then "0" else m[p]
  }

  /** The lines printed for `cgs`, in order. */
  function ZeroLines(cgs: seq<string>): seq<string>
    decreases |cgs|
  {
    if |cgs| == 0 then []
    else ZeroLines(cgs[..|cgs| - 1]) + [ConfiguringLine(CgFullPath(cgs[|cgs| - 1], SwapMaxFile), "0")]
  }

  lemma SwapKeyIsRelative()
    ensures TrimPrefix(SwapMaxFile, "/") == SwapMaxFile
  {
    assert SwapMaxFile[..1] == "m";
  }

  /** A swap limit file is never a process's cgroup file. */
  lemma SwapFileIsNotProcFile(cg: string)
    ensures !IsProcCgroupFile(CgFullPath(cg, SwapMaxFile))
  {
    SwapKeyIsRelative();
    var p := CgFullPath(cg, SwapMaxFile);
    assert EndsWith(p, SwapMaxFile);
    assert p[|p| - 1] == SwapMaxFile[|SwapMaxFile| - 1] == 'x';
  }

  /** Every cgroup of a process has its swap limit file. */
  lemma ProcCgroupsHaveSwap(m: map<string, string>)
    ensures forall cg | cg in ProcCgroups(m) :: HasSwap(m, cg)
  {
    forall cg | cg in ProcCgroups(m) ensures HasSwap(m, cg) {
      var k :| k in m && IsProcCgroupFile(k) && |m[k]| >= 3 && HasSwap(m, CgroupOfRaw(m[k])) && CgroupOfRaw(m[k]) == cg;
    }
  }

  /**
   * Writing zeros to files that exist and are not cgroup files of
   * processes adds no file and leaves the cgroups of processes as they
   * are.
   */
  lemma OverwriteKeepsProcCgroups(m: map<string, string>, paths: set<string>)
    requires paths <= m.Keys
    requires forall p | p in paths :: !IsProcCgroupFile(p)
    ensures Overwrite(m, paths).Keys == m.Keys
    ensures ProcCgroups(Overwrite(m, paths)) == ProcCgroups(m)
    ensures ProcFilesReadable(m) ==> ProcFilesReadable(Overwrite(m, paths))
  {
    var w := Overwrite(m, paths);
    assert w.Keys == m.Keys;
    assert forall k | k in m && IsProcCgroupFile(k) :: w[k] == m[k];
    assert forall cg :: HasSwap(w, cg) <==> HasSwap(m, cg);
  }

  /** One more write extends the set of overwritten paths. */
  lemma OverwriteStep(m: map<string, string>, paths: set<string>, p: string)
    ensures Overwrite(m, paths)[p := "0"] == Overwrite(m, paths + {p})
  {
  }

  /** The swap limit files of the cgroups of `cgs`. */
  function PathsOf(cgs: seq<string>): set<string> {
    set cg | cg in cgs :: CgFullPath(cg, SwapMaxFile)
  }

  lemma PathsOfSnoc(cgs: seq<string>, cg: string)
    ensures PathsOf(cgs + [cg]) == PathsOf(cgs) + {CgFullPath(cg, SwapMaxFile)}
  {
    assert forall c :: c in cgs + [cg] <==> c in cgs || c == cg;
  }

  /** `WaspAgent`, reading and writing its file system. */
  class WaspAgent {
    const fs: FS

    constructor (fs: FS)
      ensures this.fs == fs
    {
      this.fs := fs;
    }

    /** `cgroups_of_procs`: the swap-capable cgroups of processes, each once, in increasing order. */
    method CgroupsOfProcs() returns (r: seq<string>)
      requires ProcFilesReadable(fs.mock)
      ensures StrictlySorted(r)
      ensures forall cg :: cg in r <==> cg in ProcCgroups(fs.mock)
    {
      var entries := fs.Find("/proc", MatchesCgroupGlob);
      var cgroups: seq<string> := [];
      var i := 0;
      while i < |entries|
        invariant 0 <= i <= |entries|
        invariant cgroups == Collected(fs.mock, entries[..i])
      {
        assert entries[..i + 1][..i] == entries[..i];
        var raw := fs.ReadToString(entries[i]);
        var cg := TrimWhitespace(raw[3..]);
        var has := fs.CgHasInterface(cg, SwapMaxFile);
        if has {
          cgroups := cgroups + [cg];
        }
        i := i + 1;
      }
      assert entries[..i] == entries;
      CollectedMembers(fs.mock, entries);
      FromIterProperties(cgroups);
      r := FromIter(cgroups);
    }

    /** `kube_container_cgroups`. */
    method KubeContainerCgroups() returns (r: seq<string>)
      requires ProcFilesReadable(fs.mock)
      ensures StrictlySorted(r)
      ensures forall cg :: cg in r <==> cg in ProcCgroups(fs.mock) && IsKubeCgroup(cg)
    {
      var all := CgroupsOfProcs();
      r := Filter(IsKubeCgroup, all);
      FilterSorted(IsKubeCgroup, all);
      FilterMembers(IsKubeCgroup, all);
    }

    /** `non_kube_container_cgroups`: the set difference of all the cgroups and the Kubernetes ones. */
    method NonKubeContainerCgroups() returns (r: seq<string>)
      requires ProcFilesReadable(fs.mock)
      ensures StrictlySorted(r)
      ensures forall cg :: cg in r <==> cg in ProcCgroups(fs.mock) && !IsKubeCgroup(cg)
    {
      var all := CgroupsOfProcs();
      var kube := KubeContainerCgroups();
      var allSet := FromIter(all);
      var kubeSet := FromIter(kube);
      FromIterProperties(all);
      FromIterProperties(kube);
      r := Filter(cg => cg !in kubeSet, allSet);
      FilterSorted(cg => cg !in kubeSet, allSet);
      FilterMembers(cg => cg !in kubeSet, allSet);
    }

    /** `configure_container_swap`. */
    method ConfigureContainerSwap(cg: string)
      modifies fs`mock, fs`printed
      ensures fs.mock == old(fs.mock)[CgFullPath(cg, SwapMaxFile) := "0"]
      ensures fs.printed == old(fs.printed) + [ConfiguringLine(CgFullPath(cg, SwapMaxFile), "0")]
    {
      fs.CgSet(cg, SwapMaxFile, "0");
    }

    /**
     * `configure_node_swap`: `0` is written to the swap limit of every
     * swap-capable cgroup of a process, the non-Kubernetes ones and then
     * the Kubernetes ones, each in increasing order and each once; no
     * other file changes and no file is added.
     */
    method ConfigureNodeSwap() returns (ghost nonKube: seq<string>, ghost kube: seq<string>)
      requires ProcFilesReadable(fs.mock)
      modifies fs`mock, fs`printed
      ensures StrictlySorted(nonKube) && StrictlySorted(kube)
      ensures forall cg :: cg in nonKube <==> cg in ProcCgroups(old(fs.mock)) && !IsKubeCgroup(cg)
      ensures forall cg :: cg in kube <==> cg in ProcCgroups(old(fs.mock)) && IsKubeCgroup(cg)
      ensures fs.printed == old(fs.printed) + ZeroLines(nonKube) + ZeroLines(kube)
      ensures fs.mock == Overwrite(old(fs.mock), SwapPaths(ProcCgroups(old(fs.mock))))
      ensures fs.mock.Keys == old(fs.mock).Keys
    {
      ghost var m0 := fs.mock;
      ProcCgroupsHaveSwap(m0);
      var non := NonKubeContainerCgroups();
      nonKube := non;
      WriteAll(non);
      PathsWithin(m0, non);
      OverwriteKeepsProcCgroups(m0, PathsOf(non));
      var k := KubeContainerCgroups();
      kube := k;
      ConfigureAll(k);
      NodeSwapResult(m0, non, k);
    }

    /** The second loop of `configure_node_swap`, through `configure_container_swap`. */
    method ConfigureAll(cgs: seq<string>)
      modifies fs`mock, fs`printed
      ensures fs.mock == Overwrite(old(fs.mock), PathsOf(cgs))
      ensures fs.printed == old(fs.printed) + ZeroLines(cgs)
    {
      ghost var m0 := fs.mock;
      ghost var p0 := fs.printed;
      assert Overwrite(m0, {}) == m0;
      var i := 0;
      while i < |cgs|
        invariant 0 <= i <= |cgs|
        invariant fs.mock == Overwrite(m0, PathsOf(cgs[..i]))
        invariant fs.printed == p0 + ZeroLines(cgs[..i])
      {
        WriteStep(m0, p0, cgs, i);
        ConfigureContainerSwap(cgs[i]);
        i := i + 1;
      }
      assert cgs[..i] == cgs;
    }

    /** The first loop of `configure_node_swap`. */
    method WriteAll(cgs: seq<string>)
      modifies fs`mock, fs`printed
      ensures fs.mock == Overwrite(old(fs.mock), PathsOf(cgs))
      ensures fs.printed == old(fs.printed) + ZeroLines(cgs)
    {
      ghost var m0 := fs.mock;
      ghost var p0 := fs.printed;
      assert Overwrite(m0, {}) == m0;
      var i := 0;
      while i < |cgs|
        invariant 0 <= i <= |cgs|
        invariant fs.mock == Overwrite(m0, PathsOf(cgs[..i]))
        invariant fs.printed == p0 + ZeroLines(cgs[..i])
      {
        WriteStep(m0, p0, cgs, i);
        fs.CgSet(cgs[i], SwapMaxFile, "0");
        i := i + 1;
      }
      assert cgs[..i] == cgs;
    }
  }

  /** One turn of a writing loop: one more cgroup's file written and its line printed. */
  lemma WriteStep(m: map<string, string>, printed: seq<string>, cgs: seq<string>, i: nat)
    requires i < |cgs|
    ensures Overwrite(m, PathsOf(cgs[..i]))[CgFullPath(cgs[i], SwapMaxFile) := "0"] == Overwrite(m, PathsOf(cgs[..i + 1]))
    ensures printed + ZeroLines(cgs[..i]) + [ConfiguringLine(CgFullPath(cgs[i], SwapMaxFile), "0")] ==
      printed + ZeroLines(cgs[..i + 1])
  {
    assert cgs[..i + 1] == cgs[..i] + [cgs[i]];
    assert cgs[..i + 1][..i] == cgs[..i];
    PathsOfSnoc(cgs[..i], cgs[i]);
    OverwriteStep(m, PathsOf(cgs[..i]), CgFullPath(cgs[i], SwapMaxFile));
  }

  /** The swap limit files of cgroups of processes exist and are not cgroup files of processes. */
  lemma PathsWithin(m: map<string, string>, cgs: seq<string>)
    requires forall cg | cg in cgs :: cg in ProcCgroups(m)
    ensures PathsOf(cgs) <= m.Keys
    ensures forall p | p in PathsOf(cgs) :: !IsProcCgroupFile(p)
  {
    ProcCgroupsHaveSwap(m);
    forall p | p in PathsOf(cgs) ensures p in m && !IsProcCgroupFile(p) {
      var cg :| cg in cgs && CgFullPath(cg, SwapMaxFile) == p;
      SwapFileIsNotProcFile(cg);
    }
  }

  /**
   * Writing the files of the non-Kubernetes cgroups and then those of the
   * Kubernetes ones writes exactly the swap limit files of all the cgroups
   * of processes.
   */
  lemma OverwritePartition(m0: map<string, string>, non: seq<string>, k: seq<string>)
    requires forall cg :: cg in non <==> cg in ProcCgroups(m0) && !IsKubeCgroup(cg)
    requires forall cg :: cg in k <==> cg in ProcCgroups(m0) && IsKubeCgroup(cg)
    ensures Overwrite(Overwrite(m0, PathsOf(non)), PathsOf(k)) == Overwrite(m0, SwapPaths(ProcCgroups(m0)))
  {
    assert PathsOf(non) + PathsOf(k) == SwapPaths(ProcCgroups(m0)) by {
      forall p | p in SwapPaths(ProcCgroups(m0)) ensures p in PathsOf(non) + PathsOf(k) {
        var cg :| cg in ProcCgroups(m0) && CgFullPath(cg, SwapMaxFile) == p;
        if IsKubeCgroup(cg) {
          assert cg in k;
        } else {
          assert cg in non;
        }
      }
    }
  }

  /** Both loops of `configure_node_swap` together overwrite exactly the swap files of the cgroups of processes. */
  lemma NodeSwapResult(m0: map<string, string>, non: seq<string>, k: seq<string>)
    requires forall cg :: cg in non <==> cg in ProcCgroups(m0) && !IsKubeCgroup(cg)
    requires forall cg :: cg in k <==> cg in ProcCgroups(m0) && IsKubeCgroup(cg)
    ensures Overwrite(Overwrite(m0, PathsOf(non)), PathsOf(k)) == Overwrite(m0, SwapPaths(ProcCgroups(m0)))
    ensures Overwrite(m0, SwapPaths(ProcCgroups(m0))).Keys == m0.Keys
  {
    PathsWithin(m0, k);
    OverwritePartition(m0, non, k);
    ProcCgroupsHaveSwap(m0);
    forall p | p in SwapPaths(ProcCgroups(m0)) ensures p in m0 && !IsProcCgroupFile(p) {
      var cg :| cg in ProcCgroups(m0) && CgFullPath(cg, SwapMaxFile) == p;
      SwapFileIsNotProcFile(cg);
    }
    OverwriteKeepsProcCgroups(m0, SwapPaths(ProcCgroups(m0)));
  }

  /** The Kubernetes and the other cgroups are disjoint, and together they are all the cgroups of processes. */
  lemma KubePartition(m: map<string, string>, kube: seq<string>, nonKube: seq<string>)
    requires forall cg :: cg in kube <==> cg in ProcCgroups(m) && IsKubeCgroup(cg)
    requires forall cg :: cg in nonKube <==> cg in ProcCgroups(m) && !IsKubeCgroup(cg)
    ensures forall cg :: !(cg in kube && cg in nonKube)
    ensures forall cg :: cg in kube || cg in nonKube <==> cg in ProcCgroups(m)
  {
  }

  // ---------------------------------------------------------------------
  // The `good_walk` fixture
  // ---------------------------------------------------------------------

  // The fixture's Kubernetes container cgroup, written in pieces.
  const KubepodsSlice: string := "/kubepods.slice"
  const QosSlicePath: string := KubepodsSlice + "/kubepods-burstable.slice"
  const PodUid: string := "b312a30a_d345_42c8_a659_32a04d5fd529"
  const PodSliceName: string := "kubepods-burstable-pod" + PodUid + ".slice"
  const ContainerId: string := "0ae1424a0e6b723f775c60e8aea2b454" + "55ed1bbff25492097f2cabe086ba7990"
  const KubeCgroup: string := QosSlicePath + "/" + PodSliceName + "/crio-" + ContainerId + ".scope"
  const LogindCgroup: string := "/system.slice/systemd-logind.service"

  /** The mock of the fixture, for the two cgroups: a process in each, and a swap limit file in each. */
  function FixtureMock(kube: string, other: string): map<string, string> {
    map[
      "/proc/6553/cgroup" := "0::" + kube,
      CgroupRoot + kube + "/" + SwapMaxFile := "0",
      "/proc/441/cgroup" := "0::" + other,
      CgroupRoot + other + "/" + SwapMaxFile := "0"]
  }

  /** A cgroup path `/<c>` whose `c` neither begins nor ends with `/` and does not end with whitespace. */
  predicate PlainCgroup(cg: string) {
    |cg| > 1 && cg[0] == '/' && cg[1] != '/' && cg[|cg| - 1] != '/' && !IsWhitespace(cg[|cg| - 1])
  }

  /** A string without one of the characters of `sub` does not contain `sub`. */
  lemma MissingCharNotContained(s: string, sub: string, c: char)
    requires c in sub && c !in s
    ensures !Contains(s, sub)
  {
    var j :| 0 <= j < |sub| && sub[j] == c;
    forall i | 0 <= i <= |s| - |sub| ensures !OccursAt(s, sub, i) {
      assert s[i + j] in s;
      assert s[i..i + |sub|][j] == s[i + j];
    }
  }

  /** The characters the fixture's cgroups lack. */
  lemma FixtureChars()
    ensures 'm' !in KubeCgroup && 'k' !in LogindCgroup
  {
    NoMInSlices();
    NoMInPodUid();
    NoMInContainerId();
    NoKInLogind();
  }

  lemma NoMInSlices()
    ensures 'm' !in KubepodsSlice && 'm' !in "/kubepods-burstable.slice" && 'm' !in "kubepods-burstable-pod"
    ensures 'm' !in ".slice" && 'm' !in "/" && 'm' !in "/crio-" && 'm' !in ".scope"
  {
  }

  lemma NoMInPodUid()
    ensures 'm' !in PodUid
  {
  }

  lemma NoMInContainerId()
    ensures 'm' !in "0ae1424a0e6b723f775c60e8aea2b454" && 'm' !in "55ed1bbff25492097f2cabe086ba7990"
  {
  }

  lemma NoKInLogind()
    ensures 'k' !in LogindCgroup
  {
  }

  /** The swap limit file of a cgroup path `/<c>` that does not end with `/`. */
  lemma SwapFileOf(cg: string)
    requires |cg| > 1 && cg[0] == '/' && cg[1] != '/' && cg[|cg| - 1] != '/'
    ensures CgFullPath(cg, SwapMaxFile) == CgroupRoot + cg + "/" + SwapMaxFile
  {
    assert StartsWith(cg, "/");
    var c := TrimPrefix(cg, "/");
    assert "/" + c == cg;
    assert !StartsWith(SwapMaxFile, "/") by {
      assert SwapMaxFile[..1] == "m";
    }
    CgFullPathJoins(cg, SwapMaxFile);
  }

  /** The cgroup a process file `0::<cg>` names, for a `cg` that begins and ends outside whitespace. */
  lemma CgroupOfUnifiedLine(cg: string)
    requires |cg| > 0 && !IsWhitespace(cg[0]) && !IsWhitespace(cg[|cg| - 1])
    ensures CgroupOfRaw("0::" + cg) == cg
  {
    assert ("0::" + cg)[3..] == cg;
  }

  lemma LeadingChars(a: string, b: string)
    requires |a| > 1
    ensures |a + b| > 1 && (a + b)[0] == a[0] && (a + b)[1] == a[1]
  {
  }

  lemma LastChar(a: string, b: string)
    requires |b| > 0
    ensures (a + b)[|a + b| - 1] == b[|b| - 1]
  {
  }

  lemma KubeCgroupEnds()
    ensures |KubeCgroup| > 1 && KubeCgroup[0] == '/' && KubeCgroup[1] == 'k' && KubeCgroup[|KubeCgroup| - 1] == 'e'
  {
    var q := QosSlicePath + "/";
    var p := q + PodSliceName;
    var r := p + "/crio-";
    var x := r + ContainerId;
    LeadingChars(KubepodsSlice, "/kubepods-burstable.slice");
    LeadingChars(QosSlicePath, "/");
    LeadingChars(q, PodSliceName);
    LeadingChars(p, "/crio-");
    LeadingChars(r, ContainerId);
    LeadingChars(x, ".scope");
    LastChar(x, ".scope");
  }

  lemma SliceOfLeft(a: string, b: string, i: int, j: int)
    requires 0 <= i <= j <= |a|
    ensures (a + b)[i..j] == a[i..j]
  {
  }

  lemma KubeCgroupSlice()
    ensures OccursAt(KubeCgroup, "kubepods.slice", 1)
  {
    var q := QosSlicePath + "/";
    var p := q + PodSliceName;
    var r := p + "/crio-";
    var x := r + ContainerId;
    assert KubepodsSlice[1..15] == "kubepods.slice";
    SliceOfLeft(KubepodsSlice, "/kubepods-burstable.slice", 1, 15);
    SliceOfLeft(QosSlicePath, "/", 1, 15);
    SliceOfLeft(q, PodSliceName, 1, 15);
    SliceOfLeft(p, "/crio-", 1, 15);
    SliceOfLeft(r, ContainerId, 1, 15);
    SliceOfLeft(x, ".scope", 1, 15);
  }

  lemma KubeCgroupShape()
    ensures PlainCgroup(KubeCgroup) && IsKubeCgroup(KubeCgroup)
  {
    KubeCgroupEnds();
    KubeCgroupSlice();
    FixtureChars();
    MissingCharNotContained(KubeCgroup, "conmon", 'm');
  }

  lemma LogindCgroupShape()
    ensures PlainCgroup(LogindCgroup) && !IsKubeCgroup(LogindCgroup)
  {
    FixtureChars();
    MissingCharNotContained(LogindCgroup, "kubepods.slice", 'k');
  }

  /** A swap limit file is under `/sys`, so it is not a cgroup file of a process. */
  lemma SwapFileUnderSys(cg: string)
    ensures (CgroupRoot + cg + "/" + SwapMaxFile)[..5] == "/sys/"
    ensures !IsProcCgroupFile(CgroupRoot + cg + "/" + SwapMaxFile)
  {
    var p := CgroupRoot + cg + "/" + SwapMaxFile;
    assert p == CgroupRoot + (cg + "/" + SwapMaxFile);
    assert p[..5] == CgroupRoot[..5];
  }

  /** The cgroup files of processes of the fixture's mock are the two under `/proc`. */
  lemma FixtureFiles(kube: string, other: string)
    ensures var m := FixtureMock(kube, other);
      forall k | k in m :: IsProcCgroupFile(k) <==> k == "/proc/6553/cgroup" || k == "/proc/441/cgroup"
  {
    var p1, p2 := "/proc/6553/cgroup", "/proc/441/cgroup";
    SwapFileUnderSys(kube);
    SwapFileUnderSys(other);
    assert p1[..5] == "/proc" && p1[10..] == "/cgroup";
    assert p2[..5] == "/proc" && p2[9..] == "/cgroup";
  }

  /** The two cgroup files of processes of the fixture's mock, read. */
  lemma FixtureLines(kube: string, other: string)
    requires PlainCgroup(kube) && PlainCgroup(other)
    ensures var m := FixtureMock(kube, other);
      "/proc/6553/cgroup" in m && m["/proc/6553/cgroup"] == "0::" + kube &&
      "/proc/441/cgroup" in m && m["/proc/441/cgroup"] == "0::" + other &&
      HasSwap(m, kube) && HasSwap(m, other)
  {
    var p1, p2 := "/proc/6553/cgroup", "/proc/441/cgroup";
    var s1, s2 := CgroupRoot + kube + "/" + SwapMaxFile, CgroupRoot + other + "/" + SwapMaxFile;
    SwapFileUnderSys(kube);
    SwapFileUnderSys(other);
    assert p1[..5] != "/sys/" && p2[..5] != "/sys/";
    assert p1 != s1 && p1 != s2 && p2 != s2 && p1 != p2;
    SwapFileOf(kube);
    SwapFileOf(other);
  }

  /** A mock whose only cgroup files of processes are `p1` and `p2`, naming `kube` and `other`, both with swap. */
  lemma TwoProcessCgroups(m: map<string, string>, p1: string, p2: string, kube: string, other: string)
    requires forall k | k in m :: IsProcCgroupFile(k) <==> k == p1 || k == p2
    requires p1 in m && m[p1] == "0::" + kube && p2 in m && m[p2] == "0::" + other
    requires CgroupOfRaw("0::" + kube) == kube && CgroupOfRaw("0::" + other) == other
    requires HasSwap(m, kube) && HasSwap(m, other)
    ensures ProcFilesReadable(m)
    ensures ProcCgroups(m) == {kube, other}
  {
    ProcCgroupsWithin(m, p1, p2, kube, other);
    assert kube in ProcCgroups(m) by {
      assert IsProcCgroupFile(p1) && |m[p1]| >= 3 && CgroupOfRaw(m[p1]) == kube;
    }
    assert other in ProcCgroups(m) by {
      assert IsProcCgroupFile(p2) && |m[p2]| >= 3 && CgroupOfRaw(m[p2]) == other;
    }
    SetOfTwo(ProcCgroups(m), kube, other);
  }

  lemma SetOfTwo(s: set<string>, a: string, b: string)
    requires a in s && b in s && forall x | x in s :: x == a || x == b
    ensures s == {a, b}
  {
  }

  lemma ProcCgroupsWithin(m: map<string, string>, p1: string, p2: string, kube: string, other: string)
    requires forall k | k in m :: IsProcCgroupFile(k) <==> k == p1 || k == p2
    requires p1 in m && m[p1] == "0::" + kube && p2 in m && m[p2] == "0::" + other
    requires CgroupOfRaw("0::" + kube) == kube && CgroupOfRaw("0::" + other) == other
    ensures forall cg | cg in ProcCgroups(m) :: cg == kube || cg == other
  {
    forall cg | cg in ProcCgroups(m) ensures cg == kube || cg == other {
      var k :| k in m && IsProcCgroupFile(k) && |m[k]| >= 3 && HasSwap(m, CgroupOfRaw(m[k])) && cg == CgroupOfRaw(m[k]);
      assert k == p1 || k == p2;
    }
  }

  /** Two processes, each in a plain cgroup with a swap limit file: the cgroups of processes are those two. */
  lemma FixtureCgroups(kube: string, other: string)
    requires PlainCgroup(kube) && PlainCgroup(other)
    ensures ProcFilesReadable(FixtureMock(kube, other))
    ensures ProcCgroups(FixtureMock(kube, other)) == {kube, other}
  {
    FixtureFiles(kube, other);
    FixtureLines(kube, other);
    CgroupOfUnifiedLine(kube);
    CgroupOfUnifiedLine(other);
    TwoProcessCgroups(FixtureMock(kube, other), "/proc/6553/cgroup", "/proc/441/cgroup", kube, other);
  }

  /**
   * In the fixture both processes' cgroups have a swap limit file, and the
   * first is the one Kubernetes container cgroup.
   */
  lemma GoodWalkCgroups()
    ensures ProcFilesReadable(FixtureMock(KubeCgroup, LogindCgroup))
    ensures ProcCgroups(FixtureMock(KubeCgroup, LogindCgroup)) == {KubeCgroup, LogindCgroup}
    ensures IsKubeCgroup(KubeCgroup) && !IsKubeCgroup(LogindCgroup)
  {
    KubeCgroupShape();
    LogindCgroupShape();
    FixtureCgroups(KubeCgroup, LogindCgroup);
  }

  /** An increasing sequence whose only element is `x` is `[x]`. */
  lemma SortedSingleton(s: seq<string>, x: string)
    requires StrictlySorted(s) && forall y :: y in s <==> y == x
    ensures s == [x]
  {
    StrictlySortedUnique(s, [x]);
  }

  /** With one Kubernetes cgroup `a` and one other `b`, each list holds just its one cgroup. */
  lemma TwoCgroupsSplit(m: map<string, string>, kube: seq<string>, nonKube: seq<string>, a: string, b: string)
    requires ProcCgroups(m) == {a, b} && IsKubeCgroup(a) && !IsKubeCgroup(b)
    requires StrictlySorted(kube) && forall cg :: cg in kube <==> cg in ProcCgroups(m) && IsKubeCgroup(cg)
    requires StrictlySorted(nonKube) && forall cg :: cg in nonKube <==> cg in ProcCgroups(m) && !IsKubeCgroup(cg)
    ensures kube == [a] && nonKube == [b]
  {
    SortedSingleton(kube, a);
    SortedSingleton(nonKube, b);
  }

  /** Writing the fixture's four files into an empty mock gives the fixture's mock. */
  lemma FixtureWrites(m0: map<string, string>, kube: string, other: string)
    requires m0 == map[]
    ensures m0["/proc/6553/cgroup" := "0::" + kube][CgroupRoot + kube + "/" + SwapMaxFile := "0"]
      ["/proc/441/cgroup" := "0::" + other][CgroupRoot + other + "/" + SwapMaxFile := "0"] == FixtureMock(kube, other)
  {
  }

  /** `good_walk`: one Kubernetes container cgroup and one other cgroup. */
  method GoodWalk() returns (kubeCount: nat, nonKubeCount: nat)
    ensures kubeCount == 1 && nonKubeCount == 1
  {
    var fs := new FS.NewMock();
    ghost var m0 := fs.mock;
    fs.WriteString("/proc/6553/cgroup", "0::" + KubeCgroup);
    fs.WriteString(CgroupRoot + KubeCgroup + "/" + SwapMaxFile, "0");
    fs.WriteString("/proc/441/cgroup", "0::" + LogindCgroup);
    fs.WriteString(CgroupRoot + LogindCgroup + "/" + SwapMaxFile, "0");
    FixtureWrites(m0, KubeCgroup, LogindCgroup);
    var wasp := new WaspAgent(fs);
    GoodWalkCgroups();
    var kube := wasp.KubeContainerCgroups();
    var nonKube := wasp.NonKubeContainerCgroups();
    TwoCgroupsSplit(fs.mock, kube, nonKube, KubeCgroup, LogindCgroup);
    kubeCount := |kube|;
    nonKubeCount := |nonKube|;
  }
}
