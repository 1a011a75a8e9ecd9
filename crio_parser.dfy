/**
 * Which OCI runtime CRI-O runs: the `default_runtime` of the `[crio.runtime]`
 * table, read from the main configuration file and then from every file
 * under the drop-in directory, each non-empty value overriding the one
 * before; `crun` when no file sets one. The file system is given as what
 * reading each file yields (a decoded `default_runtime`, a read error, or a
 * decode error) and as the entries a walk of the drop-in path visits, in
 * walk order.
 */
module CrioParser {
  import opened Wrappers
  import opened Strs

  const DefaultRuntime: string := "crun"

  /** A Go error: its message, and whether `errors.Is(err, os.ErrNotExist)` holds. */
  datatype Error = Error(msg: string, notExist: bool)

  /** What `os.ReadFile` and `toml.Decode` make of one file. */
  datatype FileRead =
    | Decoded(defaultRuntime: string)   // an absent key decodes as ""
    | ReadFailed(err: Error)
    | DecodeFailed(msg: string)

  /** One call of the walk function: the path, whether it is a directory, and the error the walk passes for it. */
  datatype WalkEntry = WalkEntry(path: string, isDir: bool, err: Option<Error>)

  /** The drop-in path: absent (`os.Stat` reports it does not exist), or the entries a walk of it visits. */
  datatype DropIn = Missing | Walked(entries: seq<WalkEntry>)

  /** The files that can be read; reading any other path fails as a missing file. */
  datatype Files = Files(contents: map<string, FileRead>)

  function ReadOf(files: Files, path: string): FileRead {
    if path in files.contents then files.contents[path]
    else ReadFailed(Error("open " + path + ": no such file or directory", true))
  }

  /** `toConfig`: a decoded value replaces the runtime only when it is not empty. */
  function ToConfig(current: string, decoded: string): (r: string)
    ensures decoded != "" ==> r == decoded
    ensures decoded == "" ==> r == current
  {
    if decoded != "" then decoded else current
  }

  /** The message `UpdateFromFile` wraps a decode error in. */
  function DecodeError(path: string, msg: string): Error {
    Error("unable to decode configuration " + path + ": " + msg, false)
  }

  /** `UpdateFromFile`: the runtime after reading `path`, and its error. */
  function ApplyFile(current: string, files: Files, path: string): (Option<Error>, string) {
    match ReadOf(files, path)
    case ReadFailed(err) => (Some(err), current)
    case DecodeFailed(msg) => (Some(DecodeError(path, msg)), current)
    case Decoded(v) => (None, ToConfig(current, v))
  }

  /** The walk of the drop-in path: directories are skipped, and the first error stops it. */
  function ApplyWalk(current: string, files: Files, entries: seq<WalkEntry>): (Option<Error>, string)
    decreases |entries|
  {
    if |entries| == 0 then (None, current)
    else
      var e := entries[0];
      if e.err.Some? then (e.err, current)
      else if e.isDir then ApplyWalk(current, files, entries[1..])
      else
        var step := ApplyFile(current, files, e.path);
        if step.0.Some? then step else ApplyWalk(step.1, files, entries[1..])
  }

  /** `UpdateFromPath`: nothing for a missing path; a walk error is wrapped as `walk path`. */
  function ApplyPath(current: string, files: Files, dropIn: DropIn): (Option<Error>, string) {
    match dropIn
    case Missing => (None, current)
    case Walked(entries) =>
      var w := ApplyWalk(current, files, entries);
      if w.0.Some? then (Some(Error("walk path: " + w.0.value.msg, w.0.value.notExist)), w.1) else w
  }

  /** `GetRuntime` on a configuration holding `current`: the runtime it returns or its error, and the runtime it leaves. */
  function Runtime(current: string, files: Files, mainPath: string, dropIn: DropIn): (Result<string, Error>, string) {
    var m := ApplyFile(current, files, mainPath);
    if m.0.Some? && !m.0.value.notExist then (Err(m.0.value), m.1)
    else
      var p := ApplyPath(m.1, files, dropIn);
      if p.0.Some? then (Err(p.0.value), p.1) else (Ok(p.1), p.1)
  }

  /** `Config`: the two paths it reads and the runtime it holds, which `toConfig` overwrites in place. */
  class Config {
    const crioMainConfPath: string
    const crioDropInPath: string
    var defaultRuntime: string

    /** `New`: the default configuration with the two paths. */
    constructor (mainPath: string, dropInPath: string)
      ensures crioMainConfPath == mainPath && crioDropInPath == dropInPath
      ensures defaultRuntime == DefaultRuntime
    {
      crioMainConfPath := mainPath;
      crioDropInPath := dropInPath;
      defaultRuntime := DefaultRuntime;
    }

    method ToConfigFrom(decoded: string)
      modifies this`defaultRuntime
      ensures defaultRuntime == ToConfig(old(defaultRuntime), decoded)
    {
      if decoded != "" {
        defaultRuntime := decoded;
      }
    }

    /** `UpdateFromFile`. */
    method UpdateFromFile(files: Files, path: string) returns (err: Option<Error>)
      modifies this`defaultRuntime
      ensures (err, defaultRuntime) == ApplyFile(old(defaultRuntime), files, path)
    {
      var data := ReadOf(files, path);
      if data.ReadFailed? {
        return Some(data.err);
      }
      if data.DecodeFailed? {
        return Some(DecodeError(path, data.msg));
      }
      ToConfigFrom(data.defaultRuntime);
      return None;
    }

    /** `UpdateFromPath`, with the walk's callback as the loop body. */
    method UpdateFromPath(files: Files, dropIn: DropIn) returns (err: Option<Error>)
      modifies this`defaultRuntime
      ensures (err, defaultRuntime) == ApplyPath(old(defaultRuntime), files, dropIn)
    {
      if dropIn.Missing? {
        return None;
      }
      var entries := dropIn.entries;
      var walkErr: Option<Error> := None;
      var i := 0;
      while i < |entries|
        invariant 0 <= i <= |entries|
        invariant ApplyWalk(old(defaultRuntime), files, entries) == ApplyWalk(defaultRuntime, files, entries[i..])
      {
        var e := entries[i];
        if e.err.Some? {
          walkErr := e.err;
          break;
        }
        if !e.isDir {
          var fileErr := UpdateFromFile(files, e.path);
          if fileErr.Some? {
            walkErr := fileErr;
            break;
          }
        }
        assert entries[i..][1..] == entries[i + 1..];
        i := i + 1;
      }
      if walkErr.Some? {
        return Some(Error("walk path: " + walkErr.value.msg, walkErr.value.notExist));
      }
      return None;
    }

    /**
     * `GetRuntime`: a missing main file is skipped, any other error of it
     * is returned at once; then the drop-ins, whose error is returned.
     */
    method GetRuntime(files: Files, dropIn: DropIn) returns (runtime: string, err: Option<Error>)
      modifies this`defaultRuntime
      ensures var r := Runtime(old(defaultRuntime), files, crioMainConfPath, dropIn);
        defaultRuntime == r.1 &&
        (r.0.Ok? ==> runtime == r.0.value && err.None?) &&
        (r.0.Err? ==> runtime == "" && err == Some(r.0.error))
    {
      var mainErr := UpdateFromFile(files, crioMainConfPath);
      if mainErr.Some? && !mainErr.value.notExist {
        return "", mainErr;
      }
      var pathErr := UpdateFromPath(files, dropIn);
      if pathErr.Some? {
        return "", pathErr;
      }
      return defaultRuntime, None;
    }
  }

  // ---------------------------------------------------------------------
  // Properties
  // ---------------------------------------------------------------------

  /** The last non-empty value of `values`, or `current` when there is none. */
  function LastNonEmpty(current: string, values: seq<string>): string
    decreases |values|
  {
    if |values| == 0 then current else LastNonEmpty(ToConfig(current, values[0]), values[1..])
  }

  lemma {:induction false} LastNonEmptyIsLast(current: string, values: seq<string>)
    ensures LastNonEmpty(current, values) == current || LastNonEmpty(current, values) in values
    ensures forall i | 0 <= i < |values| && values[i] != "" ::
      LastNonEmpty(current, values) != "" &&
      ((forall j | i < j < |values| :: values[j] == "") ==> LastNonEmpty(current, values) == values[i])
    ensures (forall i | 0 <= i < |values| :: values[i] == "") ==> LastNonEmpty(current, values) == current
    decreases |values|
  {
    if |values| > 0 {
      LastNonEmptyIsLast(ToConfig(current, values[0]), values[1..]);
      forall i | 0 < i < |values|
        ensures values[i] == values[1..][i - 1]
      {
      }
    }
  }

  /** A walk entry that reads and decodes cleanly. */
  predicate CleanEntry(files: Files, e: WalkEntry) {
    e.err.None? && (e.isDir || ReadOf(files, e.path).Decoded?)
  }

  /** The decoded values of the files a clean walk visits, in walk order. */
  function WalkValues(files: Files, entries: seq<WalkEntry>): seq<string>
    requires forall i | 0 <= i < |entries| :: CleanEntry(files, entries[i])
    decreases |entries|
  {
    if |entries| == 0 then []
    else
      assert CleanEntry(files, entries[0]);
      assert forall i | 0 <= i < |entries[1..]| :: entries[1..][i] == entries[i + 1];
      var rest := WalkValues(files, entries[1..]);
      if entries[0].isDir then rest else [ReadOf(files, entries[0].path).defaultRuntime] + rest
  }

  /** A walk without errors ends with the last non-empty value of its files, or with the runtime it started from. */
  lemma {:induction false} CleanWalk(current: string, files: Files, entries: seq<WalkEntry>)
    requires forall i | 0 <= i < |entries| :: CleanEntry(files, entries[i])
    ensures ApplyWalk(current, files, entries) == (None, LastNonEmpty(current, WalkValues(files, entries)))
    decreases |entries|
  {
    if |entries| > 0 {
      assert forall i | 0 <= i < |entries[1..]| :: entries[1..][i] == entries[i + 1];
      var e := entries[0];
      if e.isDir {
        CleanWalk(current, files, entries[1..]);
      } else {
        CleanWalk(ToConfig(current, ReadOf(files, e.path).defaultRuntime), files, entries[1..]);
      }
    }
  }

  /**
   * When every file reads cleanly (the main file may be missing), the
   * runtime is the last non-empty value of the main file and the drop-ins
   * in walk order, or `crun` when none sets one.
   */
  lemma LayeredRuntime(files: Files, mainPath: string, entries: seq<WalkEntry>)
    requires ReadOf(files, mainPath).Decoded? || (ReadOf(files, mainPath).ReadFailed? && ReadOf(files, mainPath).err.notExist)
    requires forall i | 0 <= i < |entries| :: CleanEntry(files, entries[i])
    ensures var mainValues := if ReadOf(files, mainPath).Decoded? then [ReadOf(files, mainPath).defaultRuntime] else [];
      Runtime(DefaultRuntime, files, mainPath, Walked(entries)).0 ==
        Ok(LastNonEmpty(DefaultRuntime, mainValues + WalkValues(files, entries)))
  {
    var m := ApplyFile(DefaultRuntime, files, mainPath);
    CleanWalk(m.1, files, entries);
    var values := WalkValues(files, entries);
    if ReadOf(files, mainPath).Decoded? {
      var v := ReadOf(files, mainPath).defaultRuntime;
      assert ([v] + values)[1..] == values;
    } else {
      assert [] + values == values;
    }
  }

  /** With no configuration files at all, the runtime is `crun`. */
  lemma NoFilesMeansCrun(mainPath: string, dropIn: DropIn)
    requires dropIn == Missing || dropIn == Walked([])
    ensures Runtime(DefaultRuntime, Files(map[]), mainPath, dropIn) == (Ok(DefaultRuntime), DefaultRuntime)
  {
  }

  /** A clean configuration never ends up with an empty runtime. */
  lemma RuntimeNeverEmpty(current: string, files: Files, mainPath: string, dropIn: DropIn)
    requires current != ""
    ensures Runtime(current, files, mainPath, dropIn).1 != ""
    ensures Runtime(current, files, mainPath, dropIn).0.Ok? ==> Runtime(current, files, mainPath, dropIn).0.value != ""
  {
    ApplyWalkNeverEmpty(ApplyFile(current, files, mainPath).1, files, if dropIn.Walked? then dropIn.entries else []);
  }

  lemma {:induction false} ApplyWalkNeverEmpty(current: string, files: Files, entries: seq<WalkEntry>)
    requires current != ""
    ensures ApplyWalk(current, files, entries).1 != ""
    decreases |entries|
  {
    if |entries| > 0 {
      var e := entries[0];
      if e.err.None? {
        if e.isDir {
          ApplyWalkNeverEmpty(current, files, entries[1..]);
        } else {
          var step := ApplyFile(current, files, e.path);
          if step.0.None? {
            ApplyWalkNeverEmpty(step.1, files, entries[1..]);
          }
        }
      }
    }
  }

  /**
   * Errors: any failure of the main file other than its absence is
   * returned as it is, before any drop-in is read; a missing main file is
   * skipped.
   */
  lemma MainFileErrors(current: string, files: Files, mainPath: string, dropIn: DropIn)
    ensures var r := ReadOf(files, mainPath);
      (r.ReadFailed? && !r.err.notExist ==> Runtime(current, files, mainPath, dropIn) == (Err(r.err), current)) &&
      (r.DecodeFailed? ==> Runtime(current, files, mainPath, dropIn) == (Err(DecodeError(mainPath, r.msg)), current)) &&
      (r.ReadFailed? && r.err.notExist ==>
         Runtime(current, files, mainPath, dropIn) ==
           (var p := ApplyPath(current, files, dropIn); if p.0.Some? then (Err(p.0.value), p.1) else (Ok(p.1), p.1)))
  {
  }

  /** A clean stretch of the walk only moves the runtime on to the last non-empty value it read. */
  lemma {:induction false} CleanWalkPrefix(current: string, files: Files, pre: seq<WalkEntry>, rest: seq<WalkEntry>)
    requires forall i | 0 <= i < |pre| :: CleanEntry(files, pre[i])
    ensures ApplyWalk(current, files, pre + rest) == ApplyWalk(LastNonEmpty(current, WalkValues(files, pre)), files, rest)
    decreases |pre|
  {
    if |pre| > 0 {
      assert (pre + rest)[1..] == pre[1..] + rest;
      assert forall i | 0 <= i < |pre[1..]| :: pre[1..][i] == pre[i + 1];
      var e := pre[0];
      if e.isDir {
        CleanWalkPrefix(current, files, pre[1..], rest);
      } else {
        CleanWalkPrefix(ToConfig(current, ReadOf(files, e.path).defaultRuntime), files, pre[1..], rest);
      }
    } else {
      assert pre + rest == rest;
    }
  }

  /**
   * A drop-in file that does not decode ends the walk: its decode error is
   * returned, wrapped as `walk path`, and the files after it are not read.
   */
  lemma DropInDecodeError(current: string, files: Files, mainPath: string,
                          pre: seq<WalkEntry>, bad: WalkEntry, post: seq<WalkEntry>)
    requires !ApplyFile(current, files, mainPath).0.Some?
    requires forall i | 0 <= i < |pre| :: CleanEntry(files, pre[i])
    requires bad.err.None? && !bad.isDir && ReadOf(files, bad.path).DecodeFailed?
    ensures Runtime(current, files, mainPath, Walked(pre + [bad] + post)).0 ==
      Err(Error("walk path: " + DecodeError(bad.path, ReadOf(files, bad.path).msg).msg, false))
  {
    var m := ApplyFile(current, files, mainPath);
    assert pre + [bad] + post == pre + ([bad] + post);
    CleanWalkPrefix(m.1, files, pre, [bad] + post);
    var x := LastNonEmpty(m.1, WalkValues(files, pre));
    assert ([bad] + post)[0] == bad;
    assert ApplyWalk(x, files, [bad] + post) == (Some(DecodeError(bad.path, ReadOf(files, bad.path).msg)), x);
  }
}
