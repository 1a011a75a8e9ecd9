/**
 * The OCI hook script that lifts a container's swap limit: the command
 * line for the runtime CRI-O runs, substituted into the hook template and
 * written to the hook script's path. Only `runc` and `crun` are supported.
 * The file system is the map from paths to contents the renderer writes;
 * whether creating the script, parsing the template and executing it
 * succeed is given.
 */
module OciHookRender {
  import opened Wrappers
  import opened Strs

  const RuncBinary: string := "runc"
  const CrunBinary: string := "crun"

  // The arguments of each runtime's `update` after the subcommand.
  const RuncArgs: string := "$CONTAINERID --memory-swap -1"
  const CrunArgs: string := "--memory-swap=-1 $CONTAINERID"

  /** The command for the runtime, or the error for an unsupported one. */
  function RuntimeCmd(runtime: string): (r: Result<string, string>)
    ensures r.Ok? <==> runtime == RuncBinary || runtime == CrunBinary
    ensures runtime == "runc" ==> r == Ok("runc update $CONTAINERID --memory-swap -1\n")
    ensures runtime == "crun" ==> r == Ok("crun update --memory-swap=-1 $CONTAINERID\n")
    ensures r.Err? ==> r.error == "unsupported OCI runtime " + runtime
  {
    RuncCommand();
    CrunCommand();
    if runtime == RuncBinary then Ok(RuncBinary + " update " + RuncArgs + "\n")
    else if runtime == CrunBinary then Ok(CrunBinary + " update " + CrunArgs + "\n")
    else Err("unsupported OCI runtime " + runtime)
  }

  /** The `runc` command spelled out. */
  lemma RuncCommand()
    ensures RuncBinary + " update " + RuncArgs + "\n" == "runc update $CONTAINERID --memory-swap -1\n"
  {
    RuncHead();
    RuncLine();
  }

  /** The `runc` command's head. */
  lemma RuncHead()
    ensures RuncBinary + " update " == "runc update "
  {
  }

  /** The `runc` command without its newline. */
  lemma RuncLine()
    ensures "runc update " + RuncArgs == "runc update $CONTAINERID --memory-swap -1"
  {
  }

  /** The `crun` command spelled out. */
  lemma CrunCommand()
    ensures CrunBinary + " update " + CrunArgs + "\n" == "crun update --memory-swap=-1 $CONTAINERID\n"
  {
    CrunHead();
    CrunLine();
  }

  /** The `crun` command's head. */
  lemma CrunHead()
    ensures CrunBinary + " update " == "crun update "
  {
  }

  /** The `crun` command without its newline. */
  lemma CrunLine()
    ensures "crun update " + CrunArgs == "crun update --memory-swap=-1 $CONTAINERID"
  {
  }

  /** Both commands are one line that runs the runtime's `update` with unlimited swap. */
  lemma RuntimeCmdShape(runtime: string)
    requires RuntimeCmd(runtime).Ok?
    ensures var cmd := RuntimeCmd(runtime).value;
      StartsWith(cmd, runtime + " update ") && EndsWith(cmd, "\n") && '\n' !in cmd[..|cmd| - 1]
  {
    NoNewlines();
    if runtime == RuncBinary {
      OneLine(runtime + " update ", RuncArgs);
    } else {
      OneLine(runtime + " update ", CrunArgs);
    }
  }

  lemma NoNewlines()
    ensures '\n' !in RuncBinary && '\n' !in CrunBinary && '\n' !in " update "
    ensures '\n' !in RuncArgs && '\n' !in CrunArgs
  {
  }

  lemma OneLine(head: string, mid: string)
    requires '\n' !in head && '\n' !in mid
    ensures var cmd := head + mid + "\n";
      StartsWith(cmd, head) && EndsWith(cmd, "\n") && '\n' !in cmd[..|cmd| - 1]
  {
    var cmd := head + mid + "\n";
    assert cmd[..|head|] == head;
    assert cmd[..|cmd| - 1] == head + mid;
  }

  /** A piece of the hook template: literal text, or the `{{.RuntimeCmd}}` action. */
  datatype Piece = Text(text: string) | RuntimeCmdField

  /** `tmpl.Execute` with data holding `cmd`. */
  function Execute(template: seq<Piece>, cmd: string): string
    decreases |template|
  {
    if |template| == 0 then ""
    else
      var p := template[|template| - 1];
      Execute(template[..|template| - 1], cmd) + (if p.Text? then p.text else cmd)
  }

  /** The number of `{{.RuntimeCmd}}` actions of a template. */
  function Fields(template: seq<Piece>): nat
    decreases |template|
  {
    if |template| == 0 then 0
    else Fields(template[..|template| - 1]) + (if template[|template| - 1].RuntimeCmdField? then 1 else 0)
  }

  /** The text of a template with `cmd` in place of every action: the template's text plus the command once per action. */
  lemma {:induction false} ExecuteLength(template: seq<Piece>, cmd: string)
    ensures |Execute(template, cmd)| == |Execute(template, "")| + Fields(template) * |cmd|
    decreases |template|
  {
    if |template| > 0 {
      var init := template[..|template| - 1];
      var p := template[|template| - 1];
      ExecuteLength(init, cmd);
      assert |Execute(template, cmd)| == |Execute(init, cmd)| + (if p.Text? then |p.text| else |cmd|);
      assert |Execute(template, "")| == |Execute(init, "")| + (if p.Text? then |p.text| else 0);
      if p.RuntimeCmdField? {
        MulSucc(Fields(init), |cmd|);
      }
    }
  }

  lemma MulSucc(a: nat, b: nat)
    ensures (a + 1) * b == a * b + b
  {
  }

  /** Execution of a concatenated template is the concatenation of the executions. */
  lemma {:induction false} ExecuteAppend(a: seq<Piece>, b: seq<Piece>, cmd: string)
    ensures Execute(a + b, cmd) == Execute(a, cmd) + Execute(b, cmd)
    decreases |b|
  {
    if |b| == 0 {
      assert a + b == a;
    } else {
      assert (a + b)[..|a + b| - 1] == a + b[..|b| - 1];
      ExecuteAppend(a, b[..|b| - 1], cmd);
    }
  }

  /** `Renderer`, with the files it writes. */
  class Renderer {
    const hookTemplatePath: string
    const hookScriptPath: string
    const runtimeCmd: string
    var files: map<string, string>

    /** `New`. */
    constructor (templatePath: string, hookPath: string, runtime: string, files: map<string, string>)
      ensures hookTemplatePath == templatePath && hookScriptPath == hookPath && runtimeCmd == runtime
      ensures this.files == files
    {
      hookTemplatePath := templatePath;
      hookScriptPath := hookPath;
      runtimeCmd := runtime;
      this.files := files;
    }

    /**
     * `Render`, given whether creating the script fails, what parsing the
     * template yields, and whether executing it fails. An unsupported
     * runtime is reported before the script is created; once created, the
     * script is empty unless execution succeeds, when it holds the template
     * with the command substituted.
     */
    method Render(createErr: Option<string>, template: Result<seq<Piece>, string>, execErr: Option<string>)
      returns (err: Option<string>)
      modifies this`files
      ensures RuntimeCmd(runtimeCmd).Err? ==> err == Some(RuntimeCmd(runtimeCmd).error) && files == old(files)
      ensures RuntimeCmd(runtimeCmd).Ok? && createErr.Some? ==> err == createErr && files == old(files)
      ensures RuntimeCmd(runtimeCmd).Ok? && createErr.None? ==>
        (template.Err? ==> err == Some("error while parsing: " + template.error) && files == old(files)[hookScriptPath := ""]) &&
        (template.Ok? && execErr.Some? ==>
           err == Some("error while executing: " + execErr.value) && files == old(files)[hookScriptPath := ""]) &&
        (template.Ok? && execErr.None? ==>
           err.None? && files == old(files)[hookScriptPath := Execute(template.value, RuntimeCmd(runtimeCmd).value)])
    {
      var data := RuntimeCmd(runtimeCmd);
      if data.Err? {
        return Some(data.error);
      }
      if createErr.Some? {
        return createErr;
      }
      files := files[hookScriptPath := ""];
      if template.Err? {
        return Some("error while parsing: " + template.error);
      }
      if execErr.Some? {
        return Some("error while executing: " + execErr.value);
      }
      files := files[hookScriptPath := Execute(template.value, data.value)];
      return None;
    }
  }
}
