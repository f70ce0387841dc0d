/**
 * executor.go: how RunCommand turns a command string into an argument vector and what it
 * returns, and how RunCommandArray splits a `;`-separated list and runs each piece. Launching
 * the process is an input: `Executor` gives what `cmd.CombinedOutput()` would report.
 */
module GoExecutor {
  import opened Wrappers
  import opened Strings
  import opened Process

  /** What `CombinedOutput` reports: whether it returned an error (launch failure or non-zero exit), and the output. */
  datatype ExecResult = ExecResult(failed: bool, output: string)

  type Executor = Argv -> ExecResult

  datatype CommandError =
    | EmptyCommand        // "command is empty"
    | EmptyAfterSplit     // "command is empty after splitting"
    | ExecFailed          // the error of CombinedOutput

  /** One call of RunCommand: the process it launched, if any, and its `(string, error)` result. */
  datatype CommandRun = CommandRun(launched: Option<Argv>, output: string, err: Option<CommandError>)

  /**
   * The argument vector RunCommand builds (executor.go:13-24): the program is the first
   * white-space-delimited field and the arguments are the remaining fields; an empty or
   * all-white-space command is an error.
   */
  function CommandArgv(command: string): (r: Result<Argv, CommandError>)
    ensures command == "" ==> r == Err(EmptyCommand)
    ensures r.Ok? <==> !AllSpace(command)
    ensures command != "" && AllSpace(command) ==> r == Err(EmptyAfterSplit)
    ensures r.Ok? ==> [r.value.program] + r.value.args == Fields(command)
    ensures r.Ok? ==> r.value.program != "" && NoSpace(r.value.program)
    ensures r.Ok? ==> forall i :: 0 <= i < |r.value.args| ==> r.value.args[i] != "" && NoSpace(r.value.args[i])
  {
    if command == "" then Err(EmptyCommand)
    else
      var parts := Fields(command);
      FieldsEmpty(command);
      if |parts| == 0 then Err(EmptyAfterSplit)
      else
        assert [parts[0]] + parts[1..] == parts;
        Ok(Argv(parts[0], parts[1..]))
  }

  /** RunCommand (executor.go:13-35): on failure the raw output, on success the trimmed output. */
  function RunCommand(command: string, exec: Executor): (r: CommandRun)
    ensures r.launched.Some? <==> CommandArgv(command).Ok?
    ensures r.launched.None? ==> r.output == "" && r.err == Some(CommandArgv(command).error)
    ensures r.launched.Some? ==> r.launched.value == CommandArgv(command).value
    ensures r.launched.Some? && exec(r.launched.value).failed ==>
      r.err == Some(ExecFailed) && r.output == exec(r.launched.value).output
    ensures r.launched.Some? && !exec(r.launched.value).failed ==>
      r.err == None && r.output == TrimSpace(exec(r.launched.value).output)
  {
    match CommandArgv(command)
    case Err(e) => CommandRun(None, "", Some(e))
    case Ok(argv) =>
      var res := exec(argv);
      if res.failed then CommandRun(Some(argv), res.output, Some(ExecFailed))
      else CommandRun(Some(argv), TrimSpace(res.output), None)
  }

  /** A successful RunCommand never returns output with white space at either end. */
  lemma RunCommandOutputTrimmed(command: string, exec: Executor)
    ensures var r := RunCommand(command, exec);
      r.err == None ==> TrimSpace(r.output) == r.output
  {
    var r := RunCommand(command, exec);
    if r.err == None {
      TrimSpaceIdempotent(exec(r.launched.value).output);
    }
  }

  /** The trimmed pieces that are not empty, in order. */
  function NonEmptyTrimmed(pieces: seq<string>): (kept: seq<string>)
  {
    if pieces == [] then []
    else
      var t := TrimSpace(pieces[|pieces| - 1]);
      NonEmptyTrimmed(pieces[..|pieces| - 1]) + (if t == "" then [] else [t])
  }

  /** The commands RunCommandArray runs: split on ';', trimmed, empty pieces skipped. */
  function ArrayCommands(commands: string): (cmds: seq<string>)
  {
    if commands == "" then [] else NonEmptyTrimmed(SplitOn(commands, ';'))
  }

  /**
   * RunCommandArray (executor.go:38-52). Every command of ArrayCommands is run, in order, and
   * a failing command does not stop the ones after it.
   */
  method RunCommandArray(commands: string, exec: Executor) returns (runs: seq<CommandRun>)
    ensures |runs| == |ArrayCommands(commands)|
    ensures forall i :: 0 <= i < |runs| ==> runs[i] == RunCommand(ArrayCommands(commands)[i], exec)
  {
    runs := [];
    if commands == "" {
      return;
    }
    var splitCommands := SplitOn(commands, ';');
    ghost var ran: seq<string> := [];
    for i := 0 to |splitCommands|
      invariant ran == NonEmptyTrimmed(splitCommands[..i])
      invariant |runs| == |ran|
      invariant forall k :: 0 <= k < |runs| ==> runs[k] == RunCommand(ran[k], exec)
    {
      assert splitCommands[..i + 1][..i] == splitCommands[..i];
      var trimmedCmd := TrimSpace(splitCommands[i]);
      if trimmedCmd != "" {
        var run := RunCommand(trimmedCmd, exec);
        runs := runs + [run];
        ran := ran + [trimmedCmd];
      }
    }
    assert splitCommands[..|splitCommands|] == splitCommands;
  }

  /** What NonEmptyTrimmed keeps: non-empty, trimmed, and one of the pieces trimmed. */
  lemma {:induction false} NonEmptyTrimmedShape(pieces: seq<string>, sep: char)
    requires forall i :: 0 <= i < |pieces| ==> sep !in pieces[i]
    ensures forall i :: 0 <= i < |NonEmptyTrimmed(pieces)| ==>
      var c := NonEmptyTrimmed(pieces)[i];
      c != "" && TrimSpace(c) == c && sep !in c && exists j :: 0 <= j < |pieces| && c == TrimSpace(pieces[j])
  {
    if pieces != [] {
      var init := pieces[..|pieces| - 1];
      NonEmptyTrimmedShape(init, sep);
      var last := pieces[|pieces| - 1];
      TrimSpaceIdempotent(last);
      TrimSpaceShape(last);
      forall i | 0 <= i < |NonEmptyTrimmed(init)|
        ensures exists j :: 0 <= j < |pieces| && NonEmptyTrimmed(init)[i] == TrimSpace(pieces[j])
      {
        var j :| 0 <= j < |init| && NonEmptyTrimmed(init)[i] == TrimSpace(init[j]);
        assert init[j] == pieces[j];
      }
      assert TrimSpace(last) == TrimSpace(pieces[|pieces| - 1]);
    }
  }

  /**
   * Every command RunCommandArray runs is non-empty, trimmed, free of ';', and reaches the
   * executor: RunCommand never rejects it as empty.
   */
  lemma ArrayCommandsAreRunnable(commands: string)
    ensures forall i :: 0 <= i < |ArrayCommands(commands)| ==>
      var c := ArrayCommands(commands)[i];
      c != "" && TrimSpace(c) == c && ';' !in c && CommandArgv(c).Ok?
  {
    if commands != "" {
      NonEmptyTrimmedShape(SplitOn(commands, ';'), ';');
      forall i | 0 <= i < |ArrayCommands(commands)|
        ensures CommandArgv(ArrayCommands(commands)[i]).Ok?
      {
        var c := ArrayCommands(commands)[i];
        TrimSpaceEmpty(c);
      }
    }
  }

  lemma {:induction false} NonEmptyTrimmedKeeps(cs: seq<string>)
    requires forall i :: 0 <= i < |cs| ==> cs[i] != "" && TrimSpace(cs[i]) == cs[i]
    ensures NonEmptyTrimmed(cs) == cs
  {
    if cs != [] {
      NonEmptyTrimmedKeeps(cs[..|cs| - 1]);
      assert cs[..|cs| - 1] + [cs[|cs| - 1]] == cs;
    }
  }

  /** A list of trimmed, non-empty, ';'-free commands joined with ';' is run back exactly, in order. */
  lemma ArrayCommandsOfJoin(cs: seq<string>)
    requires cs != []
    requires forall i :: 0 <= i < |cs| ==> cs[i] != "" && TrimSpace(cs[i]) == cs[i] && ';' !in cs[i]
    ensures ArrayCommands(Join(cs, ";")) == cs
  {
    SplitJoin(cs, ';');
    NonEmptyTrimmedKeeps(cs);
  }
}
