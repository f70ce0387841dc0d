/**
 * src/cmd.rs: `run` splits a command on single spaces into a program and its arguments and
 * launches it; `run_array` splits on ';' and runs every piece. Launching is an input: a
 * `Spawner` gives what `Command::output` would report.
 */
module RustCmd {
  import opened Strings
  import opened Process

  /** `cmd.output()`: a spawn error, or the exit status and stdout (already lossily decoded). */
  datatype SpawnResult = SpawnFailed | Exited(success: bool, stdout: string)

  type Spawner = Argv -> SpawnResult

  /** `run`'s result: the `expect` panic, `Ok(stdout)` or `Err(stdout)`. */
  datatype RunOutcome = Panicked | RanOk(output: string) | RanErr(output: string)

  /** The argument vector `run` builds (src/cmd.rs:7-12): every single space separates two pieces. */
  function CommandOf(command: string): (argv: Argv)
    ensures [argv.program] + argv.args == SplitOn(command, ' ')
    ensures argv.program == "" <==> command == "" || command[0] == ' '
  {
    var pieces := SplitOn(command, ' ');
    assert [pieces[0]] + pieces[1..] == pieces;
    Argv(pieces[0], pieces[1..])
  }

  /** No space is lost or added: the program and the arguments joined by single spaces are the command. */
  lemma CommandOfRoundTrip(command: string)
    ensures Join([CommandOf(command).program] + CommandOf(command).args, " ") == command
  {
    JoinSplit(command, ' ');
  }

  /** Space-free words joined by single spaces come back as program and arguments, empty words included. */
  lemma CommandOfWords(words: seq<string>)
    requires words != []
    requires forall i :: 0 <= i < |words| ==> ' ' !in words[i]
    ensures CommandOf(Join(words, " ")) == Argv(words[0], words[1..])
  {
    SplitJoin(words, ' ');
  }

  /** Two consecutive spaces give an empty argument: "echo  hi" runs `echo` with arguments "" and "hi". */
  lemma DoubleSpaceGivesEmptyArgument(program: string, arg: string)
    requires ' ' !in program && ' ' !in arg
    ensures CommandOf(program + "  " + arg) == Argv(program, ["", arg])
  {
    CommandOfWords([program, "", arg]);
    JoinCons(program, ["", arg], " ");
    JoinCons("", [arg], " ");
    assert Join([program, "", arg], " ") == program + "  " + arg;
  }

  /** How `run` ends for what the spawn reports: the `expect` panic, or stdout, untrimmed, as Ok or Err by exit status. */
  function RunOutcomeOf(res: SpawnResult): (r: RunOutcome)
    ensures r.Panicked? <==> res.SpawnFailed?
    ensures res.Exited? ==> r == (if res.success then RanOk(res.stdout) else RanErr(res.stdout))
  {
    match res
    case SpawnFailed => Panicked
    case Exited(success, stdout) => if success then RanOk(stdout) else RanErr(stdout)
  }

  /** `run` (src/cmd.rs:4-23). */
  method Run(command: string, spawn: Spawner) returns (argv: Argv, r: RunOutcome)
    ensures [argv.program] + argv.args == SplitOn(command, ' ')
    ensures argv == CommandOf(command)
    ensures spawn(argv).SpawnFailed? <==> r.Panicked?
    ensures spawn(argv).Exited? && spawn(argv).success ==> r == RanOk(spawn(argv).stdout)
    ensures spawn(argv).Exited? && !spawn(argv).success ==> r == RanErr(spawn(argv).stdout)
    ensures r == RunOutcomeOf(spawn(CommandOf(command)))
  {
    var splitCommand := SplitOn(command, ' ');
    var args: seq<string> := [];
    for i := 1 to |splitCommand|
      invariant args == splitCommand[1..i]
    {
      args := args + [splitCommand[i]];
    }
    argv := Argv(splitCommand[0], args);
    match spawn(argv) {
      case SpawnFailed =>
        r := Panicked;
      case Exited(success, stdout) =>
        r := if success then RanOk(stdout) else RanErr(stdout);
    }
  }

  /**
   * The processes `run_array` launches for the given pieces: each in turn, up to and including
   * the first one that cannot be spawned, whose panic ends the loop.
   */
  function Attempts(pieces: seq<string>, spawn: Spawner): (launched: seq<Argv>)
  {
    if pieces == [] then []
    else
      var argv := CommandOf(pieces[0]);
      if spawn(argv).SpawnFailed? then [argv] else [argv] + Attempts(pieces[1..], spawn)
  }

  /** Whether some piece cannot be spawned, so that `run_array` panics. */
  predicate PanicsOn(pieces: seq<string>, spawn: Spawner)
  {
    exists i :: 0 <= i < |pieces| && spawn(CommandOf(pieces[i])).SpawnFailed?
  }

  /** `run_array` (src/cmd.rs:25-30): every ';'-separated piece, untrimmed, empty ones included. */
  method RunArray(command: string, spawn: Spawner) returns (launched: seq<Argv>, panicked: bool)
    ensures launched == Attempts(SplitOn(command, ';'), spawn)
    ensures panicked <==> PanicsOn(SplitOn(command, ';'), spawn)
  {
    var splitCommandRow := SplitOn(command, ';');
    launched, panicked := [], false;
    var i := 0;
    while i < |splitCommandRow| && !panicked
      invariant 0 <= i <= |splitCommandRow|
      invariant !panicked ==> launched + Attempts(splitCommandRow[i..], spawn) == Attempts(splitCommandRow, spawn)
      invariant !panicked ==> forall k :: 0 <= k < i ==> !spawn(CommandOf(splitCommandRow[k])).SpawnFailed?
      invariant panicked ==> launched == Attempts(splitCommandRow, spawn) && PanicsOn(splitCommandRow, spawn)
    {
      var rest := splitCommandRow[i..];
      assert rest[0] == splitCommandRow[i] && rest[1..] == splitCommandRow[i + 1..];
      var argv, r := Run(splitCommandRow[i], spawn);
      launched := launched + [argv];
      if r.Panicked? {
        panicked := true;
      }
      i := i + 1;
    }
    if !panicked {
      assert splitCommandRow[i..] == [];
    }
  }

  /** Attempts are the pieces' argument vectors, in order, up to the first spawn failure. */
  lemma {:induction false} AttemptsArePieces(pieces: seq<string>, spawn: Spawner)
    ensures |Attempts(pieces, spawn)| <= |pieces|
    ensures forall i :: 0 <= i < |Attempts(pieces, spawn)| ==> Attempts(pieces, spawn)[i] == CommandOf(pieces[i])
    ensures !PanicsOn(pieces, spawn) ==> |Attempts(pieces, spawn)| == |pieces|
  {
    if pieces != [] {
      AttemptsArePieces(pieces[1..], spawn);
      if !PanicsOn(pieces, spawn) {
        assert !PanicsOn(pieces[1..], spawn) by {
          forall i | 0 <= i < |pieces[1..]|
            ensures !spawn(CommandOf(pieces[1..][i])).SpawnFailed?
          {
            assert pieces[1..][i] == pieces[i + 1];
          }
        }
        assert !spawn(CommandOf(pieces[0])).SpawnFailed?;
      }
    }
  }

  /** No process can be started from an empty program name: every such spawn reports an error. */
  ghost predicate EmptyProgramFails(spawn: Spawner)
  {
    forall argv: Argv :: argv.program == "" ==> spawn(argv).SpawnFailed?
  }

  /**
   * With a spawner on which an empty program fails, `run_array` stops at the first piece that is
   * empty or starts with a space, once the pieces before it have run: it panics there, and no
   * later piece is launched.
   */
  lemma {:induction false} AttemptsStopAtEmptyProgram(pieces: seq<string>, spawn: Spawner, k: nat)
    requires EmptyProgramFails(spawn)
    requires k < |pieces| && (pieces[k] == "" || pieces[k][0] == ' ')
    requires forall j :: 0 <= j < k ==> !spawn(CommandOf(pieces[j])).SpawnFailed?
    ensures PanicsOn(pieces, spawn)
    ensures |Attempts(pieces, spawn)| == k + 1
    ensures forall i :: 0 <= i <= k ==> Attempts(pieces, spawn)[i] == CommandOf(pieces[i])
  {
    assert CommandOf(pieces[k]).program == "";
    assert spawn(CommandOf(pieces[k])).SpawnFailed?;
    if k > 0 {
      var rest := pieces[1..];
      assert rest[k - 1] == pieces[k];
      forall j | 0 <= j < k - 1
        ensures !spawn(CommandOf(rest[j])).SpawnFailed?
      {
        assert rest[j] == pieces[j + 1];
      }
      AttemptsStopAtEmptyProgram(rest, spawn, k - 1);
      assert !spawn(CommandOf(pieces[0])).SpawnFailed?;
      assert Attempts(pieces, spawn) == [CommandOf(pieces[0])] + Attempts(rest, spawn);
      forall i | 1 <= i <= k
        ensures Attempts(pieces, spawn)[i] == CommandOf(pieces[i])
      {
        assert Attempts(pieces, spawn)[i] == Attempts(rest, spawn)[i - 1];
        assert rest[i - 1] == pieces[i];
      }
    }
  }

  /**
   * The ordinary `"a; b"` runs `a`, then tries to start the program "" with the argument "b",
   * which panics: the second command never runs.
   */
  lemma SpaceAfterSemicolonPanics(spawn: Spawner)
    requires EmptyProgramFails(spawn)
    requires !spawn(Argv("a", [])).SpawnFailed?
    ensures SplitOn("a; b", ';') == ["a", " b"]
    ensures Attempts(SplitOn("a; b", ';'), spawn) == [Argv("a", []), Argv("", ["b"])]
    ensures PanicsOn(SplitOn("a; b", ';'), spawn)
  {
    assert "a; b" == "a" + [';'] + " b";
    SplitAppend("a", " b", ';');
    SplitNoSep("a", ';');
    SplitNoSep(" b", ';');
    SplitNoSep("a", ' ');
    assert " b" == "" + [' '] + "b";
    SplitAppend("", "b", ' ');
    SplitNoSep("", ' ');
    SplitNoSep("b", ' ');
    assert CommandOf("a") == Argv("a", []);
    assert CommandOf(" b") == Argv("", ["b"]);
    AttemptsStopAtEmptyProgram(["a", " b"], spawn, 1);
  }

  /**
   * When every piece can be spawned, `run_array` launches one process per ';'-separated piece,
   * in order, with neither trimming nor skipping empty pieces.
   */
  lemma RunArrayRunsEveryPiece(command: string, spawn: Spawner)
    requires !PanicsOn(SplitOn(command, ';'), spawn)
    ensures var pieces := SplitOn(command, ';');
      |Attempts(pieces, spawn)| == |pieces|
      && forall i :: 0 <= i < |pieces| ==> Attempts(pieces, spawn)[i] == CommandOf(pieces[i])
  {
    AttemptsArePieces(SplitOn(command, ';'), spawn);
  }
}
