/**
 * src/worker.rs: the body of the loop each record's thread runs. A cycle runs the record's
 * address command, parses its raw output, calls the updater and then, the first time the
 * address is seen, runs the on-update command and records the address in the process
 * environment variable `ddk_update_ip_list`, a ';'-joined string that every thread shares.
 *
 * "Seen" is tested as written, by substring containment, or as evidently intended, by
 * membership among the ';'-separated entries; `DedupTest` selects which.
 */
module RustWorker {
  import opened Wrappers
  import opened Strings
  import opened Net
  import opened Process
  import opened RustCmd
  import RC = RustCloudflare

  const ListVar := "ddk_update_ip_list"
  const IpPlaceholder := "${IP_ADDRESS}"

  /** A key of the record's TOML table as `get(key)` and then `as_str()` see it. */
  datatype TomlString = Absent | NotAString | Str(value: string)

  /** The two record keys the loop reads itself; the updater is built from the others. */
  datatype RecordKeys = RecordKeys(ipAddressFromCmd: TomlString, ipAddressOnUpdateCmd: TomlString)

  /**
   * One cycle of one record's thread: its keys, the updater `function::create` built for this
   * cycle, and what the world answers (one spawner for every process the cycle launches).
   */
  datatype Turn = Turn(keys: RecordKeys, updater: RC.Config, spawn: Spawner, get: RC.GetOutcome, put: RC.PutOutcome)

  /** `IpAddr::from_str`, `str::parse::<u32>` and `str::parse::<bool>`. */
  datatype Parsers = Parsers(parseIP: IpParser, parseU32: RC.U32Parser, parseBool: RC.BoolParser)

  /** The substring test of src/worker.rs:32, or membership among the recorded entries. */
  datatype DedupTest = Substring | Entry

  /** `env::var("ddk_update_ip_list").unwrap_or("")`. */
  function ListOf(vars: map<string, string>): (list: string)
  {
    if ListVar in vars then vars[ListVar] else ""
  }

  /** Whether the list already holds the address, by the chosen test. */
  predicate Seen(test: DedupTest, list: string, ip: string)
  {
    match test
    case Substring => Contains(list, ip)
    case Entry => ip in SplitOn(list, ';')
  }

  /** How a cycle ends: a panic kills the thread; every other outcome is followed by the sleep. */
  datatype CycleOutcome =
    | Panic
    | ResolveFailed(output: string)
    | Unparsable(output: string)
    | AlreadyListed(updated: bool, ip: string)
    | Listed(updated: bool, ip: string, hook: Option<string>)

  /** The outcome, the updater call if one was made, and the environment afterwards. */
  datatype CycleResult = CycleResult(outcome: CycleOutcome, update: Option<RC.UpdateRun>, vars: map<string, string>)

  /** The list after recording `ip` (src/worker.rs:40). */
  function Recorded(list: string, ip: string): (updated: string)
  {
    list + ";" + ip
  }

  /** src/worker.rs:31-41 for a raw output `ipAddr` whose update returned `updated`. */
  function Dedup(test: DedupTest, keys: RecordKeys, updated: bool, ipAddr: string,
                 vars: map<string, string>, spawn: Spawner): (r: (CycleOutcome, map<string, string>))
  {
    var list := ListOf(vars);
    if Seen(test, list, ipAddr) then (AlreadyListed(updated, ipAddr), vars)
    else
      match keys.ipAddressOnUpdateCmd
      case NotAString => (Panic, vars)
      case Absent => (Listed(updated, ipAddr, None), vars[ListVar := Recorded(list, ipAddr)])
      case Str(template) =>
        var cmdStr := ReplaceAll(template, IpPlaceholder, ipAddr);
        if PanicsOn(SplitOn(cmdStr, ';'), spawn) then (Panic, vars)
        else (Listed(updated, ipAddr, Some(cmdStr)), vars[ListVar := Recorded(list, ipAddr)])
  }

  /** One pass of the loop body (src/worker.rs:19-43), the sleep left out. */
  function CycleStep(test: DedupTest, t: Turn, vars: map<string, string>, p: Parsers): (r: CycleResult)
  {
    match t.keys.ipAddressFromCmd
    case Absent => CycleResult(Panic, None, vars)
    case NotAString => CycleResult(Panic, None, vars)
    case Str(cmd) =>
      match RunOutcomeOf(t.spawn(CommandOf(cmd)))
      case Panicked => CycleResult(Panic, None, vars)
      case RanErr(output) => CycleResult(ResolveFailed(output), None, vars)
      case RanOk(ipAddr) =>
        match p.parseIP(ipAddr)
        case None => CycleResult(Unparsable(ipAddr), None, vars)
        case Some(ip) =>
          var run := RC.Update(t.updater, ip, t.get, t.put, p.parseU32, p.parseBool);
          if run.outcome.Panic? then CycleResult(Panic, Some(run), vars)
          else
            var (outcome, vars') := Dedup(test, t.keys, run.outcome.value, ipAddr, vars, t.spawn);
            CycleResult(outcome, Some(run), vars')
  }

  /** The address command's raw output, when it runs and succeeds. */
  function RawOutput(t: Turn): (output: Option<string>)
  {
    if t.keys.ipAddressFromCmd.Str? && RunOutcomeOf(t.spawn(CommandOf(t.keys.ipAddressFromCmd.value))).RanOk?
    then Some(RunOutcomeOf(t.spawn(CommandOf(t.keys.ipAddressFromCmd.value))).output)
    else None
  }

  /**
   * The guard of src/worker.rs:20-25: the updater is called exactly when the command runs,
   * succeeds and its raw, untrimmed output parses, and then with that address; a missing or
   * non-string command key panics; without an updater call the environment is untouched.
   */
  lemma UpdateOnlyAfterParse(test: DedupTest, t: Turn, vars: map<string, string>, p: Parsers)
    ensures var r := CycleStep(test, t, vars, p);
      && (r.update.Some? <==> RawOutput(t).Some? && p.parseIP(RawOutput(t).value).Some?)
      && (r.update.Some? ==>
            r.update.value == RC.Update(t.updater, p.parseIP(RawOutput(t).value).value, t.get, t.put, p.parseU32, p.parseBool))
      && (!t.keys.ipAddressFromCmd.Str? ==> r.outcome == Panic)
      && (RawOutput(t).Some? && p.parseIP(RawOutput(t).value).None? ==> r.outcome == Unparsable(RawOutput(t).value))
      && (r.update.None? ==> r.vars == vars)
  {
  }

  /**
   * After any parsed address whose update returns, the dedup block runs whatever the update
   * returned: the address counts as already listed exactly when the test finds it in the list,
   * and otherwise it is recorded unless the on-update key is not a string or a hook piece
   * cannot be spawned.
   */
  lemma DedupIgnoresUpdated(test: DedupTest, t: Turn, vars: map<string, string>, p: Parsers)
    requires RawOutput(t).Some? && p.parseIP(RawOutput(t).value).Some?
    ensures var r := CycleStep(test, t, vars, p);
      var ipAddr := RawOutput(t).value;
      r.update.Some? && (r.update.value.outcome.Returned? ==>
        var updated := r.update.value.outcome.value;
        && (Seen(test, ListOf(vars), ipAddr) ==> r.outcome == AlreadyListed(updated, ipAddr))
        && (!Seen(test, ListOf(vars), ipAddr) && t.keys.ipAddressOnUpdateCmd.Absent? ==>
              r.outcome == Listed(updated, ipAddr, None))
        && (!Seen(test, ListOf(vars), ipAddr) && t.keys.ipAddressOnUpdateCmd.Str? ==>
              var cmdStr := ReplaceAll(t.keys.ipAddressOnUpdateCmd.value, IpPlaceholder, ipAddr);
              r.outcome == if PanicsOn(SplitOn(cmdStr, ';'), t.spawn) then Panic else Listed(updated, ipAddr, Some(cmdStr))))
  {
  }

  /**
   * Only a recorded address changes the environment, by appending ";" and the raw output to the
   * list, with or without an on-update command; the hook is the template with every
   * `${IP_ADDRESS}` replaced by that output.
   */
  lemma ListedAppends(test: DedupTest, t: Turn, vars: map<string, string>, p: Parsers)
    ensures var r := CycleStep(test, t, vars, p);
      && (r.outcome.Listed? ==>
            && RawOutput(t) == Some(r.outcome.ip)
            && !Seen(test, ListOf(vars), r.outcome.ip)
            && r.vars == vars[ListVar := Recorded(ListOf(vars), r.outcome.ip)]
            && r.outcome.hook == (if t.keys.ipAddressOnUpdateCmd.Str?
                                  then Some(ReplaceAll(t.keys.ipAddressOnUpdateCmd.value, IpPlaceholder, r.outcome.ip))
                                  else None))
      && (!r.outcome.Listed? ==> r.vars == vars)
  {
  }

  /**
   * For a template made of `$`-free pieces joined by `${IP_ADDRESS}`, the hook of a recorded
   * address is those pieces joined by the raw output: it stands exactly where each placeholder stood.
   */
  lemma HookSubstitutes(test: DedupTest, t: Turn, vars: map<string, string>, p: Parsers, pieces: seq<string>)
    requires t.keys.ipAddressOnUpdateCmd == Str(Join(pieces, IpPlaceholder))
    requires forall i :: 0 <= i < |pieces| ==> '$' !in pieces[i]
    ensures var r := CycleStep(test, t, vars, p);
      r.outcome.Listed? ==> r.outcome.hook == Some(Join(pieces, r.outcome.ip))
  {
    var r := CycleStep(test, t, vars, p);
    if r.outcome.Listed? {
      ListedAppends(test, t, vars, p);
      ReplaceAllPlaceholder(pieces, IpPlaceholder, r.outcome.ip);
    }
  }

  // -----------------------------------------------------------------------------------------
  // Many cycles and the shared environment

  /** The addresses recorded, in order. */
  function ListedIPs(outcomes: seq<CycleOutcome>): (ips: seq<string>)
  {
    if outcomes == [] then []
    else
      var last := outcomes[|outcomes| - 1];
      ListedIPs(outcomes[..|outcomes| - 1]) + (if last.Listed? then [last.ip] else [])
  }

  datatype CyclesResult = CyclesResult(outcomes: seq<CycleOutcome>, vars: map<string, string>)

  /**
   * Cycles of any threads, one after another, threading only the environment. A thread that
   * panicked has no further turns; the caller's sequence of turns already says which cycles happen.
   */
  function Cycles(test: DedupTest, vars: map<string, string>, turns: seq<Turn>, p: Parsers): (r: CyclesResult)
  {
    if turns == [] then CyclesResult([], vars)
    else
      var before := Cycles(test, vars, turns[..|turns| - 1], p);
      var r := CycleStep(test, turns[|turns| - 1], before.vars, p);
      CyclesResult(before.outcomes + [r.outcome], r.vars)
  }

  /** A parser that accepts no string holding ';', as no IP literal does. */
  ghost predicate NoSemicolons(parseIP: IpParser)
  {
    forall s :: parseIP(s).Some? ==> ';' !in s
  }

  /** Recording an address keeps every address the list was seen to hold. */
  lemma SeenKept(test: DedupTest, list: string, x: string, ip: string)
    requires Seen(test, list, ip)
    requires ';' !in x
    ensures Seen(test, Recorded(list, x), ip)
  {
    match test {
      case Substring =>
        assert Recorded(list, x) == list + (";" + x);
        ContainsExtend(list, ip, ";" + x);
      case Entry =>
        assert Recorded(list, x) == list + [';'] + x;
        SplitAppend(list, x, ';');
    }
  }

  /** Recording an address free of ';' adds exactly one entry, that address. */
  lemma RecordedEntries(list: string, x: string)
    requires ';' !in x
    ensures SplitOn(Recorded(list, x), ';') == SplitOn(list, ';') + [x]
  {
    assert Recorded(list, x) == list + [';'] + x;
    SplitAppend(list, x, ';');
    SplitNoSep(x, ';');
  }

  /** A recorded address is seen afterwards. */
  lemma SeenAfterRecording(test: DedupTest, list: string, ip: string)
    requires ';' !in ip
    ensures Seen(test, Recorded(list, ip), ip)
  {
    match test {
      case Substring =>
        ContainsSuffix(list + ";", ip);
        assert list + ";" + ip == Recorded(list, ip);
      case Entry =>
        RecordedEntries(list, ip);
    }
  }

  /** What one cycle does to the list: a recorded address is appended, nothing else changes it. */
  lemma CycleList(test: DedupTest, t: Turn, vars: map<string, string>, p: Parsers)
    ensures var r := CycleStep(test, t, vars, p);
      && (r.outcome.Listed? ==> ListOf(r.vars) == Recorded(ListOf(vars), r.outcome.ip))
      && (!r.outcome.Listed? ==> ListOf(r.vars) == ListOf(vars))
  {
  }

  /** What one cycle does to the list: a recorded address was not seen and is appended. */
  lemma CycleRecords(test: DedupTest, t: Turn, vars: map<string, string>, p: Parsers)
    requires NoSemicolons(p.parseIP)
    ensures var r := CycleStep(test, t, vars, p);
      && (r.outcome.Listed? ==> !Seen(test, ListOf(vars), r.outcome.ip) && ';' !in r.outcome.ip
                                && ListOf(r.vars) == Recorded(ListOf(vars), r.outcome.ip))
      && (!r.outcome.Listed? ==> ListOf(r.vars) == ListOf(vars))
  {
    ListedAppends(test, t, vars, p);
  }

  /**
   * For either test, over cycles taken one after another, the on-update block runs at most once
   * per address: the recorded addresses are pairwise distinct, free of ';', none was seen in the
   * list at the start, all are seen at the end, and no address the list held is ever lost.
   */
  lemma {:induction false} HookOncePerIP(test: DedupTest, vars: map<string, string>, turns: seq<Turn>, p: Parsers)
    requires NoSemicolons(p.parseIP)
    ensures Distinct(ListedIPs(Cycles(test, vars, turns, p).outcomes))
    ensures forall ip :: ip in ListedIPs(Cycles(test, vars, turns, p).outcomes) ==>
      ';' !in ip && !Seen(test, ListOf(vars), ip) && Seen(test, ListOf(Cycles(test, vars, turns, p).vars), ip)
    ensures forall ip :: Seen(test, ListOf(vars), ip) ==> Seen(test, ListOf(Cycles(test, vars, turns, p).vars), ip)
  {
    if turns != [] {
      var init := turns[..|turns| - 1];
      HookOncePerIP(test, vars, init, p);
      var before := Cycles(test, vars, init, p);
      var t := turns[|turns| - 1];
      var r := CycleStep(test, t, before.vars, p);
      CycleRecords(test, t, before.vars, p);
      var outs := before.outcomes + [r.outcome];
      assert Cycles(test, vars, turns, p) == CyclesResult(outs, r.vars);
      assert outs[..|outs| - 1] == before.outcomes;
      var l0 := ListedIPs(before.outcomes);
      assert ListedIPs(outs) == l0 + (if r.outcome.Listed? then [r.outcome.ip] else []);
      if r.outcome.Listed? {
        var x := r.outcome.ip;
        forall ip | Seen(test, ListOf(before.vars), ip)
          ensures Seen(test, ListOf(r.vars), ip)
        {
          SeenKept(test, ListOf(before.vars), x, ip);
        }
        SeenAfterRecording(test, ListOf(before.vars), x);
      }
    }
  }

  /** The list after recording each of `ips` in turn. */
  function RecordAll(list: string, ips: seq<string>): (updated: string)
  {
    if ips == [] then list else Recorded(RecordAll(list, ips[..|ips| - 1]), ips[|ips| - 1])
  }

  lemma RecordAllSnoc(list: string, ips: seq<string>, x: string)
    ensures RecordAll(list, ips + [x]) == Recorded(RecordAll(list, ips), x)
  {
    assert (ips + [x])[..|ips|] == ips;
  }

  /**
   * The list only grows, and only by the recorded addresses: after any cycles it is the list
   * at the start with ";" and each recorded address appended in order, for either test.
   */
  lemma {:induction false} ListOnlyGrows(test: DedupTest, vars: map<string, string>, turns: seq<Turn>, p: Parsers)
    ensures ListOf(Cycles(test, vars, turns, p).vars) == RecordAll(ListOf(vars), ListedIPs(Cycles(test, vars, turns, p).outcomes))
  {
    if turns != [] {
      var init := turns[..|turns| - 1];
      ListOnlyGrows(test, vars, init, p);
      var before := Cycles(test, vars, init, p);
      var t := turns[|turns| - 1];
      var r := CycleStep(test, t, before.vars, p);
      CycleList(test, t, before.vars, p);
      var outs := before.outcomes + [r.outcome];
      assert Cycles(test, vars, turns, p) == CyclesResult(outs, r.vars);
      assert outs[..|outs| - 1] == before.outcomes;
      var prev := ListedIPs(before.outcomes);
      if r.outcome.Listed? {
        assert ListedIPs(outs) == prev + [r.outcome.ip];
        RecordAllSnoc(ListOf(vars), prev, r.outcome.ip);
      } else {
        assert ListedIPs(outs) == prev;
      }
    }
  }

  /** Recording ';'-free addresses adds exactly those entries, in order. */
  lemma {:induction false} RecordAllEntries(list: string, ips: seq<string>)
    requires forall i :: 0 <= i < |ips| ==> ';' !in ips[i]
    ensures SplitOn(RecordAll(list, ips), ';') == SplitOn(list, ';') + ips
  {
    if ips != [] {
      var init := ips[..|ips| - 1];
      RecordAllEntries(list, init);
      RecordedEntries(RecordAll(list, init), ips[|ips| - 1]);
      assert SplitOn(list, ';') + init + [ips[|ips| - 1]] == SplitOn(list, ';') + ips;
    }
  }

  /**
   * With the entry test the list records exactly what it should: its entries are the entries it
   * started with followed by every recorded address, in order.
   */
  lemma EntriesAreRecorded(vars: map<string, string>, turns: seq<Turn>, p: Parsers)
    requires NoSemicolons(p.parseIP)
    ensures SplitOn(ListOf(Cycles(Entry, vars, turns, p).vars), ';') ==
      SplitOn(ListOf(vars), ';') + ListedIPs(Cycles(Entry, vars, turns, p).outcomes)
  {
    ListOnlyGrows(Entry, vars, turns, p);
    HookOncePerIP(Entry, vars, turns, p);
    var ips := ListedIPs(Cycles(Entry, vars, turns, p).outcomes);
    assert forall i :: 0 <= i < |ips| ==> ips[i] in ips;
    RecordAllEntries(ListOf(vars), ListedIPs(Cycles(Entry, vars, turns, p).outcomes));
  }

  /**
   * The dedup test as written: an address that occurs in the list only inside a longer entry is
   * taken as already listed, so its on-update command never runs and it is never recorded; the
   * entry test records it.
   */
  lemma SubstringFalsePositive(cmd: string, ip: string, t: Turn, vars: map<string, string>, p: Parsers)
    requires t.keys == RecordKeys(Str(cmd), Absent)
    requires t.spawn(CommandOf(cmd)) == Exited(true, ip)
    requires p.parseIP(ip).Some?
    requires t.get.GetFailed?
    requires Contains(ListOf(vars), ip) && ip !in SplitOn(ListOf(vars), ';')
    ensures CycleStep(Substring, t, vars, p).outcome == AlreadyListed(false, ip)
    ensures CycleStep(Entry, t, vars, p).outcome == Listed(false, ip, None)
  {
    assert RawOutput(t) == Some(ip);
    RC.GetFailureReturnsFalse(t.updater, p.parseIP(ip).value, t.get, t.put, p.parseU32, p.parseBool);
    DedupIgnoresUpdated(Substring, t, vars, p);
    DedupIgnoresUpdated(Entry, t, vars, p);
  }

  /** Such a list: once "10.0.0.12" is recorded, "10.0.0.1" is a substring of the list but no entry of it. */
  lemma SubstringNotEntry()
    ensures Contains(";10.0.0.12", "10.0.0.1")
    ensures "10.0.0.1" !in SplitOn(";10.0.0.12", ';')
  {
    var list := ";10.0.0.12";
    assert "10.0.0.1" <= list[1..];
    SplitJoin(["", "10.0.0.12"], ';');
    JoinCons("", ["10.0.0.12"], ";");
    assert Join(["", "10.0.0.12"], ";") == list;
  }

  // -----------------------------------------------------------------------------------------
  // The imperative loop body

  /** The process environment, of which the loop reads and writes one variable. */
  class Environment {
    var vars: map<string, string>

    constructor (vars0: map<string, string>)
      ensures vars == vars0
    {
      vars := vars0;
    }
  }

  /** One pass of the loop body (src/worker.rs:19-43). */
  method Cycle(test: DedupTest, env: Environment, t: Turn, p: Parsers) returns (outcome: CycleOutcome, update: Option<RC.UpdateRun>)
    modifies env
    ensures CycleResult(outcome, update, env.vars) == CycleStep(test, t, old(env.vars), p)
  {
    update := None;
    if !t.keys.ipAddressFromCmd.Str? {
      outcome := Panic;
      return;
    }
    var argv, ipAddrResult := Run(t.keys.ipAddressFromCmd.value, t.spawn);
    if ipAddrResult.Panicked? {
      outcome := Panic;
      return;
    }
    if ipAddrResult.RanErr? {
      outcome := ResolveFailed(ipAddrResult.output);
      return;
    }
    var ipAddr := ipAddrResult.output;
    var ip := p.parseIP(ipAddr);
    if ip.None? {
      outcome := Unparsable(ipAddr);
      return;
    }
    var run := RC.Update(t.updater, ip.value, t.get, t.put, p.parseU32, p.parseBool);
    update := Some(run);
    if run.outcome.Panic? {
      outcome := Panic;
      return;
    }
    var updated := run.outcome.value;
    var updatedIpList := ListOf(env.vars);
    if Seen(test, updatedIpList, ipAddr) {
      outcome := AlreadyListed(updated, ipAddr);
      return;
    }
    var hook: Option<string> := None;
    if !t.keys.ipAddressOnUpdateCmd.Absent? {
      if t.keys.ipAddressOnUpdateCmd.NotAString? {
        outcome := Panic;
        return;
      }
      var cmdStr := ReplaceAll(t.keys.ipAddressOnUpdateCmd.value, IpPlaceholder, ipAddr);
      var launched, panicked := RunArray(cmdStr, t.spawn);
      if panicked {
        outcome := Panic;
        return;
      }
      hook := Some(cmdStr);
    }
    env.vars := env.vars[ListVar := Recorded(updatedIpList, ipAddr)];
    outcome := Listed(updated, ipAddr, hook);
  }

  /** The given cycles, one after another, against one environment. */
  method RunCycles(test: DedupTest, env: Environment, turns: seq<Turn>, p: Parsers) returns (outcomes: seq<CycleOutcome>)
    modifies env
    ensures CyclesResult(outcomes, env.vars) == Cycles(test, old(env.vars), turns, p)
  {
    outcomes := [];
    for i := 0 to |turns|
      invariant Cycles(test, old(env.vars), turns[..i], p) == CyclesResult(outcomes, env.vars)
    {
      assert turns[..i + 1][..i] == turns[..i];
      var outcome, update := Cycle(test, env, turns[i], p);
      outcomes := outcomes + [outcome];
    }
    assert turns[..|turns|] == turns;
  }
}
