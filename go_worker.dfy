/**
 * worker.go: one worker per record. It selects the registrar, builds its updater and then, on
 * every tick, resolves the address, calls Update and perhaps runs the on-update command, gated
 * by the process-global `updatedIPs` map. The ticker is the sequence of ticks given; what the
 * command and the registrar's API answer at each tick is part of that tick.
 */
module GoWorker {
  import opened Wrappers
  import opened Strings
  import opened Net
  import opened GoConfig
  import opened GoExecutor
  import CF = GoCloudflare
  import AL = GoAliyun

  datatype Registrar = Aliyun | Cloudflare

  /** The `switch strings.ToLower(recordCfg.DomainRegistrar)` of worker.go:37-45; None means the worker returns. */
  function SelectRegistrar(name: string): (r: Option<Registrar>)
    ensures r == Some(Aliyun) <==> ToLower(name) == "aliyun"
    ensures r == Some(Cloudflare) <==> ToLower(name) == "cloudflare"
    ensures r == None <==> ToLower(name) != "aliyun" && ToLower(name) != "cloudflare"
  {
    var lower := ToLower(name);
    if lower == "aliyun" then Some(Aliyun)
    else if lower == "cloudflare" then Some(Cloudflare)
    else None
  }

  /** Registrar selection does not depend on the ASCII case of the name ("Cloudflare", "ALIYUN"). */
  lemma SelectRegistrarIgnoresAsciiCase(name: string)
    ensures SelectRegistrar(AsciiUpper(name)) == SelectRegistrar(name)
  {
    LowerForgetsAsciiCase(name);
  }

  // -----------------------------------------------------------------------------------------
  // The updater behind the DNSRecordUpdater interface

  /** The state of either updater: its settings and the cache its Update keeps. */
  datatype UpdaterState =
    | CloudflareState(cfSettings: CF.Settings, cache: CF.Cache)
    | AliyunState(alSettings: AL.Settings, currentIP: string)

  /** What either registrar's API answers during one Update call. */
  datatype Replies = Replies(
    refetch: CF.ListOutcome,
    cfWrite: CF.WriteOutcome,
    info: AL.InfoOutcome,
    alWrite: AL.AliWriteOutcome)

  /** One `updater.Update(ip)`: its `(bool, error)` result, reduced to whether the error was nil, and the new state. */
  datatype UpdateCall = UpdateCall(updated: bool, failed: bool, state: UpdaterState)

  function UpdateOnce(st: UpdaterState, ip: IpAddress, replies: Replies): (call: UpdateCall)
    ensures call.state.CloudflareState? == st.CloudflareState?
    ensures call.updated ==> !call.failed
    ensures st.CloudflareState? ==>
      var r := CF.UpdateStep(st.cfSettings, st.cache, ip, replies.refetch, replies.cfWrite);
      call == UpdateCall(r.updated, r.err.Some?, CloudflareState(st.cfSettings, r.cache))
    ensures st.AliyunState? ==>
      var r := AL.UpdateStep(st.alSettings, st.currentIP, ip, replies.info, replies.alWrite);
      call == UpdateCall(r.updated, r.err.Some?, AliyunState(st.alSettings, r.currentIP))
  {
    match st
    case CloudflareState(s, c) =>
      var r := CF.UpdateStep(s, c, ip, replies.refetch, replies.cfWrite);
      CF.UpdatedMeansNoError(s, c, ip, replies.refetch, replies.cfWrite);
      UpdateCall(r.updated, r.err.Some?, CloudflareState(s, r.cache))
    case AliyunState(s, current) =>
      var r := AL.UpdateStep(s, current, ip, replies.info, replies.alWrite);
      UpdateCall(r.updated, r.err.Some?, AliyunState(s, r.currentIP))
  }

  /**
   * The updater ProcessRecord builds before its first tick (worker.go:37-50), or None when the
   * registrar is unsupported or the constructor fails. `initial` is the list reply of the
   * Cloudflare constructor's own fetch; `clientCreated` says whether the Aliyun SDK client is created.
   */
  function InitialState(rec: RecordConfig, parseInt: IntParser, parseBool: BoolParser,
                        initial: CF.ListOutcome, clientCreated: bool): (r: Option<UpdaterState>)
    ensures SelectRegistrar(rec.domainRegistrar).None? ==> r.None?
    ensures SelectRegistrar(rec.domainRegistrar) == Some(Aliyun) ==>
      (r.Some? <==> AL.NewSettings(rec.apiParams, parseInt, clientCreated).Ok?)
    ensures SelectRegistrar(rec.domainRegistrar) == Some(Cloudflare) ==>
      (r.Some? <==> CF.NewSettings(rec.apiParams, parseInt, parseBool).Ok?)
    ensures r.Some? && r.value.AliyunState? ==> r.value.currentIP == ""
    ensures SelectRegistrar(rec.domainRegistrar) == Some(Aliyun) && r.Some? ==>
      r.value == AliyunState(AL.NewSettings(rec.apiParams, parseInt, clientCreated).value, "")
    ensures SelectRegistrar(rec.domainRegistrar) == Some(Cloudflare) && r.Some? ==>
      r.value == CloudflareState(CF.NewSettings(rec.apiParams, parseInt, parseBool).value, CF.FetchStep(CF.Cache("", ""), initial).cache)
  {
    match SelectRegistrar(rec.domainRegistrar)
    case None => None
    case Some(Aliyun) =>
      (match AL.NewSettings(rec.apiParams, parseInt, clientCreated)
       case Err(_) => None
       case Ok(s) => Some(AliyunState(s, "")))
    case Some(Cloudflare) =>
      (match CF.NewSettings(rec.apiParams, parseInt, parseBool)
       case Err(_) => None
       case Ok(s) => Some(CloudflareState(s, CF.FetchStep(CF.Cache("", ""), initial).cache)))
  }

  // -----------------------------------------------------------------------------------------
  // One tick

  /** What happened at one tick. */
  datatype TickOutcome =
    | CommandFailed                        // RunCommand returned an error
    | EmptyAddress                         // the trimmed output is ""
    | BadAddress(text: string)             // net.ParseIP returned nil
    | UpdateFailed                         // Update returned an error
    | UpToDate                             // Update returned (false, nil)
    | UpdatedNoHook                        // updated, no on_update_cmd configured
    | HookSkipped(ip: string)              // updated, on_update_cmd already run for this IP
    | HookRan(ip: string, command: string) // updated, on_update_cmd run with the IP substituted

  /** The address read at a tick: the trimmed output and what it parses to. */
  datatype Resolved = Resolved(text: string, ip: IpAddress)

  /**
   * The resolve/trim/parse guards of worker.go:59-74: a tick goes on to Update exactly when the
   * command succeeds with non-empty output that parses. The second TrimSpace finds the output
   * already trimmed, so the address text is exactly RunCommand's output.
   */
  function ResolveAddress(cmd: string, exec: Executor, parseIP: IpParser): (r: Result<Resolved, TickOutcome>)
    ensures RunCommand(cmd, exec).err.Some? ==> r == Err(CommandFailed)
    ensures RunCommand(cmd, exec).err.None? && RunCommand(cmd, exec).output == "" ==> r == Err(EmptyAddress)
    ensures r.Ok? <==>
      RunCommand(cmd, exec).err.None? && RunCommand(cmd, exec).output != "" && parseIP(RunCommand(cmd, exec).output).Some?
    ensures r.Ok? ==> r.value.text == RunCommand(cmd, exec).output && Some(r.value.ip) == parseIP(r.value.text)
  {
    var run := RunCommand(cmd, exec);
    RunCommandOutputTrimmed(cmd, exec);
    if run.err.Some? then Err(CommandFailed)
    else
      var ipStr := TrimSpace(run.output);
      if ipStr == "" then Err(EmptyAddress)
      else match parseIP(ipStr)
        case None => Err(BadAddress(ipStr))
        case Some(ip) => Ok(Resolved(ipStr, ip))
  }

  const IpPlaceholder := "${IP_ADDRESS}"

  /** `updatedIPs[ip]`: a missing key reads as false. */
  predicate Processed(processed: map<string, bool>, ip: string)
  {
    ip in processed && processed[ip]
  }

  datatype TickResult = TickResult(outcome: TickOutcome, state: UpdaterState, processed: map<string, bool>)

  /** One tick of worker.go:57-113, on the updater's state and the global `updatedIPs` map. */
  function TickStep(rec: RecordConfig, st: UpdaterState, processed: map<string, bool>, t: TickInput, parseIP: IpParser): (r: TickResult)
  {
    match ResolveAddress(rec.ipAddressFromCmd, t.exec, parseIP)
    case Err(skip) => TickResult(skip, st, processed)
    case Ok(res) =>
      var call := UpdateOnce(st, res.ip, t.replies);
      if call.failed then TickResult(UpdateFailed, call.state, processed)
      else if !call.updated then TickResult(UpToDate, call.state, processed)
      else if rec.ipAddressOnUpdateCmd == "" then TickResult(UpdatedNoHook, call.state, processed)
      else if Processed(processed, res.text) then TickResult(HookSkipped(res.text), call.state, processed)
      else
        TickResult(HookRan(res.text, ReplaceAll(rec.ipAddressOnUpdateCmd, IpPlaceholder, res.text)),
                   call.state, processed[res.text := true])
  }

  /** What the outside world answers at one tick: the IP command's executor and the registrar's replies. */
  datatype TickInput = TickInput(exec: Executor, replies: Replies)

  /**
   * A tick whose address cannot be resolved calls no Update and runs no command: the updater's
   * state and the map are unchanged.
   */
  lemma ResolveFailureSkipsTick(rec: RecordConfig, st: UpdaterState, processed: map<string, bool>, t: TickInput, parseIP: IpParser)
    requires ResolveAddress(rec.ipAddressFromCmd, t.exec, parseIP).Err?
    ensures var r := TickStep(rec, st, processed, t, parseIP);
      r.state == st && r.processed == processed
      && (r.outcome.CommandFailed? || r.outcome.EmptyAddress? || r.outcome.BadAddress?)
  {
  }

  /**
   * The on-update command runs, or is skipped as already processed, only when Update returned
   * `(true, nil)` and a template is configured; a failed Update leaves the map unchanged.
   */
  lemma HookOnlyAfterUpdate(rec: RecordConfig, st: UpdaterState, processed: map<string, bool>, t: TickInput, parseIP: IpParser)
    ensures var r := TickStep(rec, st, processed, t, parseIP);
      var res := ResolveAddress(rec.ipAddressFromCmd, t.exec, parseIP);
      && ((r.outcome.HookRan? || r.outcome.HookSkipped?) <==>
            res.Ok? && UpdateOnce(st, res.value.ip, t.replies).updated && rec.ipAddressOnUpdateCmd != "")
      && (r.outcome.UpdateFailed? <==> res.Ok? && UpdateOnce(st, res.value.ip, t.replies).failed)
      && (!r.outcome.HookRan? ==> r.processed == processed)
  {
  }

  /**
   * When the command runs, its IP is the trimmed command output, never run before, and is marked;
   * the command is the template with every `${IP_ADDRESS}` replaced by that text.
   */
  lemma HookRunsOnceMarked(rec: RecordConfig, st: UpdaterState, processed: map<string, bool>, t: TickInput, parseIP: IpParser)
    ensures var r := TickStep(rec, st, processed, t, parseIP);
      r.outcome.HookRan? ==>
        var res := ResolveAddress(rec.ipAddressFromCmd, t.exec, parseIP);
        && res.Ok? && r.outcome.ip == res.value.text == RunCommand(rec.ipAddressFromCmd, t.exec).output
        && !Processed(processed, r.outcome.ip)
        && r.processed == processed[r.outcome.ip := true]
        && r.outcome.command == ReplaceAll(rec.ipAddressOnUpdateCmd, IpPlaceholder, r.outcome.ip)
  {
  }

  /**
   * For a template made of pieces without '$' joined by `${IP_ADDRESS}`, the command a tick runs
   * is those pieces joined by the IP: every placeholder is substituted and nothing else changes.
   */
  lemma HookCommandSubstitutes(rec: RecordConfig, st: UpdaterState, processed: map<string, bool>, t: TickInput,
                               parseIP: IpParser, pieces: seq<string>)
    requires rec.ipAddressOnUpdateCmd == Join(pieces, IpPlaceholder)
    requires forall i :: 0 <= i < |pieces| ==> '$' !in pieces[i]
    ensures var r := TickStep(rec, st, processed, t, parseIP);
      r.outcome.HookRan? ==> r.outcome.command == Join(pieces, r.outcome.ip)
  {
    var r := TickStep(rec, st, processed, t, parseIP);
    if r.outcome.HookRan? {
      HookRunsOnceMarked(rec, st, processed, t, parseIP);
      ReplaceAllPlaceholder(pieces, IpPlaceholder, r.outcome.ip);
    }
  }

  // -----------------------------------------------------------------------------------------
  // Many ticks, and the global dedup map

  /** The IPs whose on-update command ran, in order. */
  function Fired(outcomes: seq<TickOutcome>): (ips: seq<string>)
  {
    if outcomes == [] then []
    else
      var last := outcomes[|outcomes| - 1];
      Fired(outcomes[..|outcomes| - 1]) + (if last.HookRan? then [last.ip] else [])
  }

  /** What one tick does to the map: only a run of the command adds its IP, which was not processed before. */
  lemma TickDedup(rec: RecordConfig, st: UpdaterState, processed: map<string, bool>, t: TickInput, parseIP: IpParser)
    ensures var r := TickStep(rec, st, processed, t, parseIP);
      && (r.outcome.HookRan? ==> !Processed(processed, r.outcome.ip) && r.processed == processed[r.outcome.ip := true])
      && (!r.outcome.HookRan? ==> r.processed == processed)
  {
  }

  /** One tick of some worker: its record, its updater's state at that moment and what the world answers. */
  datatype WorkerTick = WorkerTick(rec: RecordConfig, state: UpdaterState, input: TickInput)

  datatype SharedResult = SharedResult(outcomes: seq<TickOutcome>, processed: map<string, bool>)

  /** Ticks of any workers, in the order the mutex serialises them, threading only the shared map. */
  function SharedRun(processed: map<string, bool>, ticks: seq<WorkerTick>, parseIP: IpParser): (r: SharedResult)
  {
    if ticks == [] then SharedResult([], processed)
    else
      var before := SharedRun(processed, ticks[..|ticks| - 1], parseIP);
      var w := ticks[|ticks| - 1];
      var r := TickStep(w.rec, w.state, before.processed, w.input, parseIP);
      SharedResult(before.outcomes + [r.outcome], r.processed)
  }

  /**
   * Across all workers the on-update command fires at most once per IP string: the fired IPs
   * are pairwise distinct, none was processed before, all are processed after, and no key is
   * ever cleared.
   */
  lemma {:induction false} AtMostOncePerIP(processed: map<string, bool>, ticks: seq<WorkerTick>, parseIP: IpParser)
    ensures Distinct(Fired(SharedRun(processed, ticks, parseIP).outcomes))
    ensures forall ip :: ip in Fired(SharedRun(processed, ticks, parseIP).outcomes) ==>
      !Processed(processed, ip) && Processed(SharedRun(processed, ticks, parseIP).processed, ip)
    ensures forall ip :: Processed(processed, ip) ==> Processed(SharedRun(processed, ticks, parseIP).processed, ip)
  {
    if ticks != [] {
      var init := ticks[..|ticks| - 1];
      AtMostOncePerIP(processed, init, parseIP);
      var before := SharedRun(processed, init, parseIP);
      var w := ticks[|ticks| - 1];
      var r := TickStep(w.rec, w.state, before.processed, w.input, parseIP);
      TickDedup(w.rec, w.state, before.processed, w.input, parseIP);
      var outs := before.outcomes + [r.outcome];
      assert SharedRun(processed, ticks, parseIP) == SharedResult(outs, r.processed);
      assert outs[..|outs| - 1] == before.outcomes;
      var f0 := Fired(before.outcomes);
      assert Fired(outs) == f0 + (if r.outcome.HookRan? then [r.outcome.ip] else []);
    }
  }

  /** At this worker tick the address resolves to `text`, Update returns `(true, nil)` and a template is configured. */
  predicate UpdatesTo(w: WorkerTick, parseIP: IpParser, text: string)
  {
    var res := ResolveAddress(w.rec.ipAddressFromCmd, w.input.exec, parseIP);
    && res.Ok? && res.value.text == text
    && UpdateOnce(w.state, res.value.ip, w.input.replies).updated
    && w.rec.ipAddressOnUpdateCmd != ""
  }

  /** A tick that updates to `text` runs the command unless `text` was processed, and marks it. */
  lemma UpdatesToTick(processed: map<string, bool>, ticks: seq<WorkerTick>, w: WorkerTick, parseIP: IpParser, text: string)
    requires UpdatesTo(w, parseIP, text)
    ensures var before := SharedRun(processed, ticks, parseIP);
      var after := SharedRun(processed, ticks + [w], parseIP);
      && after.outcomes == before.outcomes +
           [if Processed(before.processed, text) then HookSkipped(text)
            else HookRan(text, ReplaceAll(w.rec.ipAddressOnUpdateCmd, IpPlaceholder, text))]
      && after.processed == (if Processed(before.processed, text) then before.processed else before.processed[text := true])
  {
    assert (ticks + [w])[..|ticks|] == ticks;
  }

  /** Updates to two different addresses on a fresh map both run the command, and both are marked. */
  lemma TwoAddressesBothRun(w1: WorkerTick, w2: WorkerTick, parseIP: IpParser, a: string, b: string)
    requires a != b
    requires UpdatesTo(w1, parseIP, a) && UpdatesTo(w2, parseIP, b)
    ensures SharedRun(map[], [w1, w2], parseIP) ==
      SharedResult([HookRan(a, ReplaceAll(w1.rec.ipAddressOnUpdateCmd, IpPlaceholder, a)),
                    HookRan(b, ReplaceAll(w2.rec.ipAddressOnUpdateCmd, IpPlaceholder, b))],
                   map[a := true, b := true])
  {
    UpdatesToTick(map[], [], w1, parseIP, a);
    assert [] + [w1] == [w1];
    UpdatesToTick(map[], [w1], w2, parseIP, b);
    assert [w1] + [w2] == [w1, w2];
  }

  /**
   * The map forgets nothing: updates to A, then B, then A again (by the same record or by
   * others) run the on-update command for A and for B, but not a second time for A.
   */
  lemma ReturningAddressNotRerun(w1: WorkerTick, w2: WorkerTick, w3: WorkerTick, parseIP: IpParser, a: string, b: string)
    requires a != b
    requires UpdatesTo(w1, parseIP, a) && UpdatesTo(w2, parseIP, b) && UpdatesTo(w3, parseIP, a)
    ensures SharedRun(map[], [w1, w2, w3], parseIP).outcomes ==
      [HookRan(a, ReplaceAll(w1.rec.ipAddressOnUpdateCmd, IpPlaceholder, a)),
       HookRan(b, ReplaceAll(w2.rec.ipAddressOnUpdateCmd, IpPlaceholder, b)),
       HookSkipped(a)]
  {
    TwoAddressesBothRun(w1, w2, parseIP, a, b);
    UpdatesToTick(map[], [w1, w2], w3, parseIP, a);
    assert [w1, w2] + [w3] == [w1, w2, w3];
  }

  // -----------------------------------------------------------------------------------------
  // One worker

  /** A worker's run over a prefix of its ticker: the outcomes, the final updater state and map, and the ticks it performed. */
  datatype WorkerRun = WorkerRun(outcomes: seq<TickOutcome>, state: UpdaterState, processed: map<string, bool>,
                                 performed: seq<WorkerTick>)

  /** The ticks of one worker, each on the state the previous one left. */
  function RunTicks(rec: RecordConfig, st: UpdaterState, processed: map<string, bool>, ticks: seq<TickInput>, parseIP: IpParser): (r: WorkerRun)
  {
    if ticks == [] then WorkerRun([], st, processed, [])
    else
      var before := RunTicks(rec, st, processed, ticks[..|ticks| - 1], parseIP);
      var t := ticks[|ticks| - 1];
      var r := TickStep(rec, before.state, before.processed, t, parseIP);
      WorkerRun(before.outcomes + [r.outcome], r.state, r.processed, before.performed + [WorkerTick(rec, before.state, t)])
  }

  /** One worker's run is one ordering of ticks on the shared map: the worker's ticks, on the states it reached. */
  lemma {:induction false} RunTicksIsShared(rec: RecordConfig, st: UpdaterState, processed: map<string, bool>, ticks: seq<TickInput>, parseIP: IpParser)
    ensures var run := RunTicks(rec, st, processed, ticks, parseIP);
      SharedRun(processed, run.performed, parseIP) == SharedResult(run.outcomes, run.processed)
  {
    if ticks != [] {
      var init := ticks[..|ticks| - 1];
      RunTicksIsShared(rec, st, processed, init, parseIP);
      var before := RunTicks(rec, st, processed, init, parseIP);
      var performed := before.performed + [WorkerTick(rec, before.state, ticks[|ticks| - 1])];
      assert performed[..|performed| - 1] == before.performed;
    }
  }

  /** Within one worker, too, the on-update command never runs twice for the same IP string. */
  lemma WorkerRunsHookOncePerIP(rec: RecordConfig, st: UpdaterState, processed: map<string, bool>, ticks: seq<TickInput>, parseIP: IpParser)
    ensures Distinct(Fired(RunTicks(rec, st, processed, ticks, parseIP).outcomes))
    ensures forall ip :: ip in Fired(RunTicks(rec, st, processed, ticks, parseIP).outcomes) ==> !Processed(processed, ip)
  {
    RunTicksIsShared(rec, st, processed, ticks, parseIP);
    AtMostOncePerIP(processed, RunTicks(rec, st, processed, ticks, parseIP).performed, parseIP);
  }

  /** The global `updatedIPs` map behind its mutex. */
  class UpdatedIPs {
    var processed: map<string, bool>

    constructor ()
      ensures processed == map[]
    {
      processed := map[];
    }

    /** The locked read-modify-write of worker.go:95-100. */
    method CheckAndMark(ipStr: string) returns (alreadyProcessed: bool)
      modifies this
      ensures alreadyProcessed == Processed(old(processed), ipStr)
      ensures processed == if alreadyProcessed then old(processed) else old(processed)[ipStr := true]
    {
      alreadyProcessed := if ipStr in processed then processed[ipStr] else false;
      if !alreadyProcessed {
        processed := processed[ipStr := true];
      }
    }
  }

  /** The updater object behind the DNSRecordUpdater interface. */
  datatype Updater = CloudflareBacked(cf: CF.CloudflareUpdater) | AliyunBacked(al: AL.AliyunUpdater)
  {
    function State(): (st: UpdaterState)
      reads (if CloudflareBacked? then {cf} else {}), (if AliyunBacked? then {al} else {})
    {
      match this
      case CloudflareBacked(cf) => CloudflareState(cf.settings, cf.CacheState())
      case AliyunBacked(al) => AliyunState(al.settings, al.currentIP)
    }
  }

  /**
   * The body of the `case <-ticker.C` branch, worker.go:58-113. `hookRuns` are the runs of the
   * on-update commands: RunCommandArray of the substituted template when the hook ran, none otherwise.
   */
  method Tick(rec: RecordConfig, u: Updater, dedup: UpdatedIPs, t: TickInput, parseIP: IpParser)
    returns (outcome: TickOutcome, hookRuns: seq<CommandRun>)
    modifies (if u.CloudflareBacked? then {u.cf} else {}), (if u.AliyunBacked? then {u.al} else {}), dedup
    ensures TickResult(outcome, u.State(), dedup.processed) == TickStep(rec, old(u.State()), old(dedup.processed), t, parseIP)
    ensures !outcome.HookRan? ==> hookRuns == []
    ensures outcome.HookRan? ==>
      |hookRuns| == |ArrayCommands(outcome.command)|
      && forall i :: 0 <= i < |hookRuns| ==> hookRuns[i] == RunCommand(ArrayCommands(outcome.command)[i], t.exec)
  {
    hookRuns := [];
    var run := RunCommand(rec.ipAddressFromCmd, t.exec);
    if run.err.Some? {
      return CommandFailed, [];
    }
    var ipStr := TrimSpace(run.output);
    if ipStr == "" {
      return EmptyAddress, [];
    }
    var parsed := parseIP(ipStr);
    if parsed.None? {
      return BadAddress(ipStr), [];
    }
    var currentIP := parsed.value;
    var updated: bool, err: bool;
    match u {
      case CloudflareBacked(cf) =>
        var upd, e, sent, query := cf.Update(currentIP, t.replies.refetch, t.replies.cfWrite);
        updated, err := upd, e.Some?;
      case AliyunBacked(al) =>
        var upd, e, sent := al.Update(currentIP, t.replies.info, t.replies.alWrite);
        updated, err := upd, e.Some?;
    }
    if err {
      return UpdateFailed, [];
    }
    if !updated {
      return UpToDate, [];
    }
    if rec.ipAddressOnUpdateCmd == "" {
      return UpdatedNoHook, [];
    }
    var alreadyProcessed := dedup.CheckAndMark(ipStr);
    if alreadyProcessed {
      return HookSkipped(ipStr), [];
    }
    var cmdToRun := ReplaceAll(rec.ipAddressOnUpdateCmd, IpPlaceholder, ipStr);
    hookRuns := RunCommandArray(cmdToRun, t.exec);
    return HookRan(ipStr, cmdToRun), hookRuns;
  }

  /** Registrar selection and construction, worker.go:34-50; None where the worker returns. */
  method NewUpdater(rec: RecordConfig, parseInt: IntParser, parseBool: BoolParser, initial: CF.ListOutcome, clientCreated: bool)
    returns (u: Option<Updater>)
    ensures u.Some? <==> InitialState(rec, parseInt, parseBool, initial, clientCreated).Some?
    ensures u.Some? ==> u.value.State() == InitialState(rec, parseInt, parseBool, initial, clientCreated).value
    ensures u.Some? && u.value.CloudflareBacked? ==> fresh(u.value.cf)
    ensures u.Some? && u.value.AliyunBacked? ==> fresh(u.value.al)
  {
    match SelectRegistrar(rec.domainRegistrar) {
      case None =>
        return None;
      case Some(Aliyun) =>
        var r := AL.NewAliyunUpdater(rec.apiParams, parseInt, clientCreated);
        if r.Err? {
          return None;
        }
        return Some(AliyunBacked(r.value));
      case Some(Cloudflare) =>
        var r := CF.NewCloudflareUpdater(rec.apiParams, parseInt, parseBool, initial);
        if r.Err? {
          return None;
        }
        return Some(CloudflareBacked(r.value));
    }
  }

  /**
   * ProcessRecord (worker.go:29-120) over the first |ticks| ticks of its ticker. It starts polling
   * exactly when the registrar is supported and its updater is built; then every tick is TickStep
   * on the state the previous one left.
   */
  method ProcessRecord(rec: RecordConfig, parseInt: IntParser, parseBool: BoolParser, initial: CF.ListOutcome,
                       clientCreated: bool, parseIP: IpParser, dedup: UpdatedIPs, ticks: seq<TickInput>)
    returns (started: bool, outcomes: seq<TickOutcome>)
    modifies dedup
    ensures started <==> InitialState(rec, parseInt, parseBool, initial, clientCreated).Some?
    ensures !started ==> outcomes == [] && dedup.processed == old(dedup.processed)
    ensures started ==>
      var run := RunTicks(rec, InitialState(rec, parseInt, parseBool, initial, clientCreated).value,
                          old(dedup.processed), ticks, parseIP);
      outcomes == run.outcomes && dedup.processed == run.processed
  {
    var made := NewUpdater(rec, parseInt, parseBool, initial, clientCreated);
    if made.None? {
      return false, [];
    }
    var updater := made.value;
    ghost var st := updater.State();
    ghost var performed: seq<WorkerTick> := [];
    started, outcomes := true, [];
    for i := 0 to |ticks|
      invariant updater.CloudflareBacked? ==> fresh(updater.cf)
      invariant updater.AliyunBacked? ==> fresh(updater.al)
      invariant RunTicks(rec, st, old(dedup.processed), ticks[..i], parseIP) ==
        WorkerRun(outcomes, updater.State(), dedup.processed, performed)
    {
      assert ticks[..i + 1][..i] == ticks[..i];
      performed := performed + [WorkerTick(rec, updater.State(), ticks[i])];
      var outcome, _ := Tick(rec, updater, dedup, ticks[i], parseIP);
      outcomes := outcomes + [outcome];
    }
    assert ticks[..|ticks|] == ticks;
  }
}
