/** The session as an object: the methods of `attini tell` / `attini approve` update the log, the pending
    set and the message list in place, and each is proved to compute its function in Tell. */
module TellSession {
  import opened Options
  import opened Transcript
  import opened TranscriptRepair
  import opened SessionLog
  import opened Compaction
  import opened Prune
  import opened Tell
  import Gate

  lemma LoadedList(log: seq<Stamped>, prefix: seq<Msg>, records: seq<TimedMsg>)
    requires prefix == Prefix(log) && records == Load(log)
    ensures prefix + Msgs(records) == InitialMessages(log)
  {
  }

  /** One more than its length for every record. */
  method SumChars(records: seq<TimedMsg>) returns (total: nat)
    ensures total == TotalChars(Msgs(records))
  {
    total := 0;
    for i := 0 to |records|
      invariant total + TotalChars(Msgs(records)[i..]) == TotalChars(Msgs(records))
    {
      assert Msgs(records)[i..][0] == records[i].msg && Msgs(records)[i..][1..] == Msgs(records)[i + 1..];
      total := total + RawLen(records[i].msg) + 1;
    }
  }

  class Session {
    const site: Site
    var log: seq<Stamped>
    var pending: Option<seq<Pending>>
    var stamps: nat
    var messages: seq<Msg>
    // what the session has done so far
    ghost var sent: seq<Sent>
    ghost var hist: seq<Event>
    ghost var called: seq<string>
    // the append handle still is the file on the path
    var attached: bool

    ghost function Value(): St
      reads this
    {
      St(log, pending, stamps, messages, sent, hist, called, attached)
    }

    constructor (site: Site)
      ensures this.site == site && Value() == EMPTY
    {
      this.site := site;
      log, pending, stamps, messages := [], None, 0, [];
      sent, hist, called := [], [], [];
      attached := false;
    }

    /** `Session::open`: the append handle is opened once for the whole invocation. */
    method OpenLog()
      modifies this
      ensures Value() == Open(old(Value()))
    {
      attached := true;
    }

    /** `Session::append`: it writes to the handle, never to the path. */
    method AppendRecord(rec: Record)
      modifies this
      ensures Value() == Append(site, old(Value()), rec)
    {
      if attached { log := log + [Stamped(site.clock(stamps), rec)]; }
      stamps := stamps + 1;
    }

    method AppendMessage(m: Msg)
      modifies this
      ensures Value() == AppendMsg(site, old(Value()), m)
    {
      AppendRecord(Message(m));
      messages := messages + [m];
    }

    /** `append_tool`. */
    method AppendToolResult(id: string, content: string)
      modifies this
      ensures Value() == AppendTool(site, old(Value()), id, content)
    {
      AppendMessage(Tool(id, content));
      hist := hist + [Answered(id)];
    }

    /** `build_initial_messages`. */
    method BuildInitialMessages()
      modifies this
      ensures Value() == old(Value()).(messages := InitialMessages(old(log)))
    {
      messages := [];
      var summary := ReadLatestSummary(log);
      if summary.Some? {
        messages := [System("# Prior conversation summary\n\n" + summary.value)];
      }
      messages := messages + [System(SCRATCHPAD_NOTE)];
      messages := messages + [System(BATCHING_NOTE)];
      ghost var prefix := messages;
      assert prefix == Prefix(log);
      var records := ReadChatMessages(log, false);
      hide Prefix, Conversation, LatestSummary;
      AppendLoaded(records);
      LoadedList(log, prefix, records);
    }

    /** The loaded messages, pushed one by one. */
    method AppendLoaded(records: seq<TimedMsg>)
      modifies this
      ensures Value() == old(Value()).(messages := old(messages) + Msgs(records))
    {
      ghost var before := messages;
      for i := 0 to |records|
        invariant Value() == old(Value()).(messages := messages)
        invariant messages == before + Msgs(records[..i])
      {
        assert Msgs(records[..i + 1]) == Msgs(records[..i]) + [records[i].msg];
        messages := messages + [records[i].msg];
      }
      assert records[..|records|] == records;
    }

    /** `repair_orphaned_tool_calls`. */
    method RepairOrphanedToolCalls()
      modifies this
      ensures Value() == RepairOrphans(site, old(Value()))
    {
      var repaired, orphans := RepairMessages(messages);
      for i := 0 to |orphans|
        invariant Heal(site, old(Value()), orphans) == Heal(site, Value(), orphans[i..])
      {
        var o := orphans[i];
        assert orphans[i..][0] == o && orphans[i..][1..] == orphans[i + 1..];
        label before:
        if pending.Some? && exists p :: p in pending.value && p.id == o.id {
          pending := None;
        }
        AppendRecord(ToolApproval(o.id, false, true));
        AppendRecord(Message(Tool(o.id, o.content)));
        hist := hist + [Answered(o.id)];
        assert Value() == HealOne(site, old@before(Value()), o);
      }
      messages := repaired;
    }

    /** `maybe_prune_conversation`. */
    method PruneConversation()
      modifies this
      ensures Value() == PruneLog(site, old(Value()))
    {
      var lines := Lines(site, log);
      var size := 0;
      for i := 0 to |lines|
        invariant size == Offset(lines, i)
      {
        size := size + lines[i].bytes;
      }
      if size <= CONVERSATION_PRUNE_TRIGGER_BYTES { return; }
      var cut := PruneOffsetPastMidpoint(lines, size);
      if cut.Some? && cut.value.0 != 0 {
        log := log[cut.value.1..];
        attached := false;
      }
    }

    /** `try_auto_compact` and `compact_conversation`. */
    method TryAutoCompact(cfg: Config, w: World)
      modifies this
      ensures Value() == AutoCompact(site, old(Value()), cfg, w)
    {
      hide TotalChars, CompactionCutoff, Load, Lines, FirstCut, LatestPromptTokens;
      if pending.Some? { return; }
      PruneConversation();
      var tokens := ReadLatestPromptTokens(log);
      var latest := if tokens.Some? then tokens.value else 0;
      var records := ReadChatMessages(log, false);
      var totalChars := 0;
      if latest < cfg.triggerTokens { totalChars := SumChars(records); }
      if !ShouldCompact(latest, totalChars, cfg.triggerTokens) { return; }
      var keepStart := ComputeCompactionCutoff(Msgs(records), KEEP_RECENT_RECORDS_TARGET, RETAINED_TAIL_MAX_CHARS);
      if keepStart.None? || w.summary.None? { return; }
      AppendRecord(Summary(records[keepStart.value - 1].ts, w.summary.value));
    }

    /** The approve branch of `drive`: run every approved call and append its result. */
    method ExecutePending(w: World, pendings: seq<Pending>) returns (ok: bool)
      modifies this
      ensures (Value(), ok) == Execute(site, old(Value()), w, pendings, 0)
    {
      for i := 0 to |pendings|
        invariant Execute(site, old(Value()), w, pendings, 0) == Execute(site, Value(), w, pendings, i)
      {
        var p := pendings[i];
        AppendRecord(ToolApproval(p.id, true, false));
        if p.kind == CommandTool && !site.commandParses(p.args) { return false; }
        hist := hist + [Ran(p.id)];
        AppendToolResult(p.id, w.executed(i));
      }
      return true;
    }

    /** One admitted call: `run_read_only`, `dispatch_patch_unapproved` or `dispatch_command`. */
    method DispatchCall(call: ToolCall, v: Verdict, suspending: bool) returns (parked: Option<Pending>)
      modifies this
      ensures
        var e := EffectOf(site, call, v, suspending);
        && Value() == ApplyEffect(site, old(Value()), call, e)
        && parked == if e.Park? then Some(Pending(call.id, e.kind, call.name, call.args)) else None
    {
      parked := None;
      match Classify(call.name)
      case ReadOnlyTool =>
        if !suspending {
          if v.NeedsApproval? { parked := Some(Pending(call.id, ReadOnlyTool, call.name, call.args)); }
          else { Answer(call.id, v.content, v.ran); }
        }
      case PatchTool =>
        if v.NeedsApproval? { parked := Some(Pending(call.id, PatchTool, call.name, call.args)); }
        else if !suspending { Answer(call.id, v.content, v.ran); }
      case CommandTool =>
        if !site.commandParses(call.args) {
          if !suspending { Answer(call.id, COMMAND_ARGS_ERROR, false); }
        } else if v.NeedsApproval? {
          parked := Some(Pending(call.id, CommandTool, call.name, call.args));
        } else if !suspending {
          if v.decision.Some? { AppendRecord(ToolApproval(call.id, v.decision.value, false)); }
          Answer(call.id, v.content, v.ran && v.decision != Some(false));
        }
      case UnknownTool =>
        if !suspending { Answer(call.id, UNKNOWN_TOOL_ERROR, false); }
    }

    method Answer(id: string, content: string, ran: bool)
      modifies this
      ensures
        var st := if ran then old(Value()).(hist := old(hist) + [Ran(id)]) else old(Value());
        Value() == AppendTool(site, st, id, content)
    {
      if ran { hist := hist + [Ran(id)]; }
      AppendToolResult(id, content);
    }

    /** The dispatch loop of one turn. */
    method DispatchCalls(calls: seq<ToolCall>, cfg: Config, w: World, turn: nat, gate: Gate.ToolCallGate)
      returns (parked: seq<Pending>, exhausted: bool)
      requires gate.limits == cfg.limits
      modifies this, gate
      ensures
        Dispatched(Value(), gate.Value(), parked, exhausted) ==
        DispatchFrom(site, Dispatched(old(Value()), old(gate.Value()), [], false), cfg, w, turn, calls, 0)
    {
      parked, exhausted := [], false;
      ghost var start := Dispatched(Value(), gate.Value(), [], false);
      for i := 0 to |calls|
        invariant DispatchFrom(site, start, cfg, w, turn, calls, 0) ==
                  DispatchFrom(site, Dispatched(Value(), gate.Value(), parked, false), cfg, w, turn, calls, i)
      {
        ghost var d := Dispatched(Value(), gate.Value(), parked, false);
        var call := calls[i];
        var decision := gate.TryAdmit(w.now(turn, i));
        match decision {
          case Proceed =>
            var p := DispatchCall(call, w.verdict(turn, i), parked != []);
            if p.Some? { parked := parked + [p.value]; }
          case TurnLimitExceeded => AppendToolResult(call.id, TURN_LIMIT_ERROR);
          case RateLimitExceeded => AppendToolResult(call.id, RATE_ERROR);
          case SessionExhausted =>
            exhausted := true;
            return;
        }
        assert Dispatched(Value(), gate.Value(), parked, false) == DispatchOne(site, d, cfg, w, turn, call, i);
      }
    }

    /** The assistant record and the usage record of a reply. */
    method RecordReplyOf(r: Reply)
      requires r.Reply?
      modifies this
      ensures Value() == RecordReply(site, old(Value()), r)
    {
      AppendRecord(Message(Assistant(r.content, r.calls)));
      called := called + Ids(r.calls);
      if r.usage.Some? { AppendRecord(TokenUsage(r.usage.value)); }
      messages := messages + [Assistant(r.content, r.calls)];
    }

    /** The model-call loop of `drive`. */
    method RunTurns(cfg: Config, w: World, byApprove: bool, ghost base: seq<Msg>) returns (reason: EndReason)
      modifies this
      ensures (Value(), reason) == Turns(site, Loop(old(Value()), Gate.NEW, 0, false), cfg, w, byApprove, base)
    {
      var gate := new Gate.ToolCallGate(cfg.limits);
      var retried := false;
      ghost var start := Loop(Value(), Gate.NEW, 0, false);
      for turn := 0 to cfg.maxTurns
        invariant fresh(gate) && gate.limits == cfg.limits
        invariant Turns(site, start, cfg, w, byApprove, base) ==
                  Turns(site, Loop(Value(), gate.Value(), turn, retried), cfg, w, byApprove, base)
      {
        ghost var l := Loop(Value(), gate.Value(), turn, retried);
        gate.NewTurn();
        sent := sent + [Sent(messages, log, base, attached)];
        var r := w.reply(turn);
        if r.TransportFault? { return TransportError; }
        if r.HttpFault? { return Failed; }
        RecordReplyOf(r);
        if r.calls == [] {
          if byApprove && Blank(r.content) && !retried {
            retried := true;
            AppendMessage(User(RESUME_NUDGE_PROMPT));
            assert Turn(site, l, cfg, w, byApprove, base) == Again(Loop(Value(), gate.Value(), turn + 1, retried));
            continue;
          }
          return Completed;
        }
        var parked, exhausted := DispatchCalls(r.calls, cfg, w, turn, gate);
        if exhausted { return SessionToolCallExhausted; }
        if parked != [] {
          pending := Some(parked);
          return AwaitingApproval;
        }
        assert Turn(site, l, cfg, w, byApprove, base) == Again(Loop(Value(), gate.Value(), turn + 1, retried));
      }
      return MaxTurns;
    }

    /** `drive` up to the loop. */
    method Begin(inv: Invocation) returns (ghost base: seq<Msg>, ready: bool)
      modifies this
      ensures (Value(), base, ready) == Start(site, old(Value()), inv)
    {
      base := [];
      var cont := inv.cont;
      if cont == Approve && pending.None? {
        var last := ReadLastEnd(log);
        cont := if last == Some(TransportError) then Retry else Prompt(ResumePromptFor(last));
      }
      if inv.cont.Prompt? { TryAutoCompact(inv.cfg, inv.world); }
      BuildInitialMessages();
      match cont {
        case Approve =>
          if !inv.world.grantOk || pending.None? { return [], false; }
          var ok := ExecutePending(inv.world, pending.value);
          if !ok { return [], false; }
          base := AfterPrefix(log, messages);
          pending := None;
          RepairOrphanedToolCalls();
        case Retry =>
          base := Conversation(log);
          RepairOrphanedToolCalls();
        case Prompt(text) =>
          base := Conversation(log);
          RepairOrphanedToolCalls();
          AppendMessage(User(text));
      }
      ready := true;
    }

    /** `run`: one invocation from its start record to its end record. */
    method Run(inv: Invocation) returns (reason: EndReason)
      modifies this
      ensures (Value(), reason) == Invoke(site, old(Value()), inv)
    {
      OpenLog();
      AppendRecord(InvocationStart);
      var base, ready := Begin(inv);
      reason := Failed;
      if ready { reason := RunTurns(inv.cfg, inv.world, inv.cont.Approve?, base); }
      AppendEnd(reason);
    }

    /** The two closing records, which share one clock reading. */
    method AppendEnd(reason: EndReason)
      modifies this
      ensures Value() == Close(site, old(Value()), reason)
    {
      var end := site.clock(stamps);
      if attached { log := log + [Stamped(end, MetricsSnapshot)]; }
      if attached { log := log + [Stamped(end, InvocationEnd(reason))]; }
      stamps := stamps + 1;
    }
  }
}
