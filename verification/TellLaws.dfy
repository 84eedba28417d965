/** The protocol of `attini tell` / `attini approve` over whole sessions: every request is a legal
    transcript rebuilt exactly by the log, a call is run at most once, and the pending set is always
    approvable. */
module TellLaws {
  import opened Options
  import opened Transcript
  import opened TranscriptRepair
  import opened RepairLaws
  import opened OpenCalls
  import opened SessionLog
  import opened Tell
  import opened Requests
  import opened SessionState
  import Gate

  // ---- repair persists exactly the cancellations ----

  lemma PendingAfterCancel(k: Site, pending: Option<seq<Pending>>, open: set<string>, id: string)
    requires PendingOk(k, pending, open)
    ensures
      var bypassed := pending.Some? && exists p :: p in pending.value && p.id == id;
      PendingOk(k, if bypassed then None else pending, open - {id})
  {
    if pending.Some? && !(exists p :: p in pending.value && p.id == id) {
      forall i | 0 <= i < |pending.value| ensures pending.value[i].id != id {
        assert pending.value[i] in pending.value;
      }
    }
  }

  lemma PendingIsOpen(k: Site, pending: Option<seq<Pending>>, open: set<string>)
    requires PendingOk(k, pending, open)
    ensures pending.Some? ==> open != {}
  {
    assert pending.Some? ==> pending.value[0].id in open;
  }

  /** Consistent state: `x` is the loaded conversation. */
  predicate Consistent(k: Site, st: St, x: seq<Msg>) {
    && Recording(k, st) && Conversation(st.log) == x
    && Core(x, st.hist, st.called) && PendingOk(k, st.pending, OpenAfter(x, {}))
  }

  lemma HealOneKeeps(k: Site, st: St, x: seq<Msg>, o: Orphan)
    requires Forward(k) && Consistent(k, st, x) && o.id in OpenAfter(x, {})
    ensures
      var x' := x + [Tool(o.id, o.content)];
      && Consistent(k, HealOne(k, st, o), x') && OpenAfter(x', {}) == OpenAfter(x, {}) - {o.id}
      && HealOne(k, st, o).called == st.called
  {
    HealOneLog(k, st, o);
    hide Recording, Conversation, Core, PendingOk, OpenAfter;
    PendingAfterCancel(k, st.pending, OpenAfter(x, {}), o.id);
    CoreAnswer(x, st.hist, st.called, o.id, o.content, false);
    assert st.hist + [] == st.hist;
  }

  /** Whatever happens to the pending set, a cancellation appends two records. */
  lemma HealOneAppends(k: Site, st: St, o: Orphan)
    ensures
      var st2 := Append(k, Append(k, st, ToolApproval(o.id, false, true)), Message(Tool(o.id, o.content)));
      var st' := HealOne(k, st, o);
      st'.log == st2.log && st'.stamps == st2.stamps && st'.attached == st2.attached
  {
  }

  lemma HealOneLog(k: Site, st: St, o: Orphan)
    requires Forward(k) && Recording(k, st)
    ensures
      var st' := HealOne(k, st, o);
      Recording(k, st') && Conversation(st'.log) == Conversation(st.log) + [Tool(o.id, o.content)]
  {
    hide Timed, Conversation, HealOne, Append, Forward;
    HealOneAppends(k, st, o);
    AppendLog(k, st, ToolApproval(o.id, false, true));
    AppendLog(k, Append(k, st, ToolApproval(o.id, false, true)), Message(Tool(o.id, o.content)));
  }

  lemma {:induction false} HealKeeps(k: Site, st: St, x: seq<Msg>, lost: seq<Orphan>)
    requires Forward(k) && Consistent(k, st, x)
    requires NoRepeat(lost) && OrphanIds(lost) == OpenAfter(x, {})
    ensures
      var st', x' := Heal(k, st, lost), x + Synthetic(lost);
      && Consistent(k, st', x') && OpenAfter(x', {}) == {} && st'.pending == None && st'.called == st.called
    decreases |lost|
  {
    if lost == [] {
      assert x + Synthetic(lost) == x;
      PendingIsOpen(k, st.pending, OpenAfter(x, {}));
    } else {
      hide Consistent, HealOne, OpenAfter;
      var o, x1 := lost[0], x + [Tool(lost[0].id, lost[0].content)];
      HealOneKeeps(k, st, x, o);
      assert OrphanIds(lost) - {o.id} == OrphanIds(lost[1..]);
      HealKeeps(k, HealOne(k, st, o), x1, lost[1..]);
      SyntheticCons(x, lost);
    }
  }

  lemma SyntheticCons(x: seq<Msg>, lost: seq<Orphan>)
    requires lost != []
    ensures x + [Tool(lost[0].id, lost[0].content)] + Synthetic(lost[1..]) == x + Synthetic(lost)
  {
    assert Synthetic(lost) == [Tool(lost[0].id, lost[0].content)] + Synthetic(lost[1..]);
    ConcatAssoc(x, [Tool(lost[0].id, lost[0].content)], Synthetic(lost[1..]));
  }

  /** State of the loop: nothing open or pending, the log holds the repaired base, its cancellations and
      the turns since; memory holds the repaired base and the turns since. */
  predicate Running(k: Site, st: St, base: seq<Msg>, s: seq<Msg>) {
    && Recording(k, st) && InMemory(st, base, s)
    && Conversation(st.log) == base + Synthetic(Repair(base).orphans) + s
    && Core(Conversation(st.log), st.hist, st.called)
    && OpenAfter(Conversation(st.log), {}) == {} && st.pending == None
    && Grouped(base, {})
  }

  lemma RepairStarts(k: Site, st: St, x: seq<Msg>)
    requires Forward(k) && Consistent(k, st, x)
    requires st.messages == Prefix(st.log) + x
    ensures Running(k, RepairOrphans(k, st), x, []) && RepairOrphans(k, st).called == st.called
    ensures RepairOrphans(k, st).sent == st.sent
  {
    var lost := Repair(x).orphans;
    HealCloses(x);
    HealKeeps(k, st, x, lost);
    RepairOrphansInMemory(k, st, x);
    PrefixIsSystem(st.log);
    RepairAfterSystem(Prefix(st.log), x);
    assert x + Synthetic(lost) + [] == x + Synthetic(lost);
  }

  // ---- what a request is ----

  /** What a reload and repair of the log at that moment would rebuild. */
  predicate Rebuilt(r: Sent) {
    r.msgs == Prefix(r.log) + Repair(Conversation(r.log)).msgs
  }

  /** The request is a legal transcript, and the log rebuilds it exactly when records still reach the log. */
  predicate RequestOk(r: Sent) {
    Closed(r.msgs) && (Rebuilt(r) <==> r.attached)
  }

  lemma RunningRequest(k: Site, st: St, base: seq<Msg>, s: seq<Msg>)
    requires Running(k, st, base, s)
    ensures RequestOk(Sent(st.messages, st.log, base, st.attached))
  {
    var x, synth := Conversation(st.log), Synthetic(Repair(base).orphans);
    CallIdsAppend(base + synth, s);
    CallIdsAppend(base, synth);
    DistinctAppend(CallIds(base + synth), CallIds(s));
    CallIdsOfTools(synth);
    assert CallIds(base) + [] == CallIds(base);
    GroupedAnswersFollow(base);
    RepairHealedLog(base, s);
    RepairClosedIff(base);
    MemoryClosedIff(st, base, s);
    ConcatAssoc(Prefix(st.log), Repair(base).msgs, s);
  }

  // ---- one call ----

  /** After a step: in sync, and the open calls shrink by `closed`. */
  predicate Progress(k: Site, a: St, b: St, added: seq<Msg>, closed: set<string>) {
    && InSync(k, a, b, added) && Core(Conversation(b.log), b.hist, b.called)
    && OpenAfter(Conversation(b.log), {}) == OpenAfter(Conversation(a.log), {}) - closed
  }

  lemma RespondKeeps(k: Site, st: St, id: string, content: string, ran: bool, decision: Option<bool>)
    requires Forward(k) && Recording(k, st) && Core(Conversation(st.log), st.hist, st.called)
    requires id in OpenAfter(Conversation(st.log), {})
    ensures
      var st1 := if decision.Some? then Append(k, st, ToolApproval(id, decision.value, false)) else st;
      var st2 := if ran then st1.(hist := st1.hist + [Ran(id)]) else st1;
      Progress(k, st, AppendTool(k, st2, id, content), [Tool(id, content)], {id})
  {
    var st1 := if decision.Some? then Append(k, st, ToolApproval(id, decision.value, false)) else st;
    if decision.Some? { AppendQuiet(k, st, ToolApproval(id, decision.value, false)); }
    else { assert st.messages + [] == st.messages && Conversation(st.log) + [] == Conversation(st.log); }
    assert InSync(k, st, st1, []);
    var st2 := if ran then st1.(hist := st1.hist + [Ran(id)]) else st1;
    var t := Tool(id, content);
    AppendMsgSync(k, st2, t);
    assert InSync(k, st1, AppendTool(k, st2, id, content), [t]);
    InSyncTrans(k, st, st1, AppendTool(k, st2, id, content), [], [t]);
    assert [] + [t] == [t];
    CoreAnswer(Conversation(st.log), st.hist, st.called, id, content, ran);
    assert st.hist + [] == st.hist;
  }

  lemma NoProgress(k: Site, st: St)
    requires Recording(k, st) && Core(Conversation(st.log), st.hist, st.called)
    ensures Progress(k, st, st, [], {})
  {
    assert st.messages + [] == st.messages && Conversation(st.log) + [] == Conversation(st.log);
  }

  /** The parked calls and those still to come are open, distinct, and executable. */
  predicate Slots(k: Site, parked: seq<Pending>, rest: seq<ToolCall>, open: set<string>) {
    && Distinct(PendingIds(parked) + Ids(rest))
    && (forall i :: 0 <= i < |rest| ==> rest[i].id in open)
    && Parked(k, parked, open)
  }

  lemma SlotsSplit(parked: seq<Pending>, rest: seq<ToolCall>)
    requires rest != [] && Distinct(PendingIds(parked) + Ids(rest))
    ensures Distinct(PendingIds(parked) + Ids(rest[1..]))
    ensures Distinct(PendingIds(parked) + [rest[0].id] + Ids(rest[1..]))
    ensures rest[0].id !in PendingIds(parked) && rest[0].id !in Ids(rest[1..])
    ensures Ids(rest) == [rest[0].id] + Ids(rest[1..])
  {
    var a, b, c := PendingIds(parked), [rest[0].id], Ids(rest[1..]);
    assert Ids(rest) == b + c;
    ConcatAssoc(a, b, c);
    DistinctAppend(a, b + c);
    DistinctAppend(b, c);
    DistinctAppend(a, c);
    assert rest[0].id in b && rest[0].id in b + c;
  }

  lemma SlotsAnswered(k: Site, parked: seq<Pending>, rest: seq<ToolCall>, open: set<string>)
    requires rest != [] && Slots(k, parked, rest, open)
    ensures Slots(k, parked, rest[1..], open - {rest[0].id}) && Slots(k, parked, rest[1..], open)
    ensures open == IdSet(rest) ==> open - {rest[0].id} == IdSet(rest[1..])
  {
    SlotsSplit(parked, rest);
    IdsAreIdSet(rest);
    IdsAreIdSet(rest[1..]);
    forall i | 0 <= i < |parked| ensures parked[i].id != rest[0].id {
      assert PendingIds(parked)[i] in PendingIds(parked);
    }
    forall i | 0 <= i < |rest[1..]| ensures rest[1..][i].id != rest[0].id {
      assert Ids(rest[1..])[i] in Ids(rest[1..]);
    }
  }

  lemma SlotsParked(k: Site, parked: seq<Pending>, rest: seq<ToolCall>, open: set<string>, p: Pending)
    requires rest != [] && Slots(k, parked, rest, open)
    requires p.id == rest[0].id && (p.kind == CommandTool ==> k.commandParses(p.args))
    ensures Slots(k, parked + [p], rest[1..], open)
  {
    SlotsSplit(parked, rest);
    assert PendingIds(parked + [p]) == PendingIds(parked) + [p.id];
    DistinctAppend(PendingIds(parked) + [p.id], Ids(rest[1..]));
  }

  /** Mid-turn: while nothing is parked, only the calls still to come are open. */
  predicate MidTurn(k: Site, d: Dispatched, rest: seq<ToolCall>) {
    var open := OpenAfter(Conversation(d.st.log), {});
    && Recording(k, d.st) && Core(Conversation(d.st.log), d.st.hist, d.st.called)
    && Slots(k, d.parked, rest, open)
    && (d.parked == [] && !d.exhausted ==> open == IdSet(rest))
  }

  /** Answering the next call of the turn. */
  lemma RespondStep(k: Site, d: Dispatched, gate: Gate.Counts, rest: seq<ToolCall>, content: string, ran: bool,
                    decision: Option<bool>)
    requires Forward(k) && MidTurn(k, d, rest) && rest != []
    ensures
      var call := rest[0];
      var st1 := if decision.Some? then Append(k, d.st, ToolApproval(call.id, decision.value, false)) else d.st;
      var st2 := if ran then st1.(hist := st1.hist + [Ran(call.id)]) else st1;
      var st' := AppendTool(k, st2, call.id, content);
      InSync(k, d.st, st', [Tool(call.id, content)]) && MidTurn(k, d.(st := st', gate := gate), rest[1..])
  {
    hide Core, Slots, InSync;
    assert rest[0].id in OpenAfter(Conversation(d.st.log), {}) by {
      SlotsFirst(k, d.parked, rest, OpenAfter(Conversation(d.st.log), {}));
    }
    RespondKeeps(k, d.st, rest[0].id, content, ran, decision);
    SlotsAnswered(k, d.parked, rest, OpenAfter(Conversation(d.st.log), {}));
    var st1 := if decision.Some? then Append(k, d.st, ToolApproval(rest[0].id, decision.value, false)) else d.st;
    var st2 := if ran then st1.(hist := st1.hist + [Ran(rest[0].id)]) else st1;
    assert Recording(k, AppendTool(k, st2, rest[0].id, content)) by {
      InSyncRecording(k, d.st, AppendTool(k, st2, rest[0].id, content), [Tool(rest[0].id, content)]);
    }
  }

  lemma SlotsFirst(k: Site, parked: seq<Pending>, rest: seq<ToolCall>, open: set<string>)
    requires rest != [] && Slots(k, parked, rest, open)
    ensures rest[0].id in open
  {
  }

  lemma InSyncRecording(k: Site, a: St, b: St, added: seq<Msg>)
    requires InSync(k, a, b, added)
    ensures Recording(k, b)
  {
  }

  lemma ExhaustedSlots(k: Site, parked: seq<Pending>, rest: seq<ToolCall>, open: set<string>)
    requires Slots(k, parked, rest, open)
    ensures Slots(k, parked, [], open)
  {
    DistinctAppend(PendingIds(parked), Ids(rest));
    assert PendingIds(parked) + Ids([]) == PendingIds(parked);
  }

  lemma ParkedCommandsParse(k: Site, call: ToolCall, v: Verdict, suspending: bool)
    ensures EffectOf(k, call, v, suspending) == Park(CommandTool) ==> k.commandParses(call.args)
  {
  }

  /** An admitted call, whatever its effect. */
  lemma ProceedKeeps(k: Site, d: Dispatched, gate: Gate.Counts, call: ToolCall, rest: seq<ToolCall>, e: Effect)
    requires Forward(k) && !d.exhausted && MidTurn(k, d, [call] + rest)
    requires (e == Park(CommandTool) ==> k.commandParses(call.args)) && (e.Skip? ==> d.parked != [])
    ensures
      var d' := d.(gate := gate, st := ApplyEffect(k, d.st, call, e),
                   parked := if e.Park? then d.parked + [Pending(call.id, e.kind, call.name, call.args)] else d.parked);
      InSync(k, d.st, d'.st, if e.Respond? then [Tool(call.id, e.content)] else []) && MidTurn(k, d', rest)
  {
    var all := [call] + rest;
    assert all[0] == call && all[1..] == rest;
    hide Recording, Core, Slots, InSync;
    NoProgress(k, d.st);
    match e
    case Skip => SlotsAnswered(k, d.parked, all, OpenAfter(Conversation(d.st.log), {}));
    case Park(kind) =>
      SlotsParked(k, d.parked, all, OpenAfter(Conversation(d.st.log), {}),
                  Pending(call.id, kind, call.name, call.args));
    case Respond(content, ran, auto) => RespondStep(k, d, gate, all, content, ran, auto);
  }

  lemma RejectedKeeps(k: Site, d: Dispatched, gate: Gate.Counts, call: ToolCall, rest: seq<ToolCall>, content: string)
    requires Forward(k) && !d.exhausted && MidTurn(k, d, [call] + rest)
    ensures
      var d' := d.(gate := gate, st := AppendTool(k, d.st, call.id, content));
      InSync(k, d.st, d'.st, [Tool(call.id, content)]) && MidTurn(k, d', rest)
  {
    ProceedKeeps(k, d, gate, call, rest, Respond(content, false, None));
  }

  lemma ExhaustedKeeps(k: Site, d: Dispatched, gate: Gate.Counts, all: seq<ToolCall>)
    requires MidTurn(k, d, all)
    ensures InSync(k, d.st, d.st, []) && MidTurn(k, d.(gate := gate, exhausted := true), [])
  {
    hide Recording, Core, InSync;
    NoProgress(k, d.st);
    ExhaustedSlots(k, d.parked, all, OpenAfter(Conversation(d.st.log), {}));
  }

  lemma DispatchOneKeeps(k: Site, d: Dispatched, cfg: Config, w: World, turn: nat, call: ToolCall, i: nat,
                         rest: seq<ToolCall>)
    returns (added: seq<Msg>)
    requires Forward(k) && !d.exhausted && MidTurn(k, d, [call] + rest)
    ensures
      var d' := DispatchOne(k, d, cfg, w, turn, call, i);
      InSync(k, d.st, d'.st, added) && AllTools(added) && MidTurn(k, d', if d'.exhausted then [] else rest)
  {
    hide MidTurn, InSync, EffectOf, ApplyEffect, AppendTool, Gate.Admit;
    var (gate, decision) := Gate.Admit(cfg.limits, d.gate, w.now(turn, i));
    match decision
    case TurnLimitExceeded =>
      RejectedKeeps(k, d, gate, call, rest, TURN_LIMIT_ERROR);
      added := [Tool(call.id, TURN_LIMIT_ERROR)];
    case RateLimitExceeded =>
      RejectedKeeps(k, d, gate, call, rest, RATE_ERROR);
      added := [Tool(call.id, RATE_ERROR)];
    case SessionExhausted =>
      ExhaustedKeeps(k, d, gate, [call] + rest);
      added := [];
    case Proceed =>
      var e := EffectOf(k, call, w.verdict(turn, i), d.parked != []);
      ParkedCommandsParse(k, call, w.verdict(turn, i), d.parked != []);
      SkipsOnlyWhenSuspending(k, call, w.verdict(turn, i), d.parked != []);
      ProceedKeeps(k, d, gate, call, rest, e);
      added := if e.Respond? then [Tool(call.id, e.content)] else [];
  }

  lemma SkipsOnlyWhenSuspending(k: Site, call: ToolCall, v: Verdict, suspending: bool)
    ensures EffectOf(k, call, v, suspending).Skip? ==> suspending
  {
  }

  lemma DispatchUnroll(k: Site, d: Dispatched, cfg: Config, w: World, turn: nat, calls: seq<ToolCall>, i: nat)
    requires i < |calls| && !d.exhausted
    ensures DispatchFrom(k, d, cfg, w, turn, calls, i) ==
            DispatchFrom(k, DispatchOne(k, d, cfg, w, turn, calls[i], i), cfg, w, turn, calls, i + 1)
    ensures calls[i..] == [calls[i]] + calls[i + 1..]
  {
  }

  lemma {:induction false} DispatchKeeps(k: Site, d: Dispatched, cfg: Config, w: World, turn: nat,
                                         calls: seq<ToolCall>, i: nat)
    returns (added: seq<Msg>)
    requires Forward(k) && i <= |calls| && MidTurn(k, d, if d.exhausted then [] else calls[i..])
    ensures
      var d' := DispatchFrom(k, d, cfg, w, turn, calls, i);
      InSync(k, d.st, d'.st, added) && AllTools(added) && MidTurn(k, d', [])
    decreases |calls| - i
  {
    if i == |calls| || d.exhausted {
      NoProgress(k, d.st);
      return [];
    }
    hide *;
    DispatchUnroll(k, d, cfg, w, turn, calls, i);
    var d1 := DispatchOne(k, d, cfg, w, turn, calls[i], i);
    var first := DispatchOneKeeps(k, d, cfg, w, turn, calls[i], i, calls[i + 1..]);
    var rest := DispatchKeeps(k, d1, cfg, w, turn, calls, i + 1);
    InSyncTrans(k, d.st, d1.st, DispatchFrom(k, d, cfg, w, turn, calls, i).st, first, rest);
    added := first + rest;
    ToolsAppend(first, rest);
  }

  lemma ToolsAppend(a: seq<Msg>, b: seq<Msg>)
    requires AllTools(a) && AllTools(b)
    ensures AllTools(a + b)
  {
  }

  lemma ParkedAsCalled(k: Site, call: ToolCall, v: Verdict, suspending: bool)
    ensures
      var e := EffectOf(k, call, v, suspending);
      e.Park? ==> e.kind == Classify(call.name)
  {
  }

  lemma DispatchOneParks(k: Site, d: Dispatched, cfg: Config, w: World, turn: nat, call: ToolCall, i: nat)
    ensures
      var d' := DispatchOne(k, d, cfg, w, turn, call, i);
      d'.parked == d.parked || d'.parked == d.parked + [Pending(call.id, Classify(call.name), call.name, call.args)]
  {
    hide EffectOf, ApplyEffect, AppendTool, Gate.Admit, Classify;
    ParkedAsCalled(k, call, w.verdict(turn, i), d.parked != []);
  }

  /** What a turn parks are calls of that turn. */
  lemma {:induction false} DispatchParks(k: Site, d: Dispatched, cfg: Config, w: World, turn: nat,
                                         calls: seq<ToolCall>, i: nat)
    requires i <= |calls| && AskedFor(d.parked, calls)
    ensures AskedFor(DispatchFrom(k, d, cfg, w, turn, calls, i).parked, calls)
    decreases |calls| - i
  {
    if i < |calls| && !d.exhausted {
      hide DispatchOne, Classify;
      DispatchUnroll(k, d, cfg, w, turn, calls, i);
      DispatchOneParks(k, d, cfg, w, turn, calls[i], i);
      DispatchParks(k, DispatchOne(k, d, cfg, w, turn, calls[i], i), cfg, w, turn, calls, i + 1);
    }
  }

  /** Once a call of a turn is parked, no later call of that turn is run. */
  lemma {:induction false} NothingRunsAfterPark(k: Site, d: Dispatched, cfg: Config, w: World, turn: nat,
                                                calls: seq<ToolCall>, i: nat)
    requires i <= |calls| && d.parked != []
    ensures
      var d' := DispatchFrom(k, d, cfg, w, turn, calls, i);
      d.st.hist <= d'.st.hist && forall j :: |d.st.hist| <= j < |d'.st.hist| ==> d'.st.hist[j].Answered?
    decreases |calls| - i
  {
    if i < |calls| && !d.exhausted {
      DispatchUnroll(k, d, cfg, w, turn, calls, i);
      SuspendedStep(k, d, cfg, w, turn, calls[i], i);
      NothingRunsAfterPark(k, DispatchOne(k, d, cfg, w, turn, calls[i], i), cfg, w, turn, calls, i + 1);
    }
  }

  lemma SuspendedStep(k: Site, d: Dispatched, cfg: Config, w: World, turn: nat, call: ToolCall, i: nat)
    requires d.parked != []
    ensures
      var d' := DispatchOne(k, d, cfg, w, turn, call, i);
      d'.parked != [] && (d'.st.hist == d.st.hist || d'.st.hist == d.st.hist + [Answered(call.id)])
  {
  }
}
