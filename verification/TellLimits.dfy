/** The caps of the gate, seen from outside: how many tools one turn and one invocation run or park. */
module TellLimits {
  import opened Options
  import opened Transcript
  import opened TranscriptRepair
  import opened SessionLog
  import opened Tallies
  import opened Tell
  import opened TurnLaws
  import opened TellLaws
  import Gate

  predicate IsRan(e: Event) { e.Ran? }

  /** How many tools a history ran. */
  function Runs(hist: seq<Event>): nat { Tally(IsRan, hist) }

  /** Calls of a turn that reached a tool or wait for the human. */
  function Used(d: Dispatched): nat { Runs(d.st.hist) + |d.parked| }

  lemma RunsPush(hist: seq<Event>, e: Event)
    ensures Runs(hist + [e]) == Runs(hist) + if e.Ran? then 1 else 0
  {
    TallyAppend(IsRan, hist, [e]);
    assert [e][1..] == [];
  }

  lemma EffectRuns(k: Site, st: St, call: ToolCall, e: Effect)
    ensures Runs(ApplyEffect(k, st, call, e).hist) == Runs(st.hist) + if e.Respond? && e.ran then 1 else 0
  {
    hide Runs;
    RunsPush(st.hist, Ran(call.id));
    RunsPush(st.hist + [Ran(call.id)], Answered(call.id));
    RunsPush(st.hist, Answered(call.id));
  }

  lemma AnswerRuns(k: Site, st: St, id: string, content: string)
    ensures Runs(AppendTool(k, st, id, content).hist) == Runs(st.hist)
  {
    hide Runs;
    RunsPush(st.hist, Answered(id));
  }

  /** The counters stay within the caps. */
  predicate Capped(l: Gate.Limits, g: Gate.Counts) {
    g.turn <= l.turnLimit && (l.sessionMax.Some? ==> g.session <= l.sessionMax.value)
  }

  /** From `a` to `b`, calls used are calls admitted. */
  predicate Spends(l: Gate.Limits, a: Dispatched, b: Dispatched) {
    && (Capped(l, a.gate) ==> Capped(l, b.gate))
    && Used(b) + a.gate.session <= Used(a) + b.gate.session
    && Used(b) + a.gate.turn <= Used(a) + b.gate.turn
  }

  lemma DispatchOneSpends(k: Site, d: Dispatched, cfg: Config, w: World, turn: nat, call: ToolCall, i: nat)
    ensures Spends(cfg.limits, d, DispatchOne(k, d, cfg, w, turn, call, i))
  {
    hide ApplyEffect, AppendTool, EffectOf, Runs;
    var e := EffectOf(k, call, w.verdict(turn, i), d.parked != []);
    EffectRuns(k, d.st, call, e);
    AnswerRuns(k, d.st, call.id, TURN_LIMIT_ERROR);
    AnswerRuns(k, d.st, call.id, RATE_ERROR);
  }

  lemma {:induction false} DispatchSpends(k: Site, d: Dispatched, cfg: Config, w: World, turn: nat,
                                          calls: seq<ToolCall>, i: nat)
    requires i <= |calls|
    ensures Spends(cfg.limits, d, DispatchFrom(k, d, cfg, w, turn, calls, i))
    decreases |calls| - i
  {
    hide Used;
    if i < |calls| && !d.exhausted {
      hide DispatchOne;
      DispatchUnroll(k, d, cfg, w, turn, calls, i);
      DispatchOneSpends(k, d, cfg, w, turn, calls[i], i);
      DispatchSpends(k, DispatchOne(k, d, cfg, w, turn, calls[i], i), cfg, w, turn, calls, i + 1);
    }
  }

  /** What an invocation leaves waiting. */
  function LeftWaiting(st: St, reason: EndReason): nat {
    if reason == AwaitingApproval && st.pending.Some? then |st.pending.value| else 0
  }

  /** What a turn leaves waiting for the human. */
  function Waiting(t: TurnResult): nat { if t.Ended? then LeftWaiting(t.end, t.reason) else 0 }

  lemma ReplyRuns(k: Site, st: St, r: Reply)
    requires r.Reply?
    ensures RecordReply(k, st, r).hist == st.hist
  {
  }

  /** One turn runs and parks at most `turnLimit` calls, and at most what is left of the session cap. */
  lemma TurnSpends(k: Site, l: Loop, cfg: Config, w: World, byApprove: bool, base: seq<Msg>)
    requires Capped(cfg.limits, l.gate)
    ensures
      var t := Turn(k, l, cfg, w, byApprove, base);
      var used := Runs(EndState(t).hist) + Waiting(t) - Runs(l.st.hist);
      && used <= cfg.limits.turnLimit
      && (cfg.limits.sessionMax.Some? ==> used + l.gate.session <= cfg.limits.sessionMax.value)
      && (t.Again? ==> Capped(cfg.limits, t.next.gate) && used + l.gate.session <= t.next.gate.session)
  {
    hide Runs, RecordReply, DispatchFrom;
    var st := Send(l.st, base);
    var gate := Gate.BeginTurn(l.gate);
    if w.reply(l.turn).Reply? {
      var r := w.reply(l.turn);
      ReplyRuns(k, st, r);
      DispatchSpends(k, Dispatched(RecordReply(k, st, r), gate, [], false), cfg, w, l.turn, r.calls, 0);
    }
  }

  /** The whole loop runs and parks at most what is left of the session cap. */
  lemma {:induction false} TurnsSpend(k: Site, l: Loop, cfg: Config, w: World, byApprove: bool, base: seq<Msg>)
    requires Capped(cfg.limits, l.gate) && cfg.limits.sessionMax.Some?
    ensures
      var r := Turns(k, l, cfg, w, byApprove, base);
      Runs(r.0.hist) + LeftWaiting(r.0, r.1) + l.gate.session <= Runs(l.st.hist) + cfg.limits.sessionMax.value
    decreases cfg.maxTurns - l.turn
  {
    hide Runs, Turn;
    if l.turn < cfg.maxTurns {
      TurnSpends(k, l, cfg, w, byApprove, base);
      TurnsUnroll(k, l, cfg, w, byApprove, base);
      var t := Turn(k, l, cfg, w, byApprove, base);
      if t.Again? { TurnsSpend(k, t.next, cfg, w, byApprove, base); }
    }
  }

  lemma {:induction false} HealRuns(k: Site, st: St, lost: seq<Orphan>)
    ensures Runs(Heal(k, st, lost).hist) == Runs(st.hist)
    decreases |lost|
  {
    hide Runs;
    if lost != [] {
      RunsPush(st.hist, Answered(lost[0].id));
      HealRuns(k, HealOne(k, st, lost[0]), lost[1..]);
    }
  }

  lemma {:induction false} ExecuteRuns(k: Site, st: St, w: World, ps: seq<Pending>, i: nat)
    requires i <= |ps|
    ensures Runs(Execute(k, st, w, ps, i).0.hist) <= Runs(st.hist) + |ps| - i
    decreases |ps| - i
  {
    hide Runs;
    if i < |ps| {
      var st1 := Append(k, st, ToolApproval(ps[i].id, true, false));
      var st2 := st1.(hist := st1.hist + [Ran(ps[i].id)]);
      RunsPush(st1.hist, Ran(ps[i].id));
      RunsPush(st2.hist, Answered(ps[i].id));
      ExecuteRuns(k, AppendTool(k, st2, ps[i].id, w.executed(i)), w, ps, i + 1);
    }
  }

  /** The calls an invocation may run because the human approved them. */
  function Approved(st: St, cont: Continuation): nat {
    if cont.Approve? && st.pending.Some? then |st.pending.value| else 0
  }

  lemma StartSpends(k: Site, st: St, inv: Invocation)
    ensures Runs(Start(k, st, inv).0.hist) <= Runs(st.hist) + Approved(st, inv.cont)
  {
    hide Runs, Heal, Execute, AutoCompact, Repair, InitialMessages, AfterPrefix;
    CompactRunsNothing(k, st, inv.cfg, inv.world);
    var st1 := if inv.cont.Prompt? then AutoCompact(k, st, inv.cfg, inv.world) else st;
    var st2 := st1.(messages := InitialMessages(st1.log));
    HealRuns(k, st2, Repair(st2.messages).orphans);
    if st2.pending.Some? {
      ExecuteRuns(k, st2, inv.world, st2.pending.value, 0);
      var st3 := Execute(k, st2, inv.world, st2.pending.value, 0).0.(pending := None);
      HealRuns(k, st3, Repair(st3.messages).orphans);
    }
  }

  lemma CompactRunsNothing(k: Site, st: St, cfg: Config, w: World)
    ensures AutoCompact(k, st, cfg, w).hist == st.hist
  {
  }

  /** One invocation runs at most the calls just approved and `sessionMax` more, counting what it leaves
      parked, whatever the model asks for over all its turns. */
  lemma InvocationSpends(k: Site, st: St, inv: Invocation)
    requires inv.cfg.limits.sessionMax.Some?
    ensures
      var (st', reason) := Invoke(k, st, inv);
      Runs(st'.hist) + LeftWaiting(st', reason)
      <= Runs(st.hist) + Approved(st, inv.cont) + inv.cfg.limits.sessionMax.value
  {
    hide Runs, Start, Turns;
    var st0 := Begun(k, st);
    StartSpends(k, st0, inv);
    var (st1, base, ready) := Start(k, st0, inv);
    if ready { TurnsSpend(k, Loop(st1, Gate.NEW, 0, false), inv.cfg, inv.world, inv.cont.Approve?, base); }
  }
}
