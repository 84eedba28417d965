/** The append handle. An invocation opens it once; a prune puts a new file on the path and leaves the handle
    on the old one. From then on nothing the invocation appends reaches the log, and otherwise it goes on as
    if it did. */
module LogHandle {
  import opened Options
  import opened Transcript
  import opened TranscriptRepair
  import opened SessionLog
  import opened Tell
  import opened SessionState
  import opened TurnLaws
  import Gate

  // ---- what a step does to the log ----

  predicate SentWith(sent: seq<Sent>, from: nat, attached: bool)
    requires from <= |sent|
  {
    forall j :: from <= j < |sent| ==> sent[j].attached == attached
  }

  /** From `a` to `b`: an attached log grows, a detached one stands still; time, history and
      requests only move on. */
  predicate Onward(a: St, b: St) {
    && b.attached == a.attached
    && (if a.attached then a.log <= b.log else b.log == a.log)
    && a.stamps <= b.stamps && a.hist <= b.hist && a.sent <= b.sent && SentWith(b.sent, |a.sent|, a.attached)
  }

  lemma HealOneOnward(k: Site, st: St, o: Orphan)
    ensures Onward(st, HealOne(k, st, o))
  {
  }

  lemma {:induction false} HealOnward(k: Site, st: St, lost: seq<Orphan>)
    ensures Onward(st, Heal(k, st, lost))
    decreases |lost|
  {
    if lost != [] {
      hide HealOne;
      HealOneOnward(k, st, lost[0]);
      HealOnward(k, HealOne(k, st, lost[0]), lost[1..]);
    }
  }

  lemma {:induction false} ExecuteOnward(k: Site, st: St, w: World, ps: seq<Pending>, i: nat)
    requires i <= |ps|
    ensures Onward(st, Execute(k, st, w, ps, i).0)
    decreases |ps| - i
  {
    if i < |ps| {
      var st1 := Append(k, st, ToolApproval(ps[i].id, true, false));
      var st2 := st1.(hist := st1.hist + [Ran(ps[i].id)]);
      ExecuteOnward(k, AppendTool(k, st2, ps[i].id, w.executed(i)), w, ps, i + 1);
    }
  }

  lemma EffectOnward(k: Site, st: St, call: ToolCall, e: Effect)
    ensures Onward(st, ApplyEffect(k, st, call, e))
  {
  }

  lemma DispatchOneOnward(k: Site, d: Dispatched, cfg: Config, w: World, turn: nat, call: ToolCall, i: nat)
    ensures Onward(d.st, DispatchOne(k, d, cfg, w, turn, call, i).st)
  {
    hide ApplyEffect, EffectOf, Gate.Admit;
    EffectOnward(k, d.st, call, EffectOf(k, call, w.verdict(turn, i), d.parked != []));
  }

  lemma {:induction false} DispatchOnward(k: Site, d: Dispatched, cfg: Config, w: World, turn: nat,
                                           calls: seq<ToolCall>, i: nat)
    requires i <= |calls|
    ensures Onward(d.st, DispatchFrom(k, d, cfg, w, turn, calls, i).st)
    decreases |calls| - i
  {
    if i < |calls| && !d.exhausted {
      hide DispatchOne;
      DispatchOneOnward(k, d, cfg, w, turn, calls[i], i);
      DispatchOnward(k, DispatchOne(k, d, cfg, w, turn, calls[i], i), cfg, w, turn, calls, i + 1);
    }
  }

  lemma ReplyOnward(k: Site, st: St, r: Reply)
    requires r.Reply?
    ensures Onward(st, RecordReply(k, st, r))
  {
  }

  lemma TurnOnward(k: Site, l: Loop, cfg: Config, w: World, byApprove: bool, base: seq<Msg>)
    ensures
      var t := Turn(k, l, cfg, w, byApprove, base);
      Onward(l.st, EndState(t)) && (t.Again? ==> t.next.turn == l.turn + 1)
  {
    hide RecordReply, DispatchFrom;
    var st := Send(l.st, base);
    match w.reply(l.turn)
    case TransportFault =>
    case HttpFault =>
    case Reply(content, calls, usage) =>
      var r := Reply(content, calls, usage);
      ReplyOnward(k, st, r);
      DispatchOnward(k, Dispatched(RecordReply(k, st, r), Gate.BeginTurn(l.gate), [], false), cfg, w, l.turn, calls, 0);
  }

  lemma {:induction false} TurnsOnward(k: Site, l: Loop, cfg: Config, w: World, byApprove: bool, base: seq<Msg>)
    ensures Onward(l.st, Turns(k, l, cfg, w, byApprove, base).0)
    decreases cfg.maxTurns - l.turn
  {
    if l.turn < cfg.maxTurns {
      hide Turn;
      TurnOnward(k, l, cfg, w, byApprove, base);
      var t := Turn(k, l, cfg, w, byApprove, base);
      if t.Again? { TurnsOnward(k, t.next, cfg, w, byApprove, base); }
    }
  }

  // ---- a whole invocation ----

  lemma CompactOnward(k: Site, st: St, cfg: Config, w: World)
    ensures Onward(st, Compact(k, st, cfg, w))
  {
  }

  /** Where compaction leaves the log: cut and detached, or grown. */
  lemma AutoCompactOnward(k: Site, st: St, cfg: Config, w: World)
    requires st.attached
    ensures
      var st' := AutoCompact(k, st, cfg, w);
      if Pruned(k, st) then Onward(PruneLog(k, st), st') && !st'.attached else Onward(st, st')
  {
    hide Compact;
    CompactOnward(k, PruneLog(k, st), cfg, w);
  }

  /** The rest of the way to the first request, from the compacted state. */
  lemma StartOnward(k: Site, st: St, inv: Invocation)
    ensures
      var st1 := if inv.cont.Prompt? then AutoCompact(k, st, inv.cfg, inv.world) else st;
      Onward(st1, Start(k, st, inv).0)
  {
    hide AutoCompact, InitialMessages, Heal, Execute, Repair, AfterPrefix;
    var st1 := if inv.cont.Prompt? then AutoCompact(k, st, inv.cfg, inv.world) else st;
    var st2 := st1.(messages := InitialMessages(st1.log));
    HealOnward(k, st2, Repair(st2.messages).orphans);
    if st2.pending.Some? {
      ExecuteOnward(k, st2, inv.world, st2.pending.value, 0);
      var st3 := Execute(k, st2, inv.world, st2.pending.value, 0).0.(pending := None);
      HealOnward(k, st3, Repair(st3.messages).orphans);
    }
  }

  lemma DriveOnward(k: Site, st: St, inv: Invocation)
    ensures
      var st1 := if inv.cont.Prompt? then AutoCompact(k, st, inv.cfg, inv.world) else st;
      Onward(st1, Drive(k, st, inv).0)
  {
    hide Start, Turns, AutoCompact;
    var (st1, base, ready) := Start(k, st, inv);
    StartOnward(k, st, inv);
    if ready { TurnsOnward(k, Loop(st1, Gate.NEW, 0, false), inv.cfg, inv.world, inv.cont.Approve?, base); }
  }

  /** From any state, in any world: the records of an invocation reach the log if and only if it does not cut.
      If it cuts, the log it leaves is exactly the cut one, without its summary, prompt, replies, results and
      end; if not, the log has grown and ends with its reason. */
  lemma RecordsReachLogIff(k: Site, st: St, inv: Invocation)
    ensures
      var start := Begun(k, st).log;
      var (st', reason) := Invoke(k, st, inv);
      && (start <= st'.log && LastEnd(st'.log) == Some(reason) <==> !Cuts(k, st, inv))
      && (Cuts(k, st, inv) ==> st'.log == start[CutAt(k, start)..])
      && st.sent <= st'.sent && SentWith(st'.sent, |st.sent|, !Cuts(k, st, inv))
      && st.hist <= st'.hist
  {
    var st0 := Begun(k, st);
    var (st1, reason) := Drive(k, st0, inv);
    DriveOnward(k, st0, inv);
    if inv.cont.Prompt? { AutoCompactOnward(k, st0, inv.cfg, inv.world); }
    hide Drive, AutoCompact, CutAt, LastEnd;
    EndRecorded(st1.log, k.clock(st1.stamps), reason);
  }

  lemma EndRecorded(log: seq<Stamped>, end: nat, reason: EndReason)
    ensures LastEnd(log + [Stamped(end, MetricsSnapshot), Stamped(end, InvocationEnd(reason))]) == Some(reason)
  {
  }

  // ---- a detached run shadows an attached one ----

  function DetachSent(sent: seq<Sent>, log: seq<Stamped>, n: nat): (r: seq<Sent>)
    ensures |r| == |sent| && forall i :: 0 <= i < |sent| ==> r[i].msgs == sent[i].msgs
  {
    seq(|sent|, i requires 0 <= i < |sent| =>
      if i < n then sent[i] else sent[i].(log := log, attached := false))
  }

  /** The same state with the log standing still at `log`, since request `n`. */
  function Detach(st: St, log: seq<Stamped>, n: nat): St {
    st.(log := log, attached := false, sent := DetachSent(st.sent, log, n))
  }

  lemma {:induction false} DetachHeal(k: Site, st: St, lost: seq<Orphan>, log: seq<Stamped>, n: nat)
    ensures Heal(k, Detach(st, log, n), lost) == Detach(Heal(k, st, lost), log, n)
    decreases |lost|
  {
    if lost != [] {
      assert HealOne(k, Detach(st, log, n), lost[0]) == Detach(HealOne(k, st, lost[0]), log, n);
      DetachHeal(k, HealOne(k, st, lost[0]), lost[1..], log, n);
    }
  }

  function DetachDispatched(d: Dispatched, log: seq<Stamped>, n: nat): Dispatched {
    d.(st := Detach(d.st, log, n))
  }

  lemma DetachEffect(k: Site, st: St, call: ToolCall, e: Effect, log: seq<Stamped>, n: nat)
    ensures ApplyEffect(k, Detach(st, log, n), call, e) == Detach(ApplyEffect(k, st, call, e), log, n)
  {
  }

  lemma DetachDispatchOne(k: Site, d: Dispatched, cfg: Config, w: World, turn: nat, call: ToolCall, i: nat,
                          log: seq<Stamped>, n: nat)
    ensures DispatchOne(k, DetachDispatched(d, log, n), cfg, w, turn, call, i) ==
            DetachDispatched(DispatchOne(k, d, cfg, w, turn, call, i), log, n)
  {
    hide ApplyEffect, EffectOf, Gate.Admit, DetachSent;
    DetachEffect(k, d.st, call, EffectOf(k, call, w.verdict(turn, i), d.parked != []), log, n);
  }

  lemma {:induction false} DetachDispatch(k: Site, d: Dispatched, cfg: Config, w: World, turn: nat,
                                          calls: seq<ToolCall>, i: nat, log: seq<Stamped>, n: nat)
    requires i <= |calls|
    ensures DispatchFrom(k, DetachDispatched(d, log, n), cfg, w, turn, calls, i) ==
            DetachDispatched(DispatchFrom(k, d, cfg, w, turn, calls, i), log, n)
    decreases |calls| - i
  {
    if i < |calls| && !d.exhausted {
      hide DispatchOne;
      DetachDispatchOne(k, d, cfg, w, turn, calls[i], i, log, n);
      DetachDispatch(k, DispatchOne(k, d, cfg, w, turn, calls[i], i), cfg, w, turn, calls, i + 1, log, n);
    }
  }

  lemma DetachSend(st: St, base: seq<Msg>, log: seq<Stamped>, n: nat)
    requires n <= |st.sent|
    ensures Send(Detach(st, log, n), base) == Detach(Send(st, base), log, n)
  {
    assert DetachSent(st.sent, log, n) + [Sent(st.messages, log, base, false)] ==
           DetachSent(Send(st, base).sent, log, n);
  }

  lemma DetachReply(k: Site, st: St, r: Reply, log: seq<Stamped>, n: nat)
    requires r.Reply?
    ensures RecordReply(k, Detach(st, log, n), r) == Detach(RecordReply(k, st, r), log, n)
  {
  }

  function DetachLoop(l: Loop, log: seq<Stamped>, n: nat): Loop { l.(st := Detach(l.st, log, n)) }

  function DetachTurnResult(t: TurnResult, log: seq<Stamped>, n: nat): TurnResult {
    match t
    case Ended(st, reason) => Ended(Detach(st, log, n), reason)
    case Again(next) => Again(DetachLoop(next, log, n))
  }

  lemma DetachTurn(k: Site, l: Loop, cfg: Config, w: World, byApprove: bool, base: seq<Msg>, log: seq<Stamped>, n: nat)
    requires n <= |l.st.sent|
    ensures Turn(k, DetachLoop(l, log, n), cfg, w, byApprove, base) ==
            DetachTurnResult(Turn(k, l, cfg, w, byApprove, base), log, n)
  {
    hide RecordReply, DispatchFrom, DetachSent;
    var st := Send(l.st, base);
    DetachSend(l.st, base, log, n);
    match w.reply(l.turn)
    case TransportFault =>
    case HttpFault =>
    case Reply(content, calls, usage) =>
      var r := Reply(content, calls, usage);
      DetachReply(k, st, r, log, n);
      DetachDispatch(k, Dispatched(RecordReply(k, st, r), Gate.BeginTurn(l.gate), [], false), cfg, w, l.turn,
                     calls, 0, log, n);
  }

  /** The loop with a stale handle does what it would do with a good one, but for the log. */
  lemma {:induction false} DetachTurns(k: Site, l: Loop, cfg: Config, w: World, byApprove: bool, base: seq<Msg>,
                                       log: seq<Stamped>, n: nat)
    requires n <= |l.st.sent|
    ensures
      var (st', reason) := Turns(k, l, cfg, w, byApprove, base);
      Turns(k, DetachLoop(l, log, n), cfg, w, byApprove, base) == (Detach(st', log, n), reason)
    decreases cfg.maxTurns - l.turn
  {
    if l.turn < cfg.maxTurns {
      hide Turn, Detach, DetachSent;
      DetachTurn(k, l, cfg, w, byApprove, base, log, n);
      TurnOnward(k, l, cfg, w, byApprove, base);
      TurnsUnroll(k, l, cfg, w, byApprove, base);
      TurnsUnroll(k, DetachLoop(l, log, n), cfg, w, byApprove, base);
      var t := Turn(k, l, cfg, w, byApprove, base);
      if t.Again? { DetachTurns(k, t.next, cfg, w, byApprove, base, log, n); }
    }
  }
}
