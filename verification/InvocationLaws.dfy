/** One invocation, from its start record to its end record: what it keeps when its records reach the log, and
    what is left when a prune takes the log away from under it. */
module InvocationLaws {
  import opened Options
  import opened Transcript
  import opened TranscriptRepair
  import opened OpenCalls
  import opened SessionLog
  import opened Compaction
  import opened Tell
  import opened Requests
  import opened SessionState
  import opened TellLaws
  import opened TurnLaws
  import opened CompactLaws
  import opened LogHandle
  import Gate

  // ---- up to the first request ----

  lemma LiveIgnoresMemory(k: Site, st: St, messages: seq<Msg>)
    requires Live(k, st)
    ensures Live(k, st.(messages := messages))
  {
  }

  /** The approve path up to the first request. */
  lemma ApproveRuns(k: Site, st: St, w: World) returns (base: seq<Msg>)
    requires Forward(k) && Live(k, st) && st.pending.Some?
    requires st.messages == InitialMessages(st.log)
    ensures
      var (st3, ok) := Execute(k, st, w, st.pending.value, 0);
      && ok && base == AfterPrefix(st3.log, st3.messages)
      && Running(k, RepairOrphans(k, st3.(pending := None)), base, [])
      && RepairOrphans(k, st3.(pending := None)).sent == st.sent
      && RepairOrphans(k, st3.(pending := None)).called == st.called
  {
    var ps := st.pending.value;
    assert ps[0..] == ps;
    var tools := ExecuteKeeps(k, st, w, ps, 0);
    var st3 := Execute(k, st, w, ps, 0).0;
    var x := Conversation(st.log) + tools;
    ConcatAssoc(Prefix(st.log), Conversation(st.log), tools);
    assert st3.messages == Prefix(st3.log) + x && AfterPrefix(st3.log, st3.messages) == x;
    RepairStarts(k, st3.(pending := None), x);
    base := x;
  }

  /** The retry path up to the first request. */
  lemma ResumeRuns(k: Site, st: St)
    requires Forward(k) && Live(k, st) && st.messages == InitialMessages(st.log)
    ensures
      var st' := RepairOrphans(k, st);
      Running(k, st', Conversation(st.log), []) && st'.sent == st.sent && st'.called == st.called
  {
    RepairStarts(k, st, Conversation(st.log));
  }

  lemma PromptRuns(k: Site, st: St, base: seq<Msg>, text: string)
    requires Forward(k) && Running(k, st, base, [])
    ensures
      var st' := AppendMsg(k, st, User(text));
      && Running(k, st', base, [User(text)]) && st'.sent == st.sent && st'.called == st.called
      && Prefix(st'.log) == Prefix(st.log)
  {
    hide *;
    var u := User(text);
    var st' := AppendMsg(k, st, u);
    RunningParts(k, st, base, []);
    AppendMsgSync(k, st, u);
    AppendMsgParts(k, st, u);
    AppendMsgAdds(k, st, u);
    InSyncParts(k, st, st', [u]);
    CoreUser(Conversation(st.log), st.hist, st.called, text);
    UserIsClosed(text);
    InMemoryGrows(st, st', base, [], [u]);
    RunningGrows(k, st, st', base, [], [u]);
    AddsPrefix(st, st', [u]);
    assert [] + [u] == [u];
  }

  lemma AddsPrefix(a: St, b: St, added: seq<Msg>)
    requires Adds(a, b, added)
    ensures Prefix(b.log) == Prefix(a.log)
  {
  }

  /** A fresh prompt up to the first request: load, repair, and append the prompt. */
  function Prompted(k: Site, st: St, text: string): St {
    AppendMsg(k, RepairOrphans(k, st.(messages := InitialMessages(st.log))), User(text))
  }

  lemma PromptedRuns(k: Site, st: St, text: string)
    requires Forward(k) && Live(k, st)
    ensures
      var st' := Prompted(k, st, text);
      && Running(k, st', Conversation(st.log), [User(text)])
      && st'.sent == st.sent && st'.called == st.called && Prefix(st'.log) == Prefix(st.log)
  {
    var st2 := st.(messages := InitialMessages(st.log));
    hide Live, Running, RepairOrphans, AppendMsg, InitialMessages, Forward, Prefix, Conversation;
    LiveIgnoresMemory(k, st, InitialMessages(st.log));
    ResumeRuns(k, st2);
    RepairKeepsPrefix(k, st2);
    PromptRuns(k, RepairOrphans(k, st2), Conversation(st.log), text);
  }

  lemma RepairKeepsPrefix(k: Site, st: St)
    ensures Prefix(RepairOrphans(k, st).log) == Prefix(st.log)
  {
    HealAdds(k, st, Repair(st.messages).orphans);
  }

  lemma StartRuns(k: Site, st: St, inv: Invocation) returns (s: seq<Msg>)
    requires Forward(k) && Live(k, st)
    requires inv.cont.Prompt? ==> CompactTicks(k, st, inv.cfg, inv.world) && !Pruned(k, st)
    ensures
      var (st', base, ready) := Start(k, st, inv);
      && st'.sent == st.sent && st'.called == st.called
      && (if ready then Running(k, st', base, s) else Live(k, st'))
  {
    s := [];
    var st1 := if inv.cont.Prompt? then AutoCompact(k, st, inv.cfg, inv.world) else st;
    var st2 := st1.(messages := InitialMessages(st1.log));
    var cont := Normalise(st, inv.cont);
    hide Good, Running, AutoCompact, Execute, RepairOrphans, AppendMsg, InitialMessages, Forward, AfterPrefix,
      CompactTicks, Pruned;
    if inv.cont.Prompt? { AutoCompactKeeps(k, st, inv.cfg, inv.world); }
    LiveIgnoresMemory(k, st1, InitialMessages(st1.log));
    match cont
    case Approve =>
      if inv.world.grantOk && st2.pending.Some? {
        var base := ApproveRuns(k, st2, inv.world);
      }
    case Retry =>
      ResumeRuns(k, st2);
    case Prompt(text) =>
      PromptedRuns(k, st1, text);
      s := [User(text)];
  }

  // ---- opening and closing ----

  lemma QuietRecord(log: seq<Stamped>, r: Stamped)
    requires !r.rec.Message? && !r.rec.Summary?
    ensures Records(log + [r]) == Records(log) && Load(log + [r]) == Load(log) && Prefix(log + [r]) == Prefix(log)
  {
    RecordsPush(log, r);
    assert (log + [r])[..|log + [r]| - 1] == log;
  }

  /** Opening the log and writing the start record. */
  lemma BegunIs(k: Site, st: St)
    ensures
      var st0 := Begun(k, st);
      && st0.attached && st0.sent == st.sent && st0.called == st.called && st0.pending == st.pending
      && st0.hist == st.hist && Conversation(st0.log) == Conversation(st.log) && Prefix(st0.log) == Prefix(st.log)
      && LastEnd(st0.log) == LastEnd(st.log)
  {
    QuietRecord(st.log, Stamped(k.clock(st.stamps), InvocationStart));
    assert Begun(k, st).log[..|Begun(k, st).log| - 1] == st.log;
  }

  lemma BegunIsLive(k: Site, st: St)
    requires Forward(k) && Good(k, st)
    ensures Live(k, Begun(k, st))
  {
    AppendLog(k, Open(st), InvocationStart);
  }

  /** The two closing records share one clock reading. */
  lemma CloseIsLive(k: Site, st: St, reason: EndReason)
    requires Forward(k) && Live(k, st)
    ensures
      var st' := Close(k, st, reason);
      && Live(k, st') && Conversation(st'.log) == Conversation(st.log) && Prefix(st'.log) == Prefix(st.log)
      && LastEnd(st'.log) == Some(reason)
  {
    var end := k.clock(st.stamps);
    var a, b := Stamped(end, MetricsSnapshot), Stamped(end, InvocationEnd(reason));
    assert st.log + [a, b] == (st.log + [a]) + [b];
    QuietRecord(st.log, a);
    QuietRecord(st.log + [a], b);
    EndTimed(k, st, a, b);
    EndRecorded(st.log, end, reason);
    hide LastEnd, Records, Cutoff, Core, LatestSummary, Retain;
  }

  lemma EndTimed(k: Site, st: St, a: Stamped, b: Stamped)
    requires Forward(k) && Timed(k, st.log, st.stamps)
    requires a.ts == b.ts == k.clock(st.stamps) && !a.rec.Summary? && !b.rec.Summary?
    ensures Timed(k, st.log + [a, b], st.stamps + 1)
  {
  }

  lemma InvokeIs(k: Site, st: St, inv: Invocation)
    ensures
      var (st2, reason) := Drive(k, Begun(k, st), inv);
      var (st', reason') := Invoke(k, st, inv);
      && reason' == reason && st' == Close(k, st2, reason)
      && st'.sent == st2.sent && st'.called == st2.called && st'.pending == st2.pending && st'.hist == st2.hist
  {
  }

  // ---- ids called only grow ----

  lemma {:induction false} ExecuteCalled(k: Site, st: St, w: World, ps: seq<Pending>, i: nat)
    requires i <= |ps|
    ensures Execute(k, st, w, ps, i).0.called == st.called
    decreases |ps| - i
  {
    if i < |ps| {
      var st1 := Append(k, st, ToolApproval(ps[i].id, true, false));
      var st2 := st1.(hist := st1.hist + [Ran(ps[i].id)]);
      ExecuteCalled(k, AppendTool(k, st2, ps[i].id, w.executed(i)), w, ps, i + 1);
    }
  }

  lemma {:induction false} HealCalled(k: Site, st: St, lost: seq<Orphan>)
    ensures Heal(k, st, lost).called == st.called
    decreases |lost|
  {
    if lost != [] { HealCalled(k, HealOne(k, st, lost[0]), lost[1..]); }
  }

  lemma InvocationCalled(k: Site, st: St, inv: Invocation)
    ensures st.called <= Invoke(k, st, inv).0.called
  {
    var (st1, base, ready) := Start(k, Begun(k, st), inv);
    StartCalled(k, Begun(k, st), inv);
    hide Start, Turns;
    if ready { TurnsCalled(k, Loop(st1, Gate.NEW, 0, false), inv.cfg, inv.world, inv.cont.Approve?, base); }
  }

  lemma StartCalled(k: Site, st: St, inv: Invocation)
    ensures Start(k, st, inv).0.called == st.called
  {
    hide Execute, Repair, InitialMessages, Heal, AfterPrefix, CutAt, CompactionCutoff, ShouldCompact;
    var st1 := if inv.cont.Prompt? then AutoCompact(k, st, inv.cfg, inv.world) else st;
    var st2 := st1.(messages := InitialMessages(st1.log));
    HealCalled(k, st2, Repair(st2.messages).orphans);
    if st2.pending.Some? {
      ExecuteCalled(k, st2, inv.world, st2.pending.value, 0);
      var st3 := Execute(k, st2, inv.world, st2.pending.value, 0).0.(pending := None);
      HealCalled(k, st3, Repair(st3.messages).orphans);
    }
  }

  // ---- an invocation that does not cut ----

  lemma DriveKeeps(k: Site, st0: St, inv: Invocation)
    requires Forward(k) && Live(k, st0) && Distinct(Drive(k, st0, inv).0.called)
    requires inv.cont.Prompt? ==> CompactTicks(k, st0, inv.cfg, inv.world) && !Pruned(k, st0)
    ensures
      var st' := Drive(k, st0, inv).0;
      Live(k, st') && st0.sent <= st'.sent && RequestsOk(st'.sent, |st0.sent|)
  {
    var (st1, base, ready) := Start(k, st0, inv);
    hide Live, Running, RequestOk, Start, Turns, Forward, CompactTicks, Pruned;
    var s := StartRuns(k, st0, inv);
    if ready {
      TurnsRun(k, Loop(st1, Gate.NEW, 0, false), inv.cfg, inv.world, inv.cont.Approve?, base, s);
    }
  }

  lemma TicksAtStart(k: Site, st: St, inv: Invocation)
    requires Ticks(k, st, inv)
    ensures inv.cont.Prompt? ==> CompactTicks(k, Begun(k, st), inv.cfg, inv.world)
    ensures inv.cont.Prompt? && !Cuts(k, st, inv) ==> !Pruned(k, Begun(k, st))
  {
  }

  lemma UncutKeeps(k: Site, st: St, inv: Invocation)
    requires Forward(k) && Good(k, st) && Distinct(Invoke(k, st, inv).0.called) && Ticks(k, st, inv)
    requires !Cuts(k, st, inv)
    ensures
      var st' := Invoke(k, st, inv).0;
      Live(k, st') && st.sent <= st'.sent && RequestsOk(st'.sent, |st.sent|)
  {
    hide *;
    var st0 := Begun(k, st);
    var (st2, reason) := Drive(k, st0, inv);
    InvokeIs(k, st, inv);
    BegunIs(k, st);
    BegunIsLive(k, st);
    TicksAtStart(k, st, inv);
    DriveKeeps(k, st0, inv);
    CloseIsLive(k, st2, reason);
  }

  // ---- an invocation that cuts ----

  /** What a cutting invocation would do from here if its handle were still the file on the path. */
  function Shadow(k: Site, st: St, inv: Invocation): St
    requires inv.cont.Prompt?
  {
    Prompted(k, Open(AutoCompact(k, Begun(k, st), inv.cfg, inv.world)), inv.cont.text)
  }

  lemma DetachPrompted(k: Site, st: St, text: string)
    requires !st.attached
    ensures Prompted(k, st, text) == Detach(Prompted(k, Open(st), text), st.log, |st.sent|)
  {
    var n, a := |st.sent|, Open(st);
    var a2 := a.(messages := InitialMessages(a.log));
    assert DetachSent(st.sent, st.log, n) == st.sent;
    assert st == Detach(a, st.log, n);
    DetachHeal(k, a2, Repair(a2.messages).orphans, st.log, n);
    hide InitialMessages, Heal, DetachSent, Repair;
  }

  /** The cutting invocation is its shadow with the log left as the prune cut it. */
  lemma CutIsShadow(k: Site, st: St, inv: Invocation)
    requires Cuts(k, st, inv)
    ensures
      var st0 := Begun(k, st);
      var log := st0.log[CutAt(k, st0.log)..];
      var l := Loop(Shadow(k, st, inv), Gate.NEW, 0, false);
      var (end, reason) := Turns(k, l, inv.cfg, inv.world, false, Conversation(log));
      Drive(k, st0, inv) == (Detach(end, log, |st.sent|), reason)
  {
    var st0 := Begun(k, st);
    var st1 := AutoCompact(k, st0, inv.cfg, inv.world);
    AutoCompactOnward(k, st0, inv.cfg, inv.world);
    CompactSends(k, st0, inv.cfg, inv.world);
    BegunIs(k, st);
    DetachPrompted(k, st1, inv.cont.text);
    var l := Loop(Shadow(k, st, inv), Gate.NEW, 0, false);
    ShadowSends(k, Open(st1), inv.cont.text);
    DetachTurns(k, l, inv.cfg, inv.world, false, Conversation(st1.log), st1.log, |st.sent|);
    hide AutoCompact, CutAt, Turns, InitialMessages, RepairOrphans, AppendMsg, Conversation, Detach;
    assert Start(k, st0, inv) == (Prompted(k, st1, inv.cont.text), Conversation(st1.log), true);
  }

  lemma ShadowSends(k: Site, st: St, text: string)
    ensures Prompted(k, st, text).sent == st.sent
  {
    HealAdds(k, st.(messages := InitialMessages(st.log)), Repair(InitialMessages(st.log)).orphans);
  }

  /** Every orphan is answered by its cancellation. */
  lemma {:induction false} HealTouches(k: Site, st: St, lost: seq<Orphan>, id: string)
    requires id in OrphanIds(lost)
    ensures !Untouched(Heal(k, st, lost).hist, id)
    decreases |lost|
  {
    var st1 := HealOne(k, st, lost[0]);
    if id == lost[0].id {
      hide Heal, HealOne;
      HealOneTouches(k, st, lost[0]);
      HealOnward(k, st1, lost[1..]);
      TouchedStays(st1.hist, Heal(k, st1, lost[1..]).hist, id);
      HealUnroll(k, st, lost);
    } else {
      HealTouches(k, st1, lost[1..], id);
    }
  }

  lemma HealUnroll(k: Site, st: St, lost: seq<Orphan>)
    requires lost != []
    ensures Heal(k, st, lost) == Heal(k, HealOne(k, st, lost[0]), lost[1..])
  {
  }

  lemma HealOneTouches(k: Site, st: St, o: Orphan)
    ensures !Untouched(HealOne(k, st, o).hist, o.id)
  {
    var h := HealOne(k, st, o).hist;
    assert h[|h| - 1].id == o.id;
  }

  lemma TouchedStays(a: seq<Event>, b: seq<Event>, id: string)
    requires a <= b && !Untouched(a, id)
    ensures !Untouched(b, id)
  {
    var i :| 0 <= i < |a| && a[i].id == id;
    assert b[i].id == id;
  }

  /** The calls a prompt finds open are cancelled before its first request. */
  lemma PromptedTouches(k: Site, st: St, text: string)
    requires Live(k, st)
    ensures AllTouched(Prompted(k, st, text).hist, OpenAfter(Conversation(st.log), {}))
  {
    var st2 := st.(messages := InitialMessages(st.log));
    var x := Conversation(st.log);
    HealCloses(x);
    PrefixIsSystem(st.log);
    RepairAfterSystem(Prefix(st.log), x);
    hide Heal, Repair, Conversation, Prefix, OpenAfter, Grouped, Untouched;
    forall id | id in OpenAfter(x, {}) ensures !Untouched(Prompted(k, st, text).hist, id) {
      HealTouches(k, st2, Repair(st2.messages).orphans, id);
    }
  }

  /** The facts about the shadow run that carry over. */
  lemma ShadowKeeps(k: Site, st: St, inv: Invocation)
    requires Forward(k) && Good(k, st) && Cuts(k, st, inv) && Distinct(Invoke(k, st, inv).0.called)
    ensures
      var st0 := Begun(k, st);
      var log := st0.log[CutAt(k, st0.log)..];
      var b := Shadow(k, st, inv);
      var end := Turns(k, Loop(b, Gate.NEW, 0, false), inv.cfg, inv.world, false, Conversation(log)).0;
      && Running(k, b, Conversation(log), [User(inv.cont.text)]) && Prefix(b.log) == Prefix(log)
      && b.sent == st.sent && b.called == st.called && Distinct(end.called)
      && Live(k, end) && st.sent <= end.sent && RequestsOk(end.sent, |st.sent|)
      && Good(k, b.(log := log, messages := [], hist := st.hist))
      && OpenAfter(Conversation(log), {}) == OpenAfter(Conversation(st.log), {})
      && AllTouched(b.hist, OpenAfter(Conversation(log), {}))
  {
    hide *;
    var st0 := Begun(k, st);
    var log := st0.log[CutAt(k, st0.log)..];
    CutMeans(k, st, inv);
    BegunIs(k, st);
    BegunIsLive(k, st);
    LiveIs(k, st0);
    CutNeedsNoTick(k, st0, inv);
    AutoCompactKeeps(k, st0, inv.cfg, inv.world);
    PruneIsGood(k, st0);
    AutoCompactIs(k, st0, inv.cfg, inv.world);
    PrunedIs(k, st0);
    var a := Open(AutoCompact(k, st0, inv.cfg, inv.world));
    OpenIs(k, AutoCompact(k, st0, inv.cfg, inv.world));
    ShadowIs(k, st, inv);
    PromptedRuns(k, a, inv.cont.text);
    PromptedLater(k, a, inv.cont.text);
    CutIsShadow(k, st, inv);
    InvokeIs(k, st, inv);
    var l := Loop(Shadow(k, st, inv), Gate.NEW, 0, false);
    DetachIs(Turns(k, l, inv.cfg, inv.world, false, Conversation(log)).0, log, |st.sent|);
    TurnsRun(k, l, inv.cfg, inv.world, false, Conversation(log), [User(inv.cont.text)]);
    RunningParts(k, l.st, Conversation(log), [User(inv.cont.text)]);
    GoodOnDisk(k, a, l.st, st.hist);
    PromptedTouches(k, a, inv.cont.text);
  }

  lemma CutMeans(k: Site, st: St, inv: Invocation)
    requires Cuts(k, st, inv)
    ensures inv.cont.Prompt? && Pruned(k, Begun(k, st))
  {
  }

  lemma CutNeedsNoTick(k: Site, st: St, inv: Invocation)
    requires Pruned(k, st)
    ensures CompactTicks(k, st, inv.cfg, inv.world)
  {
  }

  lemma OpenIs(k: Site, st: St)
    requires Good(k, st)
    ensures
      var a := Open(st);
      && Live(k, a) && a.log == st.log && a.sent == st.sent && a.called == st.called && a.pending == st.pending
      && a.hist == st.hist
  {
  }

  lemma ShadowIs(k: Site, st: St, inv: Invocation)
    requires inv.cont.Prompt?
    ensures
      Shadow(k, st, inv) == Prompted(k, Open(AutoCompact(k, Begun(k, st), inv.cfg, inv.world)), inv.cont.text)
  {
  }

  lemma PromptedLater(k: Site, st: St, text: string)
    ensures st.stamps <= Prompted(k, st, text).stamps
  {
    var st2 := st.(messages := InitialMessages(st.log));
    HealOnward(k, st2, Repair(st2.messages).orphans);
  }

  lemma DetachIs(st: St, log: seq<Stamped>, n: nat)
    ensures
      var st' := Detach(st, log, n);
      && st'.called == st.called && st'.pending == st.pending && st'.hist == st.hist && st'.log == log
      && st'.stamps == st.stamps && !st'.attached && st'.sent == DetachSent(st.sent, log, n)
  {
  }

  lemma GoodOnDisk(k: Site, a: St, b: St, hist: seq<Event>)
    requires Forward(k) && Good(k, a) && a.hist == hist && b.called == a.called && a.stamps <= b.stamps
    requires a.pending == None && b.pending == None
    ensures Good(k, b.(log := a.log, messages := [], hist := hist))
  {
    assert forall i :: 0 <= i < |a.log| ==> a.log[i].ts <= k.clock(b.stamps);
  }

  /** A request of the cutting invocation: legal as before, but the log knows nothing of its prompt. */
  lemma LostRequest(r: Sent, log: seq<Stamped>, first: seq<Msg>, text: string)
    requires RequestOk(r) && first == Prefix(log) + Repair(Conversation(log)).msgs + [User(text)] && first <= r.msgs
    ensures RequestOk(r.(log := log, attached := false))
  {
    assert |r.msgs| > |Prefix(log) + Repair(Conversation(log)).msgs|;
  }

  lemma LostRequests(sent: seq<Sent>, log: seq<Stamped>, n: nat, first: seq<Msg>, text: string)
    requires n <= |sent| && RequestsOk(sent, n)
    requires first == Prefix(log) + Repair(Conversation(log)).msgs + [User(text)]
    requires forall j :: n <= j < |sent| ==> first <= sent[j].msgs
    ensures RequestsOk(DetachSent(sent, log, n), n)
  {
    hide RequestOk;
    forall j | n <= j < |sent| ensures RequestOk(DetachSent(sent, log, n)[j]) {
      LostRequest(sent[j], log, first, text);
    }
  }

  lemma CloseLost(k: Site, st: St, reason: EndReason)
    requires !st.attached
    ensures Close(k, st, reason) == st.(stamps := st.stamps + 1)
  {
  }

  lemma FirstOfShadow(k: Site, b: St, log: seq<Stamped>, text: string)
    requires Running(k, b, Conversation(log), [User(text)]) && Prefix(b.log) == Prefix(log)
    ensures InMemory(b, Conversation(log), [User(text)])
    ensures b.messages == Prefix(log) + Repair(Conversation(log)).msgs + [User(text)]
  {
  }

  lemma CutRequests(k: Site, st: St, inv: Invocation)
    requires Forward(k) && Good(k, st) && Cuts(k, st, inv) && Distinct(Invoke(k, st, inv).0.called)
    ensures
      var st' := Invoke(k, st, inv).0;
      |st.sent| <= |st'.sent| && RequestsOk(st'.sent, |st.sent|)
  {
    hide *;
    CutMeans(k, st, inv);
    var st0, n := Begun(k, st), |st.sent|;
    var log := st0.log[CutAt(k, st0.log)..];
    var b, x := Shadow(k, st, inv), Conversation(log);
    var l := Loop(b, Gate.NEW, 0, false);
    var end := Turns(k, l, inv.cfg, inv.world, false, x).0;
    ShadowKeeps(k, st, inv);
    CutIsShadow(k, st, inv);
    InvokeIs(k, st, inv);
    DetachIs(end, log, n);
    FirstOfShadow(k, b, log, inv.cont.text);
    TurnsExtend(k, l, inv.cfg, inv.world, false, x, [User(inv.cont.text)]);
    LostRequests(end.sent, log, n, b.messages, inv.cont.text);
  }

  /** The parked calls can be run. */
  predicate Runnable(k: Site, ps: Option<seq<Pending>>) {
    ps.Some? ==>
      ps.value != [] &&
      forall i :: 0 <= i < |ps.value| && ps.value[i].kind == CommandTool ==> k.commandParses(ps.value[i].args)
  }

  predicate AllTouched(hist: seq<Event>, ids: set<string>) {
    forall id :: id in ids ==> !Untouched(hist, id)
  }

  lemma TouchedStay(a: seq<Event>, b: seq<Event>, ids: set<string>)
    requires a <= b && AllTouched(a, ids)
    ensures AllTouched(b, ids)
  {
    forall id | id in ids ensures !Untouched(b, id) { TouchedStays(a, b, id); }
  }

  /** A history and a call list as of a good state `end`, over an older log. */
  lemma OlderLogGoodIff(k: Site, before: St, end: St, st: St)
    requires Forward(k) && Good(k, before) && Good(k, end)
    requires st.log == before.log && before.stamps <= st.stamps
    requires st.hist == end.hist && st.called == end.called && st.pending == end.pending
    requires before.called <= end.called
    requires AllTouched(end.hist, OpenAfter(Conversation(st.log), {}))
    requires NotIn(end.pending, CallIds(Conversation(st.log)))
    ensures Good(k, st) <==> st.pending == None && OpenAfter(Conversation(st.log), {}) == {}
  {
    var x := Conversation(st.log);
    OpenAreCalls(x, {});
    if Good(k, st) {
      assert forall id :: id in OpenAfter(x, {}) ==> Untouched(st.hist, id);
      PendingIsOpen(k, st.pending, OpenAfter(x, {}));
    }
    if st.pending == None && OpenAfter(x, {}) == {} {
      assert forall i :: 0 <= i < |st.log| ==> st.log[i].ts <= k.clock(st.stamps);
    }
  }

  lemma NotInFewer(ps: Option<seq<Pending>>, fewer: seq<string>, called: seq<string>)
    requires NotIn(ps, called) && Within(fewer, called)
    ensures NotIn(ps, fewer)
  {
  }

  lemma GoodParts(k: Site, st: St)
    requires Good(k, st)
    ensures Within(CallIds(Conversation(st.log)), st.called) && AtMostOnce(st.hist) && Runnable(k, st.pending)
  {
  }

  /** What a cutting invocation leaves is good if and only if it found no call open and parked none; every
      call it parks can be run, and none of them is in the log. */
  lemma CutLeaves(k: Site, st: St, inv: Invocation)
    requires Forward(k) && Good(k, st) && Cuts(k, st, inv) && Distinct(Invoke(k, st, inv).0.called)
    ensures
      var st' := Invoke(k, st, inv).0;
      && (Good(k, st') <==> st'.pending == None && OpenAfter(Conversation(st.log), {}) == {})
      && NotIn(st'.pending, CallIds(Conversation(st'.log)))
      && Runnable(k, st'.pending) && AtMostOnce(st'.hist)
  {
    hide *;
    CutMeans(k, st, inv);
    var st0, n := Begun(k, st), |st.sent|;
    var log := st0.log[CutAt(k, st0.log)..];
    var b, x := Shadow(k, st, inv), Conversation(log);
    var l := Loop(b, Gate.NEW, 0, false);
    var (end, reason) := Turns(k, l, inv.cfg, inv.world, false, x);
    var st2 := Detach(end, log, n);
    ShadowKeeps(k, st, inv);
    CutIsShadow(k, st, inv);
    InvokeIs(k, st, inv);
    DetachIs(end, log, n);
    CloseLost(k, st2, reason);
    RunningParts(k, b, x, [User(inv.cont.text)]);
    TurnsOnward(k, l, inv.cfg, inv.world, false, x);
    OnwardParts(b, end);
    TurnsCalled(k, l, inv.cfg, inv.world, false, x);
    TurnsParkFresh(k, l, inv.cfg, inv.world, false, x);
    var c := b.(log := log, messages := [], hist := st.hist);
    LiveIs(k, end);
    GoodParts(k, c);
    GoodParts(k, end);
    NotInFewer(end.pending, CallIds(x), b.called);
    TouchedStay(b.hist, end.hist, OpenAfter(x, {}));
    OlderLogGoodIff(k, c, end, st2.(stamps := st2.stamps + 1));
  }

  lemma OnwardParts(a: St, b: St)
    requires Onward(a, b)
    ensures a.hist <= b.hist && a.stamps <= b.stamps && a.sent <= b.sent
  {
  }
}
