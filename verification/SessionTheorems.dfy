/** The theorems about whole sessions: any sequence of tell and approve invocations, in any world, with
    call ids that are never reused and no timestamp tie where a compaction cuts. A prune puts a new file on
    the log's path under the open append handle, and what that costs is exact. */
module SessionTheorems {
  import opened Options
  import opened Transcript
  import opened TranscriptRepair
  import opened RepairLaws
  import opened OpenCalls
  import opened SessionLog
  import opened Prune
  import opened Tell
  import opened Requests
  import opened SessionState
  import opened TellLaws
  import opened TurnLaws
  import opened CompactLaws
  import opened LogHandle
  import opened InvocationLaws
  import Gate

  // ---- one invocation ----

  /** One invocation from a good state, in any world: every request it sends is a legal transcript, and the log
      at that moment rebuilds it if and only if the invocation does not cut its log; no call is run twice or
      after its answer; and it ends in a good state if and only if it does not cut, or finds no call open and
      parks none. */
  lemma InvocationKeeps(k: Site, st: St, inv: Invocation)
    requires Forward(k) && Good(k, st) && Distinct(Invoke(k, st, inv).0.called) && Ticks(k, st, inv)
    ensures
      var st' := Invoke(k, st, inv).0;
      && (Good(k, st') <==> Harmless(k, st, inv)) && AtMostOnce(st'.hist)
      && st.sent <= st'.sent && st.called <= st'.called
      && RequestsOk(st'.sent, |st.sent|) && SentWith(st'.sent, |st.sent|, !Cuts(k, st, inv))
  {
    hide *;
    RecordsReachLogIff(k, st, inv);
    InvocationCalled(k, st, inv);
    HarmlessIs(k, st, inv);
    if Cuts(k, st, inv) {
      CutRequests(k, st, inv);
      CutLeaves(k, st, inv);
    } else {
      UncutKeeps(k, st, inv);
      LiveIs(k, Invoke(k, st, inv).0);
      GoodParts(k, Invoke(k, st, inv).0);
    }
  }

  lemma HarmlessIs(k: Site, st: St, inv: Invocation)
    ensures Harmless(k, st, inv) <==>
      (Cuts(k, st, inv) ==> OpenAfter(Conversation(st.log), {}) == {} && Invoke(k, st, inv).0.pending == None)
  {
  }

  // ---- whole sessions ----

  /** Every session, in any world: if no call id is ever reused, no timestamp ties at a compaction's cut, and an
      invocation that cuts its log finds no call open and parks none, then each request of the session is a legal
      transcript, and is exactly what reloading and repairing the log at that moment rebuilds unless its
      invocation had cut the log; no call is run twice, or after it was answered or cancelled; and a pending set
      can be approved. */
  lemma {:induction false} SessionKeeps(k: Site, invs: seq<Invocation>)
    requires Forward(k) && Distinct(Session(k, invs).called) && Ticked(k, invs)
    ensures
      var st := Session(k, invs);
      Good(k, st) && RequestsOk(st.sent, 0) && AtMostOnce(st.hist)
  {
    if invs == [] {
      EmptyIsGood(k);
    } else {
      var before, last := invs[..|invs| - 1], invs[|invs| - 1];
      assert Session(k, invs) == Invoke(k, Session(k, before), last).0;
      assert Ticked(k, before) && Ticks(k, Session(k, before), last) && Harmless(k, Session(k, before), last);
      hide *;
      InvocationCalled(k, Session(k, before), last);
      PrefixDistinct(Session(k, before).called, Session(k, invs).called);
      SessionKeeps(k, before);
      InvocationKeeps(k, Session(k, before), last);
      AllRequestsOk(Session(k, before).sent, Session(k, invs).sent);
    }
  }

  lemma EmptyIsGood(k: Site)
    ensures Good(k, EMPTY)
  {
    var x := Conversation(EMPTY.log);
    assert Records([]) == [] && Load([]) == [] && x == [];
    assert CallIds(x) == [] && OpenAfter(x, {}) == {} && Grouped(x, {});
    hide Conversation, Load, Records, CallIds, OpenAfter, Grouped;
    assert Chronological([]);
  }

  lemma AllRequestsOk(a: seq<Sent>, b: seq<Sent>)
    requires a <= b && RequestsOk(a, 0) && RequestsOk(b, |a|)
    ensures RequestsOk(b, 0)
  {
    assert forall j :: 0 <= j < |a| ==> b[j] == a[j];
  }

  lemma {:induction false} OpenIsLastTurn(ms: seq<Msg>, id: string) returns (i: nat)
    requires id in OpenAfter(ms, {})
    ensures i < |ms| && ms[i].Assistant? && id in IdsOf(ms[i]) && LastCalls(ms) == ms[i].calls
    ensures forall j :: i < j < |ms| ==> ms[j].Tool? && ms[j].id != id
  {
    var n := |ms| - 1;
    assert ms == ms[..n] + [ms[n]];
    GroupedAppend(ms[..n], [ms[n]], {});
    if ms[n].Assistant? {
      IdsAreIdSet(ms[n].calls);
      i := n;
    } else {
      i := OpenIsLastTurn(ms[..n], id);
    }
  }

  /** In a good state, a pending call is a call of the last assistant record, with its name and arguments and
      under the kind of its name; only tool results follow that record, none answers it, and it was never run. */
  lemma PendingBelongsToLastTurn(k: Site, st: St, p: Pending) returns (i: nat)
    requires Good(k, st) && st.pending.Some? && p in st.pending.value
    ensures
      var x := Conversation(st.log);
      && i < |x| && x[i].Assistant? && p.id in IdsOf(x[i])
      && ToolCall(p.id, p.name, p.args) in x[i].calls && p.kind == Classify(p.name)
      && (forall j :: i < j < |x| ==> x[j].Tool? && x[j].id != p.id)
      && Untouched(st.hist, p.id)
  {
    i := OpenIsLastTurn(Conversation(st.log), p.id);
    var n :| 0 <= n < |st.pending.value| && st.pending.value[n] == p;
    assert IsCall(st.pending.value[n], LastCalls(Conversation(st.log)));
  }

  // ---- approving after a cut ----

  /** Runnable calls are all run. */
  lemma {:induction false} ExecuteFinishes(k: Site, st: St, w: World, ps: seq<Pending>, i: nat)
    requires i <= |ps| && Runnable(k, Some(ps))
    ensures
      var (st', ok) := Execute(k, st, w, ps, i);
      ok && forall j :: i <= j < |ps| ==> Ran(ps[j].id) in st'.hist
    decreases |ps| - i
  {
    if i < |ps| {
      var st1 := Append(k, st, ToolApproval(ps[i].id, true, false));
      var st2 := st1.(hist := st1.hist + [Ran(ps[i].id)]);
      var st3 := AppendTool(k, st2, ps[i].id, w.executed(i));
      ExecuteFinishes(k, st3, w, ps, i + 1);
      ExecuteOnward(k, st3, w, ps, i + 1);
      assert st3.hist[|st1.hist|] == Ran(ps[i].id);
    }
  }

  lemma ApprovalStarts(k: Site, st: St, inv: Invocation)
    requires inv.cont == Approve && inv.world.grantOk && st.pending.Some? && Runnable(k, st.pending)
    ensures
      var (st', base, ready) := Start(k, st, inv);
      var ps, x := st.pending.value, Conversation(st.log);
      && ready && InMemory(st', base, []) && st'.sent == st.sent
      && |base| == |x| + |ps| && x <= base
      && forall i :: 0 <= i < |ps| ==>
           base[|x| + i] == Tool(ps[i].id, inv.world.executed(i)) && Ran(ps[i].id) in st'.hist
  {
    var ps, x := st.pending.value, Conversation(st.log);
    var st2 := st.(messages := InitialMessages(st.log));
    ExecuteFinishes(k, st2, inv.world, ps, 0);
    var tools := ExecuteAdds(k, st2, inv.world, ps, 0);
    var st3 := Execute(k, st2, inv.world, ps, 0).0;
    ConcatAssoc(Prefix(st.log), x, tools);
    assert AfterPrefix(st3.log, st3.messages) == x + tools;
    RepairOrphansInMemory(k, st3.(pending := None), x + tools);
    HealOnward(k, st3.(pending := None), Repair(st3.messages).orphans);
    hide Execute, Conversation, Prefix, InitialMessages, Heal, Repair, Runnable;
    assert Start(k, st, inv) == (RepairOrphans(k, st3.(pending := None)), x + tools, true);
  }

  /** What an approve with a pending set sends first, from any state: the conversation it loads, and the results
      of the calls it has just run. */
  lemma ApprovalSends(k: Site, st: St, inv: Invocation)
    requires inv.cont == Approve && inv.world.grantOk && inv.cfg.maxTurns > 0
    requires st.pending.Some? && Runnable(k, st.pending)
    ensures
      var st', ps, x := Invoke(k, st, inv).0, st.pending.value, Conversation(st.log);
      && |st'.sent| > |st.sent| && |st'.sent[|st.sent|].base| == |x| + |ps| && x <= st'.sent[|st.sent|].base
      && forall i :: 0 <= i < |ps| ==>
           st'.sent[|st.sent|].base[|x| + i] == Tool(ps[i].id, inv.world.executed(i)) && Ran(ps[i].id) in st'.hist
  {
    hide *;
    BegunIs(k, st);
    InvokeIs(k, st, inv);
    var st0 := Begun(k, st);
    ApprovalStarts(k, st0, inv);
    var (st1, base, ready) := Start(k, st0, inv);
    var l := Loop(st1, Gate.NEW, 0, false);
    DriveIs(k, st0, inv);
    TurnsFirst(k, l, inv.cfg, inv.world, true, base, []);
    TurnsOnward(k, l, inv.cfg, inv.world, true, base);
    OnwardParts(st1, Turns(k, l, inv.cfg, inv.world, true, base).0);
  }

  lemma DriveIs(k: Site, st: St, inv: Invocation)
    ensures
      var (st1, base, ready) := Start(k, st, inv);
      ready ==>
        Drive(k, st, inv) == Turns(k, Loop(st1, Gate.NEW, 0, false), inv.cfg, inv.world, inv.cont.Approve?, base)
  {
  }

  lemma StrayAnswer(x: seq<Msg>, base: seq<Msg>, id: string, content: string)
    requires x <= base && |base| > |x| && base[|x|] == Tool(id, content) && id !in CallIds(x)
    ensures !AnswersFollowCalls(base)
  {
    forall j | 0 <= j < |x| ensures id !in IdsOf(base[j]) {
      if id in IdsOf(x[j]) { CallIdsMember(x, j, id); }
    }
  }

  /** When an invocation cuts its log and then parks calls, the pending set names calls whose record is not in
      the log. The next approve runs them, and the request it then sends is not a legal transcript. */
  lemma ApproveAfterCutFails(k: Site, st: St, inv: Invocation, approve: Invocation)
    requires Forward(k) && Good(k, st) && Cuts(k, st, inv) && Distinct(Invoke(k, st, inv).0.called)
    requires Invoke(k, st, inv).0.pending.Some?
    requires approve.cont == Approve && approve.world.grantOk && approve.cfg.maxTurns > 0
    ensures
      var st1 := Invoke(k, st, inv).0;
      var st2 := Invoke(k, st1, approve).0;
      && |st2.sent| > |st1.sent| && !Closed(st2.sent[|st1.sent|].msgs)
      && forall p :: p in st1.pending.value ==> p.id !in CallIds(Conversation(st1.log)) && Ran(p.id) in st2.hist
  {
    hide *;
    CutLeaves(k, st, inv);
    var st1 := Invoke(k, st, inv).0;
    var ps := st1.pending.value;
    RunnableIs(k, ps);
    ApprovalSends(k, st1, approve);
    NotInIs(ps, CallIds(Conversation(st1.log)));
    StrayAnswer(Conversation(st1.log), Invoke(k, st1, approve).0.sent[|st1.sent|].base, ps[0].id,
                approve.world.executed(0));
    RequestsClosedIff(k, st1, approve, |st1.sent|);
  }

  lemma RunnableIs(k: Site, ps: seq<Pending>)
    requires Runnable(k, Some(ps))
    ensures ps != []
  {
  }

  lemma NotInIs(ps: seq<Pending>, ids: seq<string>)
    requires NotIn(Some(ps), ids)
    ensures forall p :: p in ps ==> p.id !in ids
  {
  }

  // ---- retry ----

  lemma DriveFault(k: Site, st0: St, inv: Invocation)
    requires Forward(k) && Live(k, st0) && Distinct(Drive(k, st0, inv).0.called)
    requires inv.cont.Prompt? ==> CompactTicks(k, st0, inv.cfg, inv.world) && !Pruned(k, st0)
    requires Drive(k, st0, inv).1 == TransportError
    ensures
      var st' := Drive(k, st0, inv).0;
      |st'.sent| > |st0.sent| && st'.sent[|st'.sent| - 1].log == st'.log && st'.pending == None
  {
    var (st1, base, ready) := Start(k, st0, inv);
    hide Live, Running, Start, Turns, Forward, CompactTicks, Pruned;
    var s := StartRuns(k, st0, inv);
    TurnsFault(k, Loop(st1, Gate.NEW, 0, false), inv.cfg, inv.world, inv.cont.Approve?, base, s);
  }

  lemma LastRequestOk(sent: seq<Sent>, from: nat, attached: bool)
    requires from < |sent| && RequestsOk(sent, from) && SentWith(sent, from, attached)
    ensures Closed(sent[|sent| - 1].msgs) && (Rebuilt(sent[|sent| - 1]) <==> attached)
  {
  }

  /** How an invocation that failed in transport without a cut leaves the session. */
  lemma FaultLeaves(k: Site, st: St, inv: Invocation)
    requires Forward(k) && Good(k, st) && Distinct(Invoke(k, st, inv).0.called) && Ticks(k, st, inv)
    requires Invoke(k, st, inv).1 == TransportError && !Cuts(k, st, inv)
    ensures
      var st' := Invoke(k, st, inv).0;
      && st'.sent != [] && st'.pending == None && LastEnd(st'.log) == Some(TransportError)
      && st'.sent[|st'.sent| - 1].msgs == Prefix(st'.log) + Repair(Conversation(st'.log)).msgs
  {
    hide *;
    var st0 := Begun(k, st);
    var (st2, reason) := Drive(k, st0, inv);
    InvokeIs(k, st, inv);
    BegunIs(k, st);
    BegunIsLive(k, st);
    TicksAtStart(k, st, inv);
    DriveFault(k, st0, inv);
    DriveKeeps(k, st0, inv);
    CloseIsLive(k, st2, reason);
    RecordsReachLogIff(k, st, inv);
    LastRequestOk(st2.sent, |st0.sent|, true);
    RebuiltIs(st2.sent[|st2.sent| - 1]);
  }

  lemma RebuiltIs(r: Sent)
    ensures Rebuilt(r) <==> r.msgs == Prefix(r.log) + Repair(Conversation(r.log)).msgs
  {
  }

  /** What an approve with nothing pending adds to the conversation: nothing after a transport fault, or else a
      resume prompt. */
  function Resumed(log: seq<Stamped>): seq<Msg> {
    if LastEnd(log) == Some(TransportError) then [] else [User(ResumePromptFor(LastEnd(log)))]
  }

  lemma ResumeStarts(k: Site, st: St, inv: Invocation)
    requires st.pending == None && inv.cont == Approve
    ensures
      var (st', base, ready) := Start(k, st, inv);
      && ready && InMemory(st', base, Resumed(st.log)) && st'.sent == st.sent
      && st'.messages == Prefix(st.log) + Repair(Conversation(st.log)).msgs + Resumed(st.log)
  {
    var x := Conversation(st.log);
    var st2 := st.(messages := InitialMessages(st.log));
    var st3 := RepairOrphans(k, st2);
    RepairOrphansInMemory(k, st2, x);
    RepairKeepsPrefix(k, st2);
    hide Conversation, Prefix, Repair, RepairOrphans, AppendMsg, LastEnd;
    var p := Prefix(st.log) + Repair(x).msgs;
    assert p + [] == p;
    if Normalise(st, inv.cont).Prompt? {
      var u := User(ResumePromptFor(LastEnd(st.log)));
      AppendMsgAdds(k, st3, u);
      UserIsClosed(u.text);
      InMemoryGrows(st3, AppendMsg(k, st3, u), x, [], [u]);
      assert [] + [u] == [u];
      assert Start(k, st, inv) == (AppendMsg(k, st3, u), x, true);
    } else {
      assert Start(k, st, inv) == (st3, x, true);
    }
  }

  /** What an approve with nothing pending sends first, from any state. */
  lemma ResumeSends(k: Site, st: St, inv: Invocation)
    requires st.pending == None && inv.cont == Approve && inv.cfg.maxTurns > 0
    ensures
      var st' := Invoke(k, st, inv).0;
      && |st'.sent| > |st.sent|
      && st'.sent[|st.sent|].msgs == Prefix(st.log) + Repair(Conversation(st.log)).msgs + Resumed(st.log)
  {
    hide *;
    BegunIs(k, st);
    InvokeIs(k, st, inv);
    var st0 := Begun(k, st);
    ResumeStarts(k, st0, inv);
    var (st1, base, ready) := Start(k, st0, inv);
    DriveIs(k, st0, inv);
    TurnsFirst(k, Loop(st1, Gate.NEW, 0, false), inv.cfg, inv.world, true, base, Resumed(st0.log));
    ResumedSame(st0.log, st.log);
  }

  lemma ResumedSame(a: seq<Stamped>, b: seq<Stamped>)
    requires LastEnd(a) == LastEnd(b)
    ensures Resumed(a) == Resumed(b)
  {
  }

  /** How an invocation that cut its log and then failed in transport leaves the session. */
  lemma FaultAfterCut(k: Site, st: St, inv: Invocation)
    requires Forward(k) && Good(k, st) && Distinct(Invoke(k, st, inv).0.called)
    requires Invoke(k, st, inv).1 == TransportError && Cuts(k, st, inv)
    ensures
      var st' := Invoke(k, st, inv).0;
      && st'.sent != [] && st'.pending == None
      && Prefix(st'.log) + Repair(Conversation(st'.log)).msgs + [User(inv.cont.text)]
         <= st'.sent[|st'.sent| - 1].msgs
  {
    hide *;
    CutMeans(k, st, inv);
    var st0 := Begun(k, st);
    var log := st0.log[CutAt(k, st0.log)..];
    var b, x, s := Shadow(k, st, inv), Conversation(log), [User(inv.cont.text)];
    var l := Loop(b, Gate.NEW, 0, false);
    var end := Turns(k, l, inv.cfg, inv.world, false, x).0;
    ShadowKeeps(k, st, inv);
    CutIsShadow(k, st, inv);
    InvokeIs(k, st, inv);
    RecordsReachLogIff(k, st, inv);
    DetachIs(end, log, |st.sent|);
    FirstOfShadow(k, b, log, inv.cont.text);
    TurnsFault(k, l, inv.cfg, inv.world, false, x, s);
    TurnsExtend(k, l, inv.cfg, inv.world, false, x, s);
  }

  /** An approve right after an invocation that failed in transport sends exactly the message list that failed,
      if the failed invocation did not cut its log. If it did, its prompt is gone: the list that failed is sent
      only if that prompt happened to be the resume prompt. */
  lemma RetryResendsRequest(k: Site, st: St, failed: Invocation, retry: Invocation)
    requires Forward(k) && Good(k, st) && Ticks(k, st, failed)
    requires Invoke(k, st, failed).1 == TransportError
    requires retry.cont == Approve && retry.cfg.maxTurns > 0
    requires Distinct(Invoke(k, st, failed).0.called)
    ensures
      var st1 := Invoke(k, st, failed).0;
      var st2 := Invoke(k, st1, retry).0;
      && |st1.sent| > 0 && |st2.sent| > |st1.sent|
      && (st2.sent[|st1.sent|].msgs == st1.sent[|st1.sent| - 1].msgs ==>
            !Cuts(k, st, failed) || [User(failed.cont.text)] == Resumed(st1.log))
      && (!Cuts(k, st, failed) ==> st2.sent[|st1.sent|].msgs == st1.sent[|st1.sent| - 1].msgs)
  {
    hide *;
    var st1 := Invoke(k, st, failed).0;
    var p := Prefix(st1.log) + Repair(Conversation(st1.log)).msgs;
    if Cuts(k, st, failed) {
      CutMeans(k, st, failed);
      FaultAfterCut(k, st, failed);
      ResumeSends(k, st1, retry);
      ResumedShort(st1.log);
      SameTail(p, failed.cont.text, Resumed(st1.log), st1.sent[|st1.sent| - 1].msgs);
    } else {
      FaultLeaves(k, st, failed);
      ResumeSends(k, st1, retry);
      ResumedAfterFault(st1.log);
      assert p + [] == p;
    }
  }

  lemma ResumedShort(log: seq<Stamped>)
    ensures |Resumed(log)| <= 1
  {
  }

  lemma ResumedAfterFault(log: seq<Stamped>)
    requires LastEnd(log) == Some(TransportError)
    ensures Resumed(log) == []
  {
  }

  lemma SameTail(p: seq<Msg>, text: string, resumed: seq<Msg>, lost: seq<Msg>)
    requires p + [User(text)] <= lost && |resumed| <= 1
    ensures lost == p + resumed ==> [User(text)] == resumed
  {
    if lost == p + resumed {
      assert lost[|p|] == User(text);
    }
  }
}
