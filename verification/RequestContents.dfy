/** What a request contains, from any state and for every kind of invocation: the newest summary, the notes, the
    repaired conversation, and what the invocation adds. Nothing here mentions how the list is built. */
module RequestContents {
  import opened Options
  import opened Transcript
  import opened TranscriptRepair
  import opened SessionLog
  import opened Tell
  import opened Requests
  import opened SessionState
  import opened TellLaws
  import opened TurnLaws
  import opened LogHandle
  import opened InvocationLaws
  import opened SessionTheorems
  import opened LogReading
  import Gate

  /** What stands before the conversation: the newest summary recorded, if any, and the two notes. */
  ghost predicate Opens(log: seq<Stamped>, front: seq<Msg>) {
    && (forall i: nat :: NewestSummary(log, i) ==>
          front == [System("# Prior conversation summary\n\n" + log[i].rec.text), System(SCRATCHPAD_NOTE),
                    System(BATCHING_NOTE)])
    && ((forall i :: 0 <= i < |log| ==> !log[i].rec.Summary?) ==>
          front == [System(SCRATCHPAD_NOTE), System(BATCHING_NOTE)])
  }

  lemma PrefixOpens(log: seq<Stamped>)
    ensures Opens(log, Prefix(log))
  {
    SummaryIs(log);
  }

  /** There is only one such front. */
  lemma OneFront(log: seq<Stamped>, a: seq<Msg>, b: seq<Msg>)
    requires Opens(log, a) && Opens(log, b)
    ensures a == b
  {
    if exists i :: 0 <= i < |log| && log[i].rec.Summary? {
      var i := LastSummary(log);
      assert NewestSummary(log, i);
    }
  }

  lemma {:induction false} LastSummary(log: seq<Stamped>) returns (i: nat)
    requires exists i :: 0 <= i < |log| && log[i].rec.Summary?
    ensures NewestSummary(log, i)
  {
    i := |log| - 1;
    if !log[i].rec.Summary? {
      i := LastSummary(log[..|log| - 1]);
      assert log[..|log| - 1][i] == log[i];
    }
  }

  // ---- every request ----

  /** The request starts with the front its log calls for and the repaired conversation. */
  ghost predicate StartsRight(r: Sent) {
    exists n :: 0 <= n <= |r.msgs| && Opens(r.log, r.msgs[..n]) && Repair(r.base).msgs <= r.msgs[n..]
  }

  lemma SentStarts(st: St, base: seq<Msg>, s: seq<Msg>)
    requires InMemory(st, base, s)
    ensures StartsRight(Sent(st.messages, st.log, base, st.attached))
  {
    hide Prefix, Repair, Opens, Closed;
    PrefixOpens(st.log);
    Sliced(Prefix(st.log), Repair(base).msgs, s);
  }

  lemma Sliced(p: seq<Msg>, r: seq<Msg>, s: seq<Msg>)
    ensures (p + r + s)[..|p|] == p && r <= (p + r + s)[|p|..]
  {
  }

  lemma {:induction false} TurnsStart(k: Site, l: Loop, cfg: Config, w: World, byApprove: bool, base: seq<Msg>,
                                      s: seq<Msg>)
    requires InMemory(l.st, base, s)
    ensures
      var sent := Turns(k, l, cfg, w, byApprove, base).0.sent;
      l.st.sent <= sent && forall j :: |l.st.sent| <= j < |sent| ==> StartsRight(sent[j])
    decreases cfg.maxTurns - l.turn
  {
    if l.turn < cfg.maxTurns {
      hide Turn, InMemory, Turns, StartsRight;
      SentStarts(l.st, base, s);
      TurnsUnroll(k, l, cfg, w, byApprove, base);
      TurnSent(k, l, cfg, w, byApprove, base, s);
      var s' := TurnKeeps(k, l, cfg, w, byApprove, base, s);
      var t := Turn(k, l, cfg, w, byApprove, base);
      if t.Again? { TurnsStart(k, t.next, cfg, w, byApprove, base, s'); }
    } else {
      TurnsEnd(k, l, cfg, w, byApprove, base);
    }
  }

  /** From any state and in any world, every request of an invocation opens with the newest summary its log holds, if
      it holds one, then the two notes, then the repaired conversation. */
  lemma RequestsStartRight(k: Site, st: St, inv: Invocation, j: nat)
    requires |st.sent| <= j < |Invoke(k, st, inv).0.sent|
    ensures StartsRight(Invoke(k, st, inv).0.sent[j])
  {
    var (st1, base, ready) := Start(k, Begun(k, st), inv);
    var s := InvokeSends(k, st, inv);
    hide Start, Turns, Invoke, InMemory, StartsRight;
    if ready { TurnsStart(k, Loop(st1, Gate.NEW, 0, false), inv.cfg, inv.world, inv.cont.Approve?, base, s); }
  }

  // ---- the first request of each kind of invocation ----

  /** The first request after `st`: the front for `log`, the repaired `base`, then `added`. */
  ghost predicate First(st: St, st': St, log: seq<Stamped>, base: seq<Msg>, added: seq<Msg>) {
    && |st'.sent| > |st.sent|
    && exists front :: Opens(log, front) && st'.sent[|st.sent|].msgs == front + Repair(base).msgs + added
  }

  /** A prompt sends the loaded conversation, repaired, and its text; from any state, whether or not the log was cut
      or folded on the way. */
  lemma PromptSends(k: Site, st: St, inv: Invocation)
    requires inv.cont.Prompt? && inv.cfg.maxTurns > 0
    ensures
      var log := AutoCompact(k, Begun(k, st), inv.cfg, inv.world).log;
      First(st, Invoke(k, st, inv).0, log, Msgs(Uncovered(log, log)), [User(inv.cont.text)])
  {
    hide *;
    var st0 := Begun(k, st);
    var st1 := AutoCompact(k, st0, inv.cfg, inv.world);
    var st2 := st1.(messages := InitialMessages(st1.log));
    BegunIs(k, st);
    InvokeIs(k, st, inv);
    CompactSends(k, st0, inv.cfg, inv.world);
    PromptInMemory(k, st2, inv.cont.text);
    PromptStartIs(k, st0, inv);
    DriveIs(k, st0, inv);
    var b := Prompted(k, st1, inv.cont.text);
    var x, s := Conversation(st1.log), [User(inv.cont.text)];
    PromptedIs(k, st1, inv.cont.text);
    TurnsFirst(k, Loop(b, Gate.NEW, 0, false), inv.cfg, inv.world, false, x, s);
    MemoryIs(b, x, s);
    PrefixOpens(st1.log);
    ConversationIs(st1.log);
    FirstIs(st, Invoke(k, st, inv).0, st1.log, Prefix(st1.log), x, s);
  }

  lemma PromptStartIs(k: Site, st: St, inv: Invocation)
    requires inv.cont.Prompt?
    ensures
      var st1 := AutoCompact(k, st, inv.cfg, inv.world);
      Start(k, st, inv) == (Prompted(k, st1, inv.cont.text), Conversation(st1.log), true) && !inv.cont.Approve?
  {
    hide AutoCompact, Conversation, InitialMessages, RepairOrphans, AppendMsg;
  }

  lemma PromptedIs(k: Site, st: St, text: string)
    ensures Prompted(k, st, text) ==
            AppendMsg(k, RepairOrphans(k, st.(messages := InitialMessages(st.log))), User(text))
    ensures Prefix(Prompted(k, st, text).log) == Prefix(st.log)
  {
    var st2 := st.(messages := InitialMessages(st.log));
    RepairKeepsPrefix(k, st2);
    AppendMsgAdds(k, RepairOrphans(k, st2), User(text));
  }

  lemma MemoryIs(st: St, base: seq<Msg>, s: seq<Msg>)
    requires InMemory(st, base, s)
    ensures st.messages == Prefix(st.log) + Repair(base).msgs + s
  {
  }

  lemma ConversationIs(log: seq<Stamped>)
    ensures Conversation(log) == Msgs(Uncovered(log, log))
  {
    LoadIs(log);
  }

  lemma FirstIs(st: St, st': St, log: seq<Stamped>, front: seq<Msg>, base: seq<Msg>, added: seq<Msg>)
    requires |st'.sent| > |st.sent| && Opens(log, front)
    requires st'.sent[|st.sent|].msgs == front + Repair(base).msgs + added
    ensures First(st, st', log, base, added)
  {
  }

  /** What an approve without a pending set adds, by the newest recorded end. */
  ghost predicate Resumes(log: seq<Stamped>, added: seq<Msg>) {
    && (forall i: nat :: NewestEnd(log, i) ==>
          added ==
            if log[i].rec.reason == TransportError then []
            else [User(if log[i].rec.reason == MaxTurns then RESUME_AFTER_MAX_TURNS else RESUME_PROMPT)])
    && ((forall i :: 0 <= i < |log| ==> !log[i].rec.InvocationEnd?) ==> added == [User(RESUME_PROMPT)])
  }

  /** An approve with nothing pending sends the repaired conversation: unchanged after a transport fault, and else with
      the prompt to go on that fits the last end. */
  lemma ResumeSendsRight(k: Site, st: St, inv: Invocation)
    requires st.pending == None && inv.cont == Approve && inv.cfg.maxTurns > 0
    ensures exists added ::
        Resumes(st.log, added) && First(st, Invoke(k, st, inv).0, st.log, Msgs(Uncovered(st.log, st.log)), added)
  {
    ResumedIs(st.log);
    hide *;
    ResumeSends(k, st, inv);
    PrefixOpens(st.log);
    ConversationIs(st.log);
    FirstIs(st, Invoke(k, st, inv).0, st.log, Prefix(st.log), Conversation(st.log), Resumed(st.log));
  }

  lemma ResumedIs(log: seq<Stamped>)
    ensures Resumes(log, Resumed(log))
  {
    EndIs(log);
  }

  function Results(ps: seq<Pending>, w: World): seq<Msg> {
    seq(|ps|, i requires 0 <= i < |ps| => Tool(ps[i].id, w.executed(i)))
  }

  lemma ResultsAre(base: seq<Msg>, x: seq<Msg>, ps: seq<Pending>, w: World)
    requires |base| == |x| + |ps| && x <= base
    requires forall i :: 0 <= i < |ps| ==> base[|x| + i] == Tool(ps[i].id, w.executed(i))
    ensures base == x + Results(ps, w)
  {
  }

  /** An approve with a pending set that can be run sends the loaded conversation with the results of its calls. */
  lemma ApprovalSendsRight(k: Site, st: St, inv: Invocation)
    requires inv.cont == Approve && inv.world.grantOk && inv.cfg.maxTurns > 0
    requires st.pending.Some? && Runnable(k, st.pending)
    ensures
      var x := Msgs(Uncovered(st.log, st.log));
      First(st, Invoke(k, st, inv).0, st.log, x + Results(st.pending.value, inv.world), [])
  {
    hide *;
    var x := Conversation(st.log);
    var st0 := Begun(k, st);
    BegunIs(k, st);
    InvokeIs(k, st, inv);
    ApprovalStarts(k, st0, inv);
    var (st1, base, ready) := Start(k, st0, inv);
    DriveIs(k, st0, inv);
    TurnsFirst(k, Loop(st1, Gate.NEW, 0, false), inv.cfg, inv.world, true, base, []);
    MemoryIs(st1, base, []);
    ApprovalKeepsPrefix(k, st0, inv);
    PrefixOpens(st.log);
    ConversationIs(st.log);
    ResultsAre(base, x, st.pending.value, inv.world);
    FirstIs(st, Invoke(k, st, inv).0, st.log, Prefix(st.log), base, []);
  }

  lemma ApprovalKeepsPrefix(k: Site, st: St, inv: Invocation)
    requires inv.cont == Approve && st.pending.Some?
    ensures Prefix(Start(k, st, inv).0.log) == Prefix(st.log)
  {
    var st2 := st.(messages := InitialMessages(st.log));
    var tools := ExecuteAdds(k, st2, inv.world, st.pending.value, 0);
    RepairKeepsPrefix(k, Execute(k, st2, inv.world, st.pending.value, 0).0.(pending := None));
    hide Execute, RepairOrphans, Prefix, InitialMessages, AfterPrefix;
  }

  /** An approve whose grant is not valid sends nothing, runs nothing, keeps the pending set, and fails. */
  lemma RefusedApproval(k: Site, st: St, inv: Invocation)
    requires inv.cont == Approve && st.pending.Some? && !inv.world.grantOk
    ensures
      var (st', reason) := Invoke(k, st, inv);
      && reason == Failed && st'.sent == st.sent && st'.hist == st.hist && st'.pending == st.pending
      && LastEnd(st'.log) == Some(Failed) && Conversation(st'.log) == Conversation(st.log)
  {
    var st0 := Begun(k, st);
    var st1 := st0.(messages := InitialMessages(st0.log));
    BegunIs(k, st);
    assert Start(k, st0, inv) == (st1, [], false);
    var end := k.clock(st1.stamps);
    var a, b := Stamped(end, MetricsSnapshot), Stamped(end, InvocationEnd(Failed));
    assert st1.log + [a, b] == (st1.log + [a]) + [b];
    QuietRecord(st1.log, a);
    QuietRecord(st1.log + [a], b);
    EndRecorded(st1.log, end, Failed);
    hide LastEnd, Load, InitialMessages, Begun;
  }

  /** The calls from `i` to before `n`, each run and answered. */
  function RunUpTo(ps: seq<Pending>, i: nat, n: nat): seq<Event>
    requires i <= n <= |ps|
    decreases n - i
  {
    if i == n then [] else [Ran(ps[i].id), Answered(ps[i].id)] + RunUpTo(ps, i + 1, n)
  }

  predicate Broken(k: Site, p: Pending) { p.kind == CommandTool && !k.commandParses(p.args) }

  lemma {:induction false} ExecuteStops(k: Site, st: St, w: World, ps: seq<Pending>, i: nat, n: nat)
    requires i <= n < |ps| && Broken(k, ps[n]) && forall j :: i <= j < n ==> !Broken(k, ps[j])
    ensures
      var (st', ok) := Execute(k, st, w, ps, i);
      && !ok && st'.pending == st.pending && st'.sent == st.sent && st'.called == st.called
      && st'.hist == st.hist + RunUpTo(ps, i, n)
    decreases n - i
  {
    if i == n {
      assert st.hist + [] == st.hist;
    } else {
      hide Execute, Append, AppendTool;
      var id := ps[i].id;
      var st1 := Append(k, st, ToolApproval(id, true, false));
      var st3 := AppendTool(k, st1.(hist := st1.hist + [Ran(id)]), id, w.executed(i));
      ExecuteUnroll(k, st, w, ps, i);
      ExecuteOneRuns(k, st, id, w.executed(i));
      ExecuteStops(k, st3, w, ps, i + 1, n);
      ConcatAssoc(st.hist, [Ran(id), Answered(id)], RunUpTo(ps, i + 1, n));
    }
  }

  lemma ExecuteOneRuns(k: Site, st: St, id: string, content: string)
    ensures
      var st1 := Append(k, st, ToolApproval(id, true, false));
      var st3 := AppendTool(k, st1.(hist := st1.hist + [Ran(id)]), id, content);
      && st3.pending == st.pending && st3.sent == st.sent && st3.called == st.called
      && st3.hist == st.hist + [Ran(id), Answered(id)]
  {
  }

  /** An approval that meets a command whose arguments do not parse runs the calls before it and no other, sends
      nothing, keeps the pending set, and fails; from any state. */
  lemma BrokenApproval(k: Site, st: St, inv: Invocation, n: nat)
    requires inv.cont == Approve && inv.world.grantOk && st.pending.Some? && n < |st.pending.value|
    requires Broken(k, st.pending.value[n]) && forall j :: 0 <= j < n ==> !Broken(k, st.pending.value[j])
    ensures
      var (st', reason) := Invoke(k, st, inv);
      && reason == Failed && st'.sent == st.sent && st'.pending == st.pending
      && st'.hist == st.hist + RunUpTo(st.pending.value, 0, n)
  {
    var st0 := Begun(k, st);
    var st2 := st0.(messages := InitialMessages(st0.log));
    BegunIs(k, st);
    ExecuteStops(k, st2, inv.world, st.pending.value, 0, n);
    hide Execute, InitialMessages, Begun, RunUpTo;
  }

  // ---- what repair and approval record ----

  /** Each cancellation: a rejection by repair, and the answer. */
  function Cancelled(lost: seq<Orphan>): seq<Record> {
    if lost == [] then []
    else
      var o := lost[0];
      [ToolApproval(o.id, false, true), Message(Tool(o.id, o.content))] + Cancelled(lost[1..])
  }

  /** Each approval: that it was approved by the human, and the tool's result. */
  function ApprovedFrom(ps: seq<Pending>, w: World, i: nat): seq<Record>
    requires i <= |ps|
    decreases |ps| - i
  {
    if i == |ps| then []
    else
      [ToolApproval(ps[i].id, true, false), Message(Tool(ps[i].id, w.executed(i)))] + ApprovedFrom(ps, w, i + 1)
  }

  lemma TwoRecs(k: Site, st: St, a: Record, b: Record)
    requires st.attached
    ensures Recs(Append(k, Append(k, st, a), b).log) == Recs(st.log) + [a, b]
  {
    hide Recs;
    RecsPush(st.log, Stamped(k.clock(st.stamps), a));
    RecsPush(Append(k, st, a).log, Stamped(k.clock(st.stamps + 1), b));
    assert Recs(st.log) + [a] + [b] == Recs(st.log) + [a, b];
  }

  lemma HealOneRecords(k: Site, st: St, o: Orphan)
    requires st.attached
    ensures
      var st' := HealOne(k, st, o);
      && Recs(st'.log) == Recs(st.log) + [ToolApproval(o.id, false, true), Message(Tool(o.id, o.content))]
      && st'.attached && st'.messages == st.messages
  {
    TwoRecs(k, st, ToolApproval(o.id, false, true), Message(Tool(o.id, o.content)));
    HealOneAppends(k, st, o);
    hide Recs;
  }

  lemma {:induction false} HealRecords(k: Site, st: St, lost: seq<Orphan>)
    requires st.attached
    ensures Recs(Heal(k, st, lost).log) == Recs(st.log) + Cancelled(lost)
    ensures Heal(k, st, lost).messages == st.messages
    decreases |lost|
  {
    hide Recs, HealOne;
    if lost == [] {
      assert Recs(st.log) + [] == Recs(st.log);
    } else {
      var o := lost[0];
      HealOneRecords(k, st, o);
      HealRecords(k, HealOne(k, st, o), lost[1..]);
      ConcatAssoc(Recs(st.log), [ToolApproval(o.id, false, true), Message(Tool(o.id, o.content))],
                  Cancelled(lost[1..]));
    }
  }

  /** A cancelled call is one of the parked. */
  predicate Bypasses(pending: Option<seq<Pending>>, lost: seq<Orphan>) {
    pending.Some? && exists p, o :: p in pending.value && o in lost && p.id == o.id
  }

  /** Repair drops the pending set if and only if it cancels a call of it; from any state. */
  lemma {:induction false} HealPending(k: Site, st: St, lost: seq<Orphan>)
    ensures Heal(k, st, lost).pending == if Bypasses(st.pending, lost) then None else st.pending
    decreases |lost|
  {
    if lost != [] {
      assert lost == [lost[0]] + lost[1..];
      HealPending(k, HealOne(k, st, lost[0]), lost[1..]);
      hide Heal;
    }
  }

  lemma ExecuteOneRecords(k: Site, st: St, id: string, content: string)
    requires st.attached
    ensures
      var st1 := Append(k, st, ToolApproval(id, true, false));
      var st3 := AppendTool(k, st1.(hist := st1.hist + [Ran(id)]), id, content);
      Recs(st3.log) == Recs(st.log) + [ToolApproval(id, true, false), Message(Tool(id, content))] && st3.attached
  {
    TwoRecs(k, st, ToolApproval(id, true, false), Message(Tool(id, content)));
    hide Recs;
  }

  lemma {:induction false} ExecuteRecords(k: Site, st: St, w: World, ps: seq<Pending>, i: nat)
    requires st.attached && i <= |ps| && Runnable(k, Some(ps))
    ensures Recs(Execute(k, st, w, ps, i).0.log) == Recs(st.log) + ApprovedFrom(ps, w, i)
    decreases |ps| - i
  {
    hide Recs, AppendTool;
    if i == |ps| {
      assert Recs(st.log) + [] == Recs(st.log);
    } else {
      var id, content := ps[i].id, w.executed(i);
      var st1 := Append(k, st, ToolApproval(id, true, false));
      ExecuteOneRecords(k, st, id, content);
      ExecuteUnroll(k, st, w, ps, i);
      ExecuteRecords(k, AppendTool(k, st1.(hist := st1.hist + [Ran(id)]), id, content), w, ps, i + 1);
      ConcatAssoc(Recs(st.log), [ToolApproval(id, true, false), Message(Tool(id, content))],
                  ApprovedFrom(ps, w, i + 1));
    }
  }
}
