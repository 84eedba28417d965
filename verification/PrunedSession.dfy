/** A session of three invocations, with distinct ids and a strict clock, whose second invocation cuts its log
    and parks a call: the third runs that call and sends an illegal request. */
module PrunedSession {
  import opened Options
  import opened Transcript
  import opened SessionLog
  import opened Prune
  import opened Tell
  import opened Requests
  import opened SessionState
  import opened TurnLaws
  import opened InvocationLaws
  import opened SessionTheorems
  import Gate

  const HEAVY: nat := 200 * 1024 * 1024

  /** A prompt's line is heavy, every other line is one byte. */
  function LineBytes(rec: Record): nat { if rec.Message? && rec.msg.User? then HEAVY else 1 }

  const SITE := Site((n: nat) => n, (args: string) => true, LineBytes)

  function WorldOf(r: Reply): World {
    World((turn: nat) => r, (turn: nat, i: nat) => NeedsApproval, (turn: nat, i: nat) => 0, (i: nat) => "", true, None)
  }

  const CFG := Config(1, Gate.Limits(1, None, None), 1)
  const PLAIN := Reply("done", [], None)
  const ASKS := Reply("", [ToolCall("c", "patch", "")], None)

  const PARKED := Some([Pending("c", PatchTool, "patch", "")])

  const FIRST := Invocation(Prompt("a"), CFG, WorldOf(PLAIN))
  const SECOND := Invocation(Prompt("b"), CFG, WorldOf(ASKS))
  const THIRD := Invocation(Approve, CFG, WorldOf(PLAIN))

  lemma SecondIs()
    ensures SECOND.cont == Prompt("b") && SECOND.cfg == CFG && SECOND.world == WorldOf(ASKS)
  {
  }

  lemma ThirdIs()
    ensures THIRD.cont == Approve && THIRD.cfg == CFG && THIRD.world == WorldOf(PLAIN)
    ensures THIRD.world.grantOk && THIRD.cfg.maxTurns > 0
  {
  }

  lemma PlainTurns(l: Loop, base: seq<Msg>)
    requires l.turn == 0
    ensures Turns(SITE, l, CFG, WorldOf(PLAIN), false, base) ==
            (RecordReply(SITE, Send(l.st, base), PLAIN), Completed)
    ensures Turns(SITE, l, CFG, WorldOf(PLAIN), true, base).0.called == l.st.called
  {
    assert !Blank("done") by { assert !IsSpace("done"[0]); }
    TurnsUnroll(SITE, l, CFG, WorldOf(PLAIN), true, base);
    TurnsUnroll(SITE, l, CFG, WorldOf(PLAIN), false, base);
  }

  lemma AskingTurns(l: Loop, base: seq<Msg>)
    requires l.turn == 0 && l.gate == Gate.NEW
    ensures
      var st' := Turns(SITE, l, CFG, WorldOf(ASKS), false, base).0;
      st'.pending == PARKED && st'.called == l.st.called + ["c"]
  {
    var w, calls := WorldOf(ASKS), ASKS.calls;
    var d := Dispatched(RecordReply(SITE, Send(l.st, base), ASKS), Gate.BeginTurn(l.gate), [], false);
    var d1 := DispatchOne(SITE, d, CFG, w, 0, calls[0], 0);
    assert d1.parked == [Pending("c", PatchTool, "patch", "")] && !d1.exhausted;
    assert DispatchFrom(SITE, d, CFG, w, 0, calls, 0) == DispatchFrom(SITE, d1, CFG, w, 0, calls, 1) == d1;
    assert Ids(calls) == ["c"];
    TurnsUnroll(SITE, l, CFG, w, false, base);
  }

  // ---- the first invocation ----

  lemma OneRecordStays(st: St, rec: Record)
    requires st.log == [Stamped(0, rec)] && rec == InvocationStart
    ensures AutoCompact(SITE, st, CFG, WorldOf(PLAIN)) == st && !Pruned(SITE, st)
    ensures Conversation(st.log) == []
    ensures CompactTicks(SITE, st, CFG, WorldOf(PLAIN))
  {
    var lines := Lines(SITE, st.log);
    assert Offset(lines, 1) == Offset(lines, 0) + 1 == 1;
    assert CutAt(SITE, st.log) == 0;
    assert st.log[1..] == [] && st.log[..0] == [];
    assert Records(st.log) == [] + Records([]) == [];
    assert Load(st.log) == [];
    assert LatestPromptTokens(st.log) == LatestPromptTokens([]) == None;
    assert Compact(SITE, st, CFG, WorldOf(PLAIN)) == st;
  }

  lemma FreshPrompt(st: St, text: string)
    requires st.attached && Conversation(st.log) == []
    ensures
      var st' := Prompted(SITE, st, text);
      && st'.log == st.log + [Stamped(st.stamps, Message(User(text)))] && st'.stamps == st.stamps + 1
      && st'.pending == st.pending && st'.called == st.called && st'.attached
  {
    var p := Prefix(st.log);
    assert p + [] == p;
    PrefixIsSystem(st.log);
    SystemFixed(p, p);
  }

  const FIRST_LOG := [
    Stamped(0, InvocationStart), Stamped(1, Message(User("a"))), Stamped(2, Message(Assistant("done", []))),
    Stamped(3, MetricsSnapshot), Stamped(3, InvocationEnd(Completed))]

  /** A prompt whose history is neither cut nor folded. */
  lemma PromptStarts(st: St, inv: Invocation)
    requires inv.cont.Prompt? && AutoCompact(SITE, st, inv.cfg, inv.world) == st
    ensures Start(SITE, st, inv) == (Prompted(SITE, st, inv.cont.text), Conversation(st.log), true)
  {
    hide AutoCompact, Conversation, InitialMessages, RepairOrphans, AppendMsg;
  }

  lemma FirstBegins()
    ensures
      var st := Begun(SITE, EMPTY);
      && st.log == [Stamped(0, InvocationStart)] && st.stamps == 1 && st.pending == None && st.called == []
      && st.attached
    ensures FIRST.cont == Prompt("a") && FIRST.cfg == CFG && FIRST.world == WorldOf(PLAIN)
    ensures FIRST_LOG[..2] == [Stamped(0, InvocationStart)] + [Stamped(1, Message(User("a")))]
  {
  }

  lemma NotCut(st: St, inv: Invocation)
    requires !Pruned(SITE, Begun(SITE, st)) && CompactTicks(SITE, Begun(SITE, st), inv.cfg, inv.world)
    ensures !Cuts(SITE, st, inv) && Ticks(SITE, st, inv)
  {
  }

  lemma FirstStarts()
    ensures
      var (st1, base, ready) := Start(SITE, Begun(SITE, EMPTY), FIRST);
      && ready && st1.log == FIRST_LOG[..2] && st1.stamps == 2
      && st1.pending == None && st1.called == [] && st1.attached
    ensures Ticks(SITE, EMPTY, FIRST) && !Cuts(SITE, EMPTY, FIRST)
  {
    hide *;
    var st0 := Begun(SITE, EMPTY);
    FirstBegins();
    OneRecordStays(st0, InvocationStart);
    NotCut(EMPTY, FIRST);
    FreshPrompt(st0, "a");
    PromptStarts(st0, FIRST);
  }

  lemma PlainReply(st: St, base: seq<Msg>)
    requires st.log == FIRST_LOG[..2] && st.stamps == 2 && st.attached
    ensures
      var st' := Close(SITE, RecordReply(SITE, Send(st, base), PLAIN), Completed);
      st'.log == FIRST_LOG && st'.pending == st.pending && st'.called == st.called && st'.stamps == 4
  {
    assert Ids([]) == [] && st.called + [] == st.called;
    assert FIRST_LOG == FIRST_LOG[..2] + FIRST_LOG[2..3] + FIRST_LOG[3..];
  }

  lemma AfterFirst()
    ensures
      var st := Invoke(SITE, EMPTY, FIRST).0;
      st.log == FIRST_LOG && st.pending == None && st.called == [] && st.stamps == 4
    ensures Ticks(SITE, EMPTY, FIRST) && !Cuts(SITE, EMPTY, FIRST)
  {
    hide Turns, Start, Close, Send, RecordReply, Begun, Ticks, Cuts, Drive;
    FirstStarts();
    var (st1, base, ready) := Start(SITE, Begun(SITE, EMPTY), FIRST);
    PlainTurns(Loop(st1, Gate.NEW, 0, false), base);
    DriveIs(SITE, Begun(SITE, EMPTY), FIRST);
    PlainReply(st1, base);
  }

  // ---- the second ----

  lemma SecondCuts(st: St)
    requires st.log == FIRST_LOG && st.pending == None
    ensures Cuts(SITE, st, SECOND) && Ticks(SITE, st, SECOND)
  {
    var log := Begun(SITE, st).log;
    var lines := Lines(SITE, log);
    assert log == FIRST_LOG + [Stamped(st.stamps, InvocationStart)];
    assert lines[0].bytes == 1 && lines[1].bytes == HEAVY && lines[2].bytes == 1;
    assert lines[3].bytes == 1 && lines[4].bytes == 1 && lines[5].bytes == 1;
    assert Offset(lines, 0) == 0 && Offset(lines, 1) == 1 && Offset(lines, 2) == HEAVY + 1;
    assert Offset(lines, 3) == HEAVY + 2 && Offset(lines, 4) == HEAVY + 3;
    assert Offset(lines, 5) == HEAVY + 4 && Offset(lines, 6) == HEAVY + 5;
    RenderedBoundary(log[2].rec, 1);
    var mid := (HEAVY + 5) / 2;
    assert FirstCut(lines, 2, mid) == 2;
    assert FirstCut(lines, 1, mid) == 2;
    assert FirstCut(lines, 0, mid) == 2;
  }

  lemma SecondParks(st: St)
    requires st.pending == None && st.called == []
    ensures
      var st' := Invoke(SITE, st, SECOND).0;
      st'.pending == PARKED && st'.called == ["c"]
  {
    hide *;
    SecondIs();
    var st0 := Begun(SITE, st);
    BegunIs(SITE, st);
    InvokeIs(SITE, st, SECOND);
    StartCalled(SITE, st0, SECOND);
    PromptIsReady(st0, SECOND);
    var (st1, base, ready) := Start(SITE, st0, SECOND);
    DriveIs(SITE, st0, SECOND);
    AskingTurns(Loop(st1, Gate.NEW, 0, false), base);
    assert [] + ["c"] == ["c"];
  }

  lemma PromptIsReady(st: St, inv: Invocation)
    requires inv.cont.Prompt?
    ensures Start(SITE, st, inv).2
  {
    hide AutoCompact, RepairOrphans, AppendMsg, InitialMessages, Conversation;
  }

  // ---- the third ----

  lemma ThirdCalls(st: St)
    ensures Invoke(SITE, st, THIRD).0.called == st.called
  {
    hide *;
    ThirdIs();
    var st0 := Begun(SITE, st);
    BegunIs(SITE, st);
    InvokeIs(SITE, st, THIRD);
    StartCalled(SITE, st0, THIRD);
    var (st1, base, ready) := Start(SITE, st0, THIRD);
    DriveIs(SITE, st0, THIRD);
    PlainTurns(Loop(st1, Gate.NEW, 0, false), base);
    NotReady(st0, THIRD);
  }

  lemma NotReady(st: St, inv: Invocation)
    ensures
      var (st1, base, ready) := Start(SITE, st, inv);
      !ready ==> Drive(SITE, st, inv) == (st1, Failed)
  {
  }

  lemma ClockIsStrict()
    ensures Forward(SITE) && forall i: nat, j: nat :: i < j ==> SITE.clock(i) < SITE.clock(j)
  {
  }

  lemma SessionOf()
    ensures
      var st1 := Invoke(SITE, EMPTY, FIRST).0;
      var st2 := Invoke(SITE, st1, SECOND).0;
      && Session(SITE, [FIRST]) == st1 && Session(SITE, [FIRST, SECOND]) == st2
      && Session(SITE, [FIRST, SECOND, THIRD]) == Invoke(SITE, st2, THIRD).0
  {
    hide Invoke;
    assert [FIRST, SECOND, THIRD][..2] == [FIRST, SECOND] && [FIRST, SECOND][..1] == [FIRST] && [FIRST][..0] == [];
  }

  lemma FirstTicked()
    requires Ticks(SITE, EMPTY, FIRST) && !Cuts(SITE, EMPTY, FIRST)
    ensures Ticked(SITE, [FIRST])
  {
    hide Ticks, Cuts, Invoke, Conversation;
    assert [FIRST][..0] == [] && Session(SITE, []) == EMPTY && Ticked(SITE, []);
  }

  lemma NoIds(called: seq<string>)
    requires called == []
    ensures Distinct(called)
  {
  }

  lemma OneId(called: seq<string>)
    requires called == ["c"]
    ensures Distinct(called)
  {
  }

  lemma ApproveTicks(st: St)
    ensures Ticks(SITE, st, THIRD)
  {
  }

  lemma ParkedIs()
    ensures PARKED.Some? && PARKED.value[0] in PARKED.value && PARKED.value[0].id == "c"
  {
  }

  /** Distinct ids and a strict clock are not enough. A prompt and its plain answer; a second prompt, whose prune
      cuts the log before its reply asks for a patch, which is parked; and an approve, which runs the patch and
      sends a result whose call the log does not know. */
  lemma PrunedSessionFails()
    ensures
      var st1, st2 := Session(SITE, [FIRST]), Session(SITE, [FIRST, SECOND]);
      var st3 := Session(SITE, [FIRST, SECOND, THIRD]);
      && (forall i: nat, j: nat :: i < j ==> SITE.clock(i) < SITE.clock(j)) && Distinct(st3.called)
      && Ticked(SITE, [FIRST]) && Ticks(SITE, st1, SECOND) && Cuts(SITE, st1, SECOND) && Ticks(SITE, st2, THIRD)
      && |st2.sent| < |st3.sent| && !Closed(st3.sent[|st2.sent|].msgs) && Ran("c") in st3.hist
  {
    hide *;
    SessionOf();
    ClockIsStrict();
    AfterFirst();
    var st1, st2 := Session(SITE, [FIRST]), Session(SITE, [FIRST, SECOND]);
    FirstTicked();
    NoIds(st1.called);
    SessionKeeps(SITE, [FIRST]);
    SecondCuts(st1);
    SecondParks(st1);
    OneId(st2.called);
    ThirdCalls(st2);
    ApproveTicks(st2);
    ThirdIs();
    ParkedIs();
    ApproveAfterCutFails(SITE, st1, SECOND, THIRD);
  }
}
