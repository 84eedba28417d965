/** One turn, the whole loop, and the approval of parked calls, while records reach the log. */
module TurnLaws {
  import opened Options
  import opened Transcript
  import opened TranscriptRepair
  import opened OpenCalls
  import opened SessionLog
  import opened Tell
  import opened Requests
  import opened SessionState
  import opened TellLaws
  import Gate

  // ---- one turn ----

  lemma RecordReplyLog(k: Site, st: St, r: Reply)
    requires r.Reply? && Forward(k) && Recording(k, st)
    ensures
      var st', a := RecordReply(k, st, r), Assistant(r.content, r.calls);
      && Recording(k, st') && Conversation(st'.log) == Conversation(st.log) + [a]
      && st'.hist == st.hist && st'.called == st.called + Ids(r.calls) && st'.pending == st.pending
  {
    var st1 := Append(k, st, Message(Assistant(r.content, r.calls))).(called := st.called + Ids(r.calls));
    hide Timed, Conversation;
    AppendLog(k, st, Message(Assistant(r.content, r.calls)));
    if r.usage.Some? { AppendLog(k, st1, TokenUsage(r.usage.value)); }
  }

  lemma RecordReplyKeeps(k: Site, st: St, r: Reply)
    requires r.Reply? && Forward(k) && Recording(k, st)
    requires Core(Conversation(st.log), st.hist, st.called) && OpenAfter(Conversation(st.log), {}) == {}
    requires Distinct(st.called + Ids(r.calls))
    ensures
      var st' := RecordReply(k, st, r);
      && InSync(k, st.(called := st.called + Ids(r.calls)), st', [Assistant(r.content, r.calls)])
      && Core(Conversation(st'.log), st'.hist, st'.called)
      && OpenAfter(Conversation(st'.log), {}) == IdSet(r.calls)
  {
    hide RecordReply, Core, Recording, Conversation, Adds, OpenAfter, Ids, IdSet;
    RecordReplyAdds(k, st, r);
    RecordReplyLog(k, st, r);
    CoreReply(Conversation(st.log), st.hist, st.called, r.content, r.calls);
    AddsIgnoresCalled(st, st.(called := st.called + Ids(r.calls)), RecordReply(k, st, r),
        [Assistant(r.content, r.calls)]);
  }

  lemma AddsIgnoresCalled(a: St, a': St, b: St, added: seq<Msg>)
    requires Adds(a, b, added) && a' == a.(called := a'.called)
    ensures Adds(a', b, added)
  {
  }

  lemma FreshTurn(k: Site, st: St, gate: Gate.Counts, calls: seq<ToolCall>)
    requires Recording(k, st) && Core(Conversation(st.log), st.hist, st.called)
    requires OpenAfter(Conversation(st.log), {}) == IdSet(calls) && Distinct(Ids(calls))
    ensures MidTurn(k, Dispatched(st, gate, [], false), calls)
  {
    assert PendingIds([]) + Ids(calls) == Ids(calls);
  }

  lemma RunningGrows(k: Site, a: St, b: St, base: seq<Msg>, s: seq<Msg>, added: seq<Msg>)
    requires Running(k, a, base, s) && InMemory(b, base, s + added)
    requires Recording(k, b) && Conversation(b.log) == Conversation(a.log) + added
    requires Core(Conversation(b.log), b.hist, b.called) && OpenAfter(Conversation(b.log), {}) == {}
        && b.pending == None
    ensures Running(k, b, base, s + added)
  {
    ConcatAssoc(base + Synthetic(Repair(base).orphans), s, added);
  }

  lemma AddsUnique(a: St, b: St, u: seq<Msg>, v: seq<Msg>)
    requires Adds(a, b, u) && Adds(a, b, v)
    ensures u == v
  {
    assert b.messages[|a.messages|..] == u && b.messages[|a.messages|..] == v;
  }

  /** The nudged turn. */
  lemma NudgeKeeps(k: Site, st: St, r: Reply, base: seq<Msg>, s: seq<Msg>) returns (added: seq<Msg>)
    requires Forward(k) && Running(k, st, base, s) && r.Reply? && r.calls == [] && Distinct(st.called + Ids(r.calls))
    ensures Running(k, AppendMsg(k, RecordReply(k, st, r), User(RESUME_NUDGE_PROMPT)), base, s + added)
  {
    hide *;
    var a, u := Assistant(r.content, r.calls), User(RESUME_NUDGE_PROMPT);
    var st1 := RecordReply(k, st, r);
    var st2 := AppendMsg(k, st1, u);
    RunningParts(k, st, base, s);
    NoCalls(r.calls);
    RecordReplyKeeps(k, st, r);
    added := NudgeStep(k, st, r, base, s);
    AppendMsgParts(k, st1, u);
    InSyncParts(k, st.(called := st.called + Ids(r.calls)), st1, [a]);
    AppendMsgSync(k, st1, u);
    InSyncTrans(k, st.(called := st.called + Ids(r.calls)), st1, st2, [a], [u]);
    InSyncParts(k, st.(called := st.called + Ids(r.calls)), st2, [a] + [u]);
    InSyncParts(k, st1, st2, [u]);
    CoreUser(Conversation(st1.log), st1.hist, st1.called, RESUME_NUDGE_PROMPT);
    assert [a] + [u] == added;
    RunningGrows(k, st, st2, base, s, added);
  }

  lemma RunningParts(k: Site, st: St, base: seq<Msg>, s: seq<Msg>)
    requires Running(k, st, base, s)
    ensures Recording(k, st) && InMemory(st, base, s) && st.pending == None
    ensures Core(Conversation(st.log), st.hist, st.called) && OpenAfter(Conversation(st.log), {}) == {}
  {
  }

  lemma InSyncParts(k: Site, a: St, b: St, added: seq<Msg>)
    requires InSync(k, a, b, added)
    ensures Recording(k, b) && Conversation(b.log) == Conversation(a.log) + added
    ensures b.called == a.called && b.pending == a.pending
  {
  }

  lemma NoCalls(calls: seq<ToolCall>)
    requires calls == []
    ensures IdSet(calls) == {} && Ids(calls) == []
  {
  }

  lemma AppendMsgParts(k: Site, st: St, m: Msg)
    ensures
      var st' := AppendMsg(k, st, m);
      st'.hist == st.hist && st'.called == st.called && st'.pending == st.pending && st'.sent == st.sent
  {
  }

  lemma ExhaustedIsLive(k: Site, d: Dispatched)
    requires MidTurn(k, d, []) && d.st.pending == None
    ensures Live(k, d.st)
  {
  }

  lemma ParkedIsLive(k: Site, d: Dispatched)
    requires MidTurn(k, d, []) && d.parked != [] && AskedFor(d.parked, LastCalls(Conversation(d.st.log)))
    ensures Live(k, d.st.(pending := Some(d.parked)))
  {
  }

  lemma AnsweredInFull(k: Site, d: Dispatched)
    requires MidTurn(k, d, [])
    ensures Recording(k, d.st) && Core(Conversation(d.st.log), d.st.hist, d.st.called)
    ensures d.parked == [] && !d.exhausted ==> OpenAfter(Conversation(d.st.log), {}) == {}
  {
  }

  /** A turn with calls: answered in full, or ended in a state the next invocation can start from. */
  lemma CallsKeep(k: Site, st: St, r: Reply, gate: Gate.Counts, cfg: Config, w: World, turn: nat, base: seq<Msg>,
                  s: seq<Msg>)
    returns (added: seq<Msg>)
    requires Forward(k) && Running(k, st, base, s) && r.Reply? && Distinct(st.called + Ids(r.calls))
    ensures
      var d := DispatchFrom(k, Dispatched(RecordReply(k, st, r), gate, [], false), cfg, w, turn, r.calls, 0);
      && (d.exhausted ==> Live(k, d.st))
      && (d.parked != [] ==> Live(k, d.st.(pending := Some(d.parked))))
      && (!d.exhausted && d.parked == [] ==> Running(k, d.st, base, s + added))
  {
    var st0 := st.(called := st.called + Ids(r.calls));
    var st1 := RecordReply(k, st, r);
    var d0 := Dispatched(st1, gate, [], false);
    var d := DispatchFrom(k, d0, cfg, w, turn, r.calls, 0);
    var a := [Assistant(r.content, r.calls)];
    DistinctAppend(st.called, Ids(r.calls));
    RecordReplyKeeps(k, st, r);
    var tools := AnsweredStep(k, st, r, gate, cfg, w, turn, base, s);
    RunningParts(k, st, base, s);
    hide DispatchFrom, RecordReply, InMemory, Core, Recording, Conversation, LastCalls, AskedFor, AllTools;
    hide Live, MidTurn, Running, Adds, OpenAfter;
    assert AskedFor([], r.calls) by { NothingParked(r.calls); }
    FreshTurn(k, st1, gate, r.calls);
    assert r.calls[0..] == r.calls;
    var more := DispatchKeeps(k, d0, cfg, w, turn, r.calls, 0);
    InSyncTrans(k, st0, st1, d.st, a, more);
    DispatchParks(k, d0, cfg, w, turn, r.calls, 0);
    LastCallsAre(Conversation(st.log), r.content, r.calls);
    LastCallsKept(Conversation(st1.log), more);
    added := a + more;
    AnsweredInFull(k, d);
    if d.exhausted { ExhaustedIsLive(k, d); }
    if d.parked != [] { ParkedIsLive(k, d); }
    if !d.exhausted && d.parked == [] {
      AddsIgnoresCalled(st, st0, d.st, a + tools);
      AddsUnique(st0, d.st, a + tools, added);
      RunningGrows(k, st, d.st, base, s, added);
    }
  }

  lemma NothingParked(calls: seq<ToolCall>)
    ensures AskedFor([], calls)
  {
  }

  lemma RunningIsLive(k: Site, st: St, base: seq<Msg>, s: seq<Msg>)
    requires Running(k, st, base, s)
    ensures Live(k, st)
  {
  }

  lemma SendRuns(k: Site, st: St, base: seq<Msg>, s: seq<Msg>)
    requires Running(k, st, base, s)
    ensures Running(k, Send(st, base), base, s)
  {
  }

  lemma TurnRuns(k: Site, l: Loop, cfg: Config, w: World, byApprove: bool, base: seq<Msg>, s: seq<Msg>)
    returns (s': seq<Msg>)
    requires Forward(k) && Running(k, l.st, base, s)
    requires Distinct(EndState(Turn(k, l, cfg, w, byApprove, base)).called)
    ensures
      var t := Turn(k, l, cfg, w, byApprove, base);
      if t.Ended? then Live(k, t.end) else Running(k, t.next.st, base, s')
  {
    var st := Send(l.st, base);
    SendRuns(k, l.st, base, s);
    s' := s;
    match w.reply(l.turn)
    case TransportFault => RunningIsLive(k, st, base, s);
    case HttpFault => RunningIsLive(k, st, base, s);
    case Reply(content, calls, usage) =>
      var r := Reply(content, calls, usage);
      hide Running, Live, RecordReply, DispatchFrom;
      TurnCalls(k, l, cfg, w, byApprove, base, r);
      if calls == [] {
        CompletedIsLive(k, st, r, base, s);
        var added := NudgeKeeps(k, st, r, base, s);
        s' := s + added;
      } else {
        var added := CallsKeep(k, st, r, Gate.BeginTurn(l.gate), cfg, w, l.turn, base, s);
        s' := s + added;
      }
  }

  lemma CompletedIsLive(k: Site, st: St, r: Reply, base: seq<Msg>, s: seq<Msg>)
    requires Forward(k) && Running(k, st, base, s) && r.Reply? && r.calls == [] && Distinct(st.called + Ids(r.calls))
    ensures Live(k, RecordReply(k, st, r))
  {
    RecordReplyKeeps(k, st, r);
  }

  // ---- ids called only grow ----

  lemma {:induction false} DispatchCalled(k: Site, d: Dispatched, cfg: Config, w: World, turn: nat,
                                          calls: seq<ToolCall>, i: nat)
    requires i <= |calls|
    ensures
      var st' := DispatchFrom(k, d, cfg, w, turn, calls, i).st;
      st'.called == d.st.called && st'.pending == d.st.pending
    decreases |calls| - i
  {
    if i < |calls| && !d.exhausted {
      DispatchUnroll(k, d, cfg, w, turn, calls, i);
      DispatchCalled(k, DispatchOne(k, d, cfg, w, turn, calls[i], i), cfg, w, turn, calls, i + 1);
    }
  }

  lemma TurnCalls(k: Site, l: Loop, cfg: Config, w: World, byApprove: bool, base: seq<Msg>, r: Reply)
    requires w.reply(l.turn) == r && r.Reply?
    ensures EndState(Turn(k, l, cfg, w, byApprove, base)).called == l.st.called + Ids(r.calls)
  {
    var st1 := RecordReply(k, Send(l.st, base), r);
    if r.calls != [] {
      DispatchCalled(k, Dispatched(st1, Gate.BeginTurn(l.gate), [], false), cfg, w, l.turn, r.calls, 0);
    }
  }

  lemma {:induction false} TurnsCalled(k: Site, l: Loop, cfg: Config, w: World, byApprove: bool, base: seq<Msg>)
    ensures l.st.called <= Turns(k, l, cfg, w, byApprove, base).0.called
    decreases cfg.maxTurns - l.turn
  {
    if l.turn < cfg.maxTurns {
      var t := Turn(k, l, cfg, w, byApprove, base);
      TurnCounts(k, l, cfg, w, byApprove, base);
      if w.reply(l.turn).Reply? { TurnCalls(k, l, cfg, w, byApprove, base, w.reply(l.turn)); }
      assert l.st.called <= EndState(t).called;
      if t.Again? { TurnsCalled(k, t.next, cfg, w, byApprove, base); }
    }
  }

  // ---- the loop ----

  predicate RequestsOk(sent: seq<Sent>, from: nat)
    requires from <= |sent|
  {
    forall j :: from <= j < |sent| ==> RequestOk(sent[j])
  }

  lemma PrefixDistinct<T>(a: seq<T>, b: seq<T>)
    requires a <= b && Distinct(b)
    ensures Distinct(a)
  {
    assert forall i :: 0 <= i < |a| ==> a[i] == b[i];
  }

  lemma TurnSent(k: Site, l: Loop, cfg: Config, w: World, byApprove: bool, base: seq<Msg>, s: seq<Msg>)
    requires InMemory(l.st, base, s)
    ensures EndState(Turn(k, l, cfg, w, byApprove, base)).sent ==
            l.st.sent + [Sent(l.st.messages, l.st.log, base, l.st.attached)]
  {
    var s' := TurnKeeps(k, l, cfg, w, byApprove, base, s);
  }

  lemma TurnsUnroll(k: Site, l: Loop, cfg: Config, w: World, byApprove: bool, base: seq<Msg>)
    requires l.turn < cfg.maxTurns
    ensures
      var t := Turn(k, l, cfg, w, byApprove, base);
      if t.Ended? then Turns(k, l, cfg, w, byApprove, base) == (t.end, t.reason)
      else
        && Turns(k, l, cfg, w, byApprove, base) == Turns(k, t.next, cfg, w, byApprove, base)
        && t.next.turn == l.turn + 1
  {
  }

  lemma RequestsJoin(a: seq<Sent>, r: Sent, b: seq<Sent>)
    requires a + [r] <= b && RequestOk(r) && RequestsOk(b, |a| + 1)
    ensures a <= b && RequestsOk(b, |a|)
  {
    assert b[|a|] == (a + [r])[|a|];
  }

  lemma {:induction false} TurnsRun(k: Site, l: Loop, cfg: Config, w: World, byApprove: bool, base: seq<Msg>,
                                    s: seq<Msg>)
    requires Forward(k) && Running(k, l.st, base, s)
    requires Distinct(Turns(k, l, cfg, w, byApprove, base).0.called)
    ensures
      var st' := Turns(k, l, cfg, w, byApprove, base).0;
      Live(k, st') && l.st.sent <= st'.sent && RequestsOk(st'.sent, |l.st.sent|)
    decreases cfg.maxTurns - l.turn
  {
    if l.turn >= cfg.maxTurns { RunningIsLive(k, l.st, base, s); return; }
    var r := Sent(l.st.messages, l.st.log, base, l.st.attached);
    TurnsCalled(k, l, cfg, w, byApprove, base);
    PrefixDistinct(l.st.called, Turns(k, l, cfg, w, byApprove, base).0.called);
    hide Running, Live, Turn, Turns, RequestOk, Forward;
    RunningRequest(k, l.st, base, s);
    TurnsUnroll(k, l, cfg, w, byApprove, base);
    TurnSent(k, l, cfg, w, byApprove, base, s);
    match Turn(k, l, cfg, w, byApprove, base)
    case Ended(st, _) =>
      var _ := TurnRuns(k, l, cfg, w, byApprove, base, s);
      RequestsJoin(l.st.sent, r, st.sent);
    case Again(next) =>
      TurnsCalled(k, next, cfg, w, byApprove, base);
      PrefixDistinct(next.st.called, Turns(k, next, cfg, w, byApprove, base).0.called);
      var s' := TurnRuns(k, l, cfg, w, byApprove, base, s);
      TurnsRun(k, next, cfg, w, byApprove, base, s');
      RequestsJoin(l.st.sent, r, Turns(k, next, cfg, w, byApprove, base).0.sent);
  }

  /** The list in memory only grows: what stands in it now opens every request to come. */
  lemma {:induction false} TurnsExtend(k: Site, l: Loop, cfg: Config, w: World, byApprove: bool, base: seq<Msg>,
                                       s: seq<Msg>)
    requires InMemory(l.st, base, s)
    ensures
      var sent := Turns(k, l, cfg, w, byApprove, base).0.sent;
      l.st.sent <= sent && forall j :: |l.st.sent| <= j < |sent| ==> l.st.messages <= sent[j].msgs
    decreases cfg.maxTurns - l.turn
  {
    if l.turn < cfg.maxTurns {
      hide Turn, InMemory, Turns;
      TurnsUnroll(k, l, cfg, w, byApprove, base);
      TurnSent(k, l, cfg, w, byApprove, base, s);
      var s' := TurnKeeps(k, l, cfg, w, byApprove, base, s);
      var t := Turn(k, l, cfg, w, byApprove, base);
      if t.Again? { TurnsExtend(k, t.next, cfg, w, byApprove, base, s'); }
    } else {
      TurnsEnd(k, l, cfg, w, byApprove, base);
    }
  }

  lemma TurnsEnd(k: Site, l: Loop, cfg: Config, w: World, byApprove: bool, base: seq<Msg>)
    requires l.turn >= cfg.maxTurns
    ensures Turns(k, l, cfg, w, byApprove, base) == (l.st, MaxTurns)
  {
  }

  predicate NotIn(ps: Option<seq<Pending>>, called: seq<string>) {
    ps.Some? ==> forall p :: p in ps.value ==> p.id !in called
  }

  lemma TurnParksFresh(k: Site, l: Loop, cfg: Config, w: World, byApprove: bool, base: seq<Msg>)
    requires l.st.pending == None
    requires Distinct(EndState(Turn(k, l, cfg, w, byApprove, base)).called)
    ensures
      var t := Turn(k, l, cfg, w, byApprove, base);
      l.st.called <= EndState(t).called && NotIn(EndState(t).pending, l.st.called)
      && (t.Again? ==> t.next.st.pending == None)
  {
    hide RecordReply, DispatchFrom;
    var st := Send(l.st, base);
    match w.reply(l.turn)
    case TransportFault =>
    case HttpFault =>
    case Reply(content, calls, usage) =>
      var r := Reply(content, calls, usage);
      var d0 := Dispatched(RecordReply(k, st, r), Gate.BeginTurn(l.gate), [], false);
      ReplyPending(k, st, r);
      TurnCalls(k, l, cfg, w, byApprove, base, r);
      DispatchCalled(k, d0, cfg, w, l.turn, calls, 0);
      DispatchParks(k, d0, cfg, w, l.turn, calls, 0);
      AskedForFresh(DispatchFrom(k, d0, cfg, w, l.turn, calls, 0).parked, calls, l.st.called);
  }

  lemma ReplyPending(k: Site, st: St, r: Reply)
    requires r.Reply?
    ensures RecordReply(k, st, r).pending == st.pending
  {
  }

  lemma AskedForFresh(ps: seq<Pending>, calls: seq<ToolCall>, called: seq<string>)
    requires AskedFor(ps, calls) && Distinct(called + Ids(calls))
    ensures NotIn(Some(ps), called)
  {
    DistinctAppend(called, Ids(calls));
    forall p | p in ps ensures p.id !in called {
      var i :| 0 <= i < |ps| && ps[i] == p;
      assert IsCall(ps[i], calls);
      var j :| 0 <= j < |calls| && calls[j] == ToolCall(p.id, p.name, p.args);
      assert Ids(calls)[j] == p.id;
    }
  }

  /** What the loop parks was called in it: with fresh ids, never a call made before. */
  lemma {:induction false} TurnsParkFresh(k: Site, l: Loop, cfg: Config, w: World, byApprove: bool, base: seq<Msg>)
    requires l.st.pending == None && Distinct(Turns(k, l, cfg, w, byApprove, base).0.called)
    ensures NotIn(Turns(k, l, cfg, w, byApprove, base).0.pending, l.st.called)
    decreases cfg.maxTurns - l.turn
  {
    if l.turn < cfg.maxTurns {
      hide Turn, Turns;
      TurnsUnroll(k, l, cfg, w, byApprove, base);
      var t := Turn(k, l, cfg, w, byApprove, base);
      if t.Again? {
        TurnsCalled(k, t.next, cfg, w, byApprove, base);
        PrefixDistinct(EndState(t).called, Turns(k, l, cfg, w, byApprove, base).0.called);
        TurnParksFresh(k, l, cfg, w, byApprove, base);
        TurnsParkFresh(k, t.next, cfg, w, byApprove, base);
      } else {
        TurnParksFresh(k, l, cfg, w, byApprove, base);
      }
    } else {
      TurnsEnd(k, l, cfg, w, byApprove, base);
    }
  }

  // ---- approvals ----

  lemma ParkedRest(k: Site, ps: seq<Pending>, open: set<string>)
    requires ps != [] && Parked(k, ps, open)
    ensures Parked(k, ps[1..], open - {ps[0].id}) && ps[0].id in open
    ensures ps[0].kind == CommandTool ==> k.commandParses(ps[0].args)
  {
    assert PendingIds(ps)[0] == ps[0].id;
    assert forall i :: 0 <= i < |ps| - 1 ==> PendingIds(ps[1..])[i] == PendingIds(ps)[i + 1];
  }

  lemma ExecuteOne(k: Site, st: St, p: Pending, content: string)
    requires Forward(k) && Recording(k, st) && Core(Conversation(st.log), st.hist, st.called)
    requires p.id in OpenAfter(Conversation(st.log), {})
    ensures
      var st1 := Append(k, st, ToolApproval(p.id, true, false));
      var st2 := st1.(hist := st1.hist + [Ran(p.id)]);
      Progress(k, st, AppendTool(k, st2, p.id, content), [Tool(p.id, content)], {p.id})
  {
    RespondKeeps(k, st, p.id, content, true, Some(true));
  }

  lemma ExecuteUnroll(k: Site, st: St, w: World, ps: seq<Pending>, i: nat)
    requires i < |ps| && (ps[i].kind == CommandTool ==> k.commandParses(ps[i].args))
    ensures
      var st1 := Append(k, st, ToolApproval(ps[i].id, true, false));
      var st2 := st1.(hist := st1.hist + [Ran(ps[i].id)]);
      Execute(k, st, w, ps, i) == Execute(k, AppendTool(k, st2, ps[i].id, w.executed(i)), w, ps, i + 1)
    ensures ps[i..][0] == ps[i] && ps[i..][1..] == ps[i + 1..]
  {
  }

  /** Approving a parked set never stops half way, and answers every call of it. */
  lemma {:induction false} ExecuteKeeps(k: Site, st: St, w: World, ps: seq<Pending>, i: nat) returns (tools: seq<Msg>)
    requires Forward(k) && i <= |ps| && Recording(k, st)
    requires Core(Conversation(st.log), st.hist, st.called)
    requires Parked(k, ps[i..], OpenAfter(Conversation(st.log), {}))
    ensures
      var (st', ok) := Execute(k, st, w, ps, i);
      ok && InSync(k, st, st', tools) && Core(Conversation(st'.log), st'.hist, st'.called)
    decreases |ps| - i
  {
    if i == |ps| {
      NoProgress(k, st);
      return [];
    }
    var open := OpenAfter(Conversation(st.log), {});
    assert ps[i..][0] == ps[i] && ps[i..][1..] == ps[i + 1..];
    var st1 := Append(k, st, ToolApproval(ps[i].id, true, false));
    var st2 := st1.(hist := st1.hist + [Ran(ps[i].id)]);
    var st3 := AppendTool(k, st2, ps[i].id, w.executed(i));
    hide Append, AppendTool, Execute, Recording, Core, Conversation, OpenAfter, Parked, InSync;
    ParkedRest(k, ps[i..], open);
    ExecuteUnroll(k, st, w, ps, i);
    ExecuteOne(k, st, ps[i], w.executed(i));
    assert Recording(k, st3) by { InSyncRecording(k, st, st3, [Tool(ps[i].id, w.executed(i))]); }
    var rest := ExecuteKeeps(k, st3, w, ps, i + 1);
    tools := [Tool(ps[i].id, w.executed(i))] + rest;
    InSyncTrans(k, st, st3, Execute(k, st, w, ps, i).0, [Tool(ps[i].id, w.executed(i))], rest);
  }

  // ---- a transport fault ----

  lemma FaultStep(k: Site, l: Loop, cfg: Config, w: World, byApprove: bool, base: seq<Msg>)
    ensures
      var t := Turn(k, l, cfg, w, byApprove, base);
      t.Ended? && t.reason == TransportError ==> t.end == Send(l.st, base)
  {
  }

  /** A loop that ends in a transport fault stops right after the send: the last request was made from
      the log as it stands. */
  lemma {:induction false} TurnsFault(k: Site, l: Loop, cfg: Config, w: World, byApprove: bool, base: seq<Msg>,
                                      s: seq<Msg>)
    requires Forward(k) && Running(k, l.st, base, s)
    requires Distinct(Turns(k, l, cfg, w, byApprove, base).0.called)
    requires Turns(k, l, cfg, w, byApprove, base).1 == TransportError
    ensures
      var st' := Turns(k, l, cfg, w, byApprove, base).0;
      |st'.sent| > |l.st.sent| && st'.sent[|st'.sent| - 1].log == st'.log && st'.pending == None
    decreases cfg.maxTurns - l.turn
  {
    hide *;
    FaultNeedsTurn(k, l, cfg, w, byApprove, base);
    TurnsUnroll(k, l, cfg, w, byApprove, base);
    RunningParts(k, l.st, base, s);
    TurnSent(k, l, cfg, w, byApprove, base, s);
    var t := Turn(k, l, cfg, w, byApprove, base);
    if t.Again? {
      EndStateOfAgain(t);
      TurnsCalled(k, t.next, cfg, w, byApprove, base);
      PrefixDistinct(t.next.st.called, Turns(k, t.next, cfg, w, byApprove, base).0.called);
      var s' := TurnRuns(k, l, cfg, w, byApprove, base, s);
      TurnsFault(k, t.next, cfg, w, byApprove, base, s');
    } else {
      FaultStep(k, l, cfg, w, byApprove, base);
      SentLog(l.st, base);
      RunningParts(k, l.st, base, s);
    }
  }

  lemma FaultNeedsTurn(k: Site, l: Loop, cfg: Config, w: World, byApprove: bool, base: seq<Msg>)
    requires Turns(k, l, cfg, w, byApprove, base).1 == TransportError
    ensures l.turn < cfg.maxTurns
  {
  }

  lemma EndStateOfAgain(t: TurnResult)
    requires t.Again?
    ensures EndState(t) == t.next.st
  {
  }

  lemma SentLog(st: St, base: seq<Msg>)
    ensures
      var st' := Send(st, base);
      |st'.sent| == |st.sent| + 1 && st'.sent[|st.sent|].log == st'.log && st'.sent[|st.sent|].attached == st'.attached
      && st'.pending == st.pending && st'.attached == st.attached
  {
  }

  lemma TurnsFirst(k: Site, l: Loop, cfg: Config, w: World, byApprove: bool, base: seq<Msg>, s: seq<Msg>)
    requires InMemory(l.st, base, s) && l.turn < cfg.maxTurns
    ensures
      var st' := Turns(k, l, cfg, w, byApprove, base).0;
      |st'.sent| > |l.st.sent| && st'.sent[|l.st.sent|] == Sent(l.st.messages, l.st.log, base, l.st.attached)
  {
    TurnsUnroll(k, l, cfg, w, byApprove, base);
    TurnSent(k, l, cfg, w, byApprove, base, s);
    var t := Turn(k, l, cfg, w, byApprove, base);
    if t.Again? {
      var s' := TurnKeeps(k, l, cfg, w, byApprove, base, s);
      TurnsRequests(k, t.next, cfg, w, byApprove, base, s');
    }
  }
}
