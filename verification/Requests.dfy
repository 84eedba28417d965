/** The requests one invocation sends, from any session state at all: all share the repaired base, and
    each is a legal transcript exactly when the base has distinct call ids and no early answer. */
module Requests {
  import opened Options
  import opened Transcript
  import opened TranscriptRepair
  import opened RepairLaws
  import opened SessionLog
  import opened Tell
  import Gate
  import Prune

  predicate AllSystem(ms: seq<Msg>) { forall m :: m in ms ==> m.System? }

  lemma {:induction false} SystemMentions(p: seq<Msg>)
    requires AllSystem(p)
    ensures MentionsOf(p) == {} && Closed(p) && CallIds(p) == []
    ensures forall id :: Answers(p, id) == []
  {
    if p != [] { assert p[0] in p; SystemMentions(p[1..]); }
  }

  lemma {:induction false} SystemFixed(all: seq<Msg>, p: seq<Msg>)
    requires AllSystem(p)
    ensures RepairFrom(all, p, {}) == Repaired(p, [])
  {
    if p != [] {
      assert p[0] in p && p == [p[0]] + p[1..];
      SystemFixed(all, p[1..]);
    }
  }

  lemma {:induction false} RepairFromSame(all: seq<Msg>, all': seq<Msg>, rest: seq<Msg>, placed: set<string>)
    requires forall id :: Answers(all, id) == Answers(all', id)
    ensures RepairFrom(all, rest, placed) == RepairFrom(all', rest, placed)
    decreases |rest|
  {
    if rest != [] {
      RepairFromSame(all, all', rest[1..], placed + Mentions(rest[0]));
      if rest[0].Assistant? { PlacingSame(all, all', Fresh(rest[0].calls, placed)); }
    }
  }

  lemma {:induction false} PlacingSame(all: seq<Msg>, all': seq<Msg>, ids: seq<string>)
    requires forall id :: Answers(all, id) == Answers(all', id)
    ensures AnswersFor(all, ids) == AnswersFor(all', ids) && Missing(all, ids) == Missing(all', ids)
  {
    if ids != [] { PlacingSame(all, all', ids[1..]); }
  }

  /** System messages in front are left alone. */
  lemma RepairAfterSystem(p: seq<Msg>, x: seq<Msg>)
    requires AllSystem(p)
    ensures Repair(p + x) == Repaired(p + Repair(x).msgs, Repair(x).orphans)
  {
    var all := p + x;
    SystemMentions(p);
    SystemFixed(all, p);
    RepairFromSplit(all, p, x, {});
    forall id ensures Answers(all, id) == Answers(x, id) {
      AnswersAppend(p, x, id);
      assert [] + Answers(x, id) == Answers(x, id);
    }
    RepairFromSame(all, x, x, {});
    assert {} + MentionsOf(p) == {} && [] + Repair(x).orphans == Repair(x).orphans;
  }

  lemma PrefixIsSystem(log: seq<Stamped>)
    ensures AllSystem(Prefix(log))
  {
  }

  // ---- what appends keep ----

  /** Same system prefix, same requests, and the messages in memory only grow by `added`. */
  predicate Adds(a: St, b: St, added: seq<Msg>) {
    Prefix(a.log) == Prefix(b.log) && a.sent == b.sent && b.messages == a.messages + added
  }

  lemma AddsTrans(a: St, b: St, c: St, u: seq<Msg>, v: seq<Msg>)
    requires Adds(a, b, u) && Adds(b, c, v)
    ensures Adds(a, c, u + v)
  {
    assert a.messages + u + v == a.messages + (u + v);
  }

  lemma AppendAdds(k: Site, st: St, rec: Record)
    requires !rec.Summary?
    ensures Adds(st, Append(k, st, rec), [])
  {
    var log := st.log + [Stamped(k.clock(st.stamps), rec)];
    assert log[..|log| - 1] == st.log && st.messages + [] == st.messages;
  }

  lemma AppendMsgAdds(k: Site, st: St, m: Msg)
    ensures Adds(st, AppendMsg(k, st, m), [m])
  {
    AppendAdds(k, st, Message(m));
  }

  lemma AppendToolAdds(k: Site, st: St, id: string, content: string)
    ensures Adds(st, AppendTool(k, st, id, content), [Tool(id, content)])
  {
    AppendMsgAdds(k, st, Tool(id, content));
  }

  lemma {:induction false} HealAdds(k: Site, st: St, orphans: seq<Orphan>)
    ensures Adds(st, Heal(k, st, orphans), [])
    decreases |orphans|
  {
    if orphans != [] {
      var o := orphans[0];
      var bypassed := st.pending.Some? && exists p :: p in st.pending.value && p.id == o.id;
      var st1 := if bypassed then st.(pending := None) else st;
      AppendAdds(k, st1, ToolApproval(o.id, false, true));
      AppendAdds(k, Append(k, st1, ToolApproval(o.id, false, true)), Message(Tool(o.id, o.content)));
      HealAdds(k, HealOne(k, st, o), orphans[1..]);
    }
  }

  // ---- one turn ----

  lemma EffectAdds(k: Site, st: St, call: ToolCall, e: Effect)
    ensures Adds(st, ApplyEffect(k, st, call, e), if e.Respond? then [Tool(call.id, e.content)] else [])
  {
    match e
    case Respond(content, ran, decision) =>
      var st1 := if decision.Some? then Append(k, st, ToolApproval(call.id, decision.value, false)) else st;
      var st2 := if ran then st1.(hist := st1.hist + [Ran(call.id)]) else st1;
      if decision.Some? { AppendAdds(k, st, ToolApproval(call.id, decision.value, false)); }
      assert Adds(st, st1, []) by { assert st.messages + [] == st.messages; }
      AppendToolAdds(k, st2, call.id, content);
      assert st.messages + [] == st.messages;
    case _ =>
      assert st.messages + [] == st.messages;
  }

  lemma DispatchOneAdds(k: Site, d: Dispatched, cfg: Config, w: World, turn: nat, call: ToolCall, i: nat)
    returns (tools: seq<Msg>)
    ensures
      var d' := DispatchOne(k, d, cfg, w, turn, call, i);
      && Adds(d.st, d'.st, tools)
      && (d.parked != [] ==> d'.parked != [])
      && (!d'.exhausted && d'.parked == [] ==> |tools| == 1 && tools[0].Tool? && tools[0].id == call.id)
  {
    match Gate.Admit(cfg.limits, d.gate, w.now(turn, i)).1
    case TurnLimitExceeded =>
      AppendToolAdds(k, d.st, call.id, TURN_LIMIT_ERROR);
      tools := [Tool(call.id, TURN_LIMIT_ERROR)];
    case RateLimitExceeded =>
      AppendToolAdds(k, d.st, call.id, RATE_ERROR);
      tools := [Tool(call.id, RATE_ERROR)];
    case SessionExhausted =>
      tools := [];
      assert d.st.messages + [] == d.st.messages;
    case Proceed =>
      var e := EffectOf(k, call, w.verdict(turn, i), d.parked != []);
      EffectAdds(k, d.st, call, e);
      tools := if e.Respond? then [Tool(call.id, e.content)] else [];
  }

  /** A turn that neither parks a call nor runs out answers every call, in call order. */
  lemma {:induction false} DispatchAnswersAll(k: Site, d: Dispatched, cfg: Config, w: World, turn: nat,
      calls: seq<ToolCall>, i: nat)
    returns (tools: seq<Msg>)
    requires i <= |calls|
    ensures
      var d' := DispatchFrom(k, d, cfg, w, turn, calls, i);
      && Adds(d.st, d'.st, tools)
      && (d.parked != [] ==> d'.parked != []) && (d.exhausted ==> d'.exhausted)
      && (!d'.exhausted && d'.parked == [] ==> |tools| == |calls| - i && AnswersTo(calls[i..], tools))
    decreases |calls| - i
  {
    if i == |calls| || d.exhausted {
      assert d.st.messages + [] == d.st.messages;
      return [];
    }
    var d1 := DispatchOne(k, d, cfg, w, turn, calls[i], i);
    var first := DispatchOneAdds(k, d, cfg, w, turn, calls[i], i);
    var rest := DispatchAnswersAll(k, d1, cfg, w, turn, calls, i + 1);
    var d' := DispatchFrom(k, d, cfg, w, turn, calls, i);
    AddsTrans(d.st, d1.st, d'.st, first, rest);
    tools := first + rest;
    if !d'.exhausted && d'.parked == [] {
      forall j | 0 <= j < |calls| - i ensures tools[j].Tool? && tools[j].id == calls[i..][j].id {
        if j > 0 { assert tools[j] == rest[j - 1] && calls[i..][j] == calls[i + 1..][j - 1]; }
      }
    }
  }

  lemma RecordReplyAdds(k: Site, st: St, r: Reply)
    requires r.Reply?
    ensures Adds(st, RecordReply(k, st, r), [Assistant(r.content, r.calls)])
  {
    var a := Assistant(r.content, r.calls);
    var st1 := Append(k, st, Message(a)).(called := st.called + Ids(r.calls));
    AppendAdds(k, st, Message(a));
    if r.usage.Some? { AppendAdds(k, st1, TokenUsage(r.usage.value)); }
  }

  /** An answered turn is a legal piece of transcript. */
  lemma TurnIsClosed(r: Reply, tools: seq<Msg>)
    requires r.Reply? && |tools| == |r.calls| && AnswersTo(r.calls, tools)
    ensures Closed([Assistant(r.content, r.calls)] + tools)
  {
    var ms := [Assistant(r.content, r.calls)] + tools;
    assert ms[1..] == tools && ms[1 + |r.calls|..] == [];
  }

  // ---- the loop ----

  /** The list in memory: system prefix, repaired base, and the legal turns since. */
  predicate InMemory(st: St, base: seq<Msg>, s: seq<Msg>) {
    st.messages == Prefix(st.log) + Repair(base).msgs + s && Closed(s)
  }

  lemma InMemoryGrows(a: St, b: St, base: seq<Msg>, s: seq<Msg>, added: seq<Msg>)
    requires InMemory(a, base, s) && Adds(a, b, added) && Closed(added)
    ensures InMemory(b, base, s + added)
  {
    ClosedAppend(s, added);
    ConcatAssoc(Prefix(a.log) + Repair(base).msgs, s, added);
  }

  lemma AnswersLieBefore(calls: seq<ToolCall>, a: seq<Msg>, b: seq<Msg>)
    requires Closed(b) && AnswersTo(calls, a + b)
    ensures |calls| <= |a| && AnswersTo(calls, a)
  {
    assert |a| < |a + b| ==> (a + b)[|a|] == b[0];
    assert forall i :: 0 <= i < |a| ==> (a + b)[i] == a[i];
  }

  lemma {:induction false} ClosedFront(a: seq<Msg>, b: seq<Msg>)
    requires Closed(a + b) && Closed(b)
    ensures Closed(a)
    decreases |a|
  {
    if a != [] {
      assert (a + b)[0] == a[0] && (a + b)[1..] == a[1..] + b;
      if a[0].Assistant? { AnswersLieBefore(a[0].calls, a[1..], b); }
      var n := if a[0].Assistant? then 1 + |a[0].calls| else 1;
      assert (a + b)[n..] == a[n..] + b;
      ClosedFront(a[n..], b);
    }
  }

  lemma MemoryClosedIff(st: St, base: seq<Msg>, s: seq<Msg>)
    requires InMemory(st, base, s)
    ensures Closed(st.messages) <==> Closed(Repair(base).msgs)
  {
    var p, r := Prefix(st.log), Repair(base).msgs;
    PrefixIsSystem(st.log);
    SystemMentions(p);
    ConcatAssoc(p, r, s);
    ClosedAppend(p, r + s);
    if Closed(r + s) { ClosedFront(r, s); }
    if Closed(r) { ClosedAppend(r, s); }
  }

  predicate SentFrom(sent: seq<Sent>, from: nat, base: seq<Msg>)
    requires from <= |sent|
  {
    forall j :: from <= j < |sent| ==>
      sent[j].base == base && (Closed(sent[j].msgs) <==> Closed(Repair(base).msgs))
  }

  /** An empty reply followed by the nudge. */
  lemma NudgeStep(k: Site, st: St, r: Reply, base: seq<Msg>, s: seq<Msg>) returns (added: seq<Msg>)
    requires r.Reply? && r.calls == [] && InMemory(st, base, s)
    ensures added == [Assistant(r.content, r.calls), User(RESUME_NUDGE_PROMPT)]
    ensures
      var st' := AppendMsg(k, RecordReply(k, st, r), User(RESUME_NUDGE_PROMPT));
      Adds(st, st', added) && Closed(added) && InMemory(st', base, s + added)
  {
    var a, u := Assistant(r.content, r.calls), User(RESUME_NUDGE_PROMPT);
    var st1 := RecordReply(k, st, r);
    RecordReplyAdds(k, st, r);
    AppendMsgAdds(k, st1, u);
    AddsTrans(st, st1, AppendMsg(k, st1, u), [a], [u]);
    added := [a] + [u];
    assert added[1..] == [u] && [u][1..] == [];
    InMemoryGrows(st, AppendMsg(k, st1, u), base, s, added);
  }

  /** A turn whose calls were all answered. */
  lemma AnsweredStep(k: Site, st: St, r: Reply, gate: Gate.Counts, cfg: Config, w: World, turn: nat, base: seq<Msg>,
                     s: seq<Msg>)
    returns (tools: seq<Msg>)
    requires r.Reply? && InMemory(st, base, s)
    ensures
      var d := DispatchFrom(k, Dispatched(RecordReply(k, st, r), gate, [], false), cfg, w, turn, r.calls, 0);
      var added := [Assistant(r.content, r.calls)] + tools;
      && d.st.sent == st.sent
      && (!d.exhausted && d.parked == [] ==>
            && |tools| == |r.calls| && AnswersTo(r.calls, tools)
            && Adds(st, d.st, added) && Closed(added) && InMemory(d.st, base, s + added))
  {
    var d0 := Dispatched(RecordReply(k, st, r), gate, [], false);
    var d := DispatchFrom(k, d0, cfg, w, turn, r.calls, 0);
    RecordReplyAdds(k, st, r);
    tools := DispatchAnswersAll(k, d0, cfg, w, turn, r.calls, 0);
    AddsTrans(st, d0.st, d.st, [Assistant(r.content, r.calls)], tools);
    if !d.exhausted && d.parked == [] {
      assert r.calls[0..] == r.calls;
      TurnIsClosed(r, tools);
      InMemoryGrows(st, d.st, base, s, [Assistant(r.content, r.calls)] + tools);
    }
  }

  lemma SendKeeps(st: St, base: seq<Msg>, s: seq<Msg>)
    requires InMemory(st, base, s)
    ensures InMemory(Send(st, base), base, s)
    ensures SentFrom(Send(st, base).sent, |st.sent|, base) && st.sent <= Send(st, base).sent
  {
    MemoryClosedIff(st, base, s);
  }

  lemma TurnKeeps(k: Site, l: Loop, cfg: Config, w: World, byApprove: bool, base: seq<Msg>, s: seq<Msg>)
    returns (s': seq<Msg>)
    requires InMemory(l.st, base, s)
    ensures
      match Turn(k, l, cfg, w, byApprove, base)
      case Ended(st, _) => st.sent == Send(l.st, base).sent
      case Again(next) =>
        next.st.sent == Send(l.st, base).sent && InMemory(next.st, base, s') && l.st.messages <= next.st.messages
  {
    var st := Send(l.st, base);
    s' := s;
    SendKeeps(l.st, base, s);
    match w.reply(l.turn)
    case TransportFault =>
    case HttpFault =>
    case Reply(content, calls, usage) =>
      var r := Reply(content, calls, usage);
      RecordReplyAdds(k, st, r);
      if calls == [] {
        var added := NudgeStep(k, st, r, base, s);
        s' := s + added;
      } else {
        var tools := AnsweredStep(k, st, r, Gate.BeginTurn(l.gate), cfg, w, l.turn, base, s);
        s' := s + ([Assistant(content, calls)] + tools);
      }
  }

  lemma {:induction false} TurnsRequests(k: Site, l: Loop, cfg: Config, w: World, byApprove: bool, base: seq<Msg>,
                                         s: seq<Msg>)
    requires InMemory(l.st, base, s)
    ensures
      var st' := Turns(k, l, cfg, w, byApprove, base).0;
      l.st.sent <= st'.sent && SentFrom(st'.sent, |l.st.sent|, base)
    decreases cfg.maxTurns - l.turn
  {
    if l.turn >= cfg.maxTurns { return; }
    hide InMemory, Turn;
    SendKeeps(l.st, base, s);
    var s' := TurnKeeps(k, l, cfg, w, byApprove, base, s);
    match Turn(k, l, cfg, w, byApprove, base)
    case Ended(_, _) =>
    case Again(next) =>
      TurnCounts(k, l, cfg, w, byApprove, base);
      TurnsRequests(k, next, cfg, w, byApprove, base, s');
      SentFromJoin(Send(l.st, base).sent, Turns(k, next, cfg, w, byApprove, base).0.sent, |l.st.sent|, base);
  }

  lemma TurnCounts(k: Site, l: Loop, cfg: Config, w: World, byApprove: bool, base: seq<Msg>)
    ensures Turn(k, l, cfg, w, byApprove, base).Again? ==> Turn(k, l, cfg, w, byApprove, base).next.turn == l.turn + 1
  {
  }

  lemma SentFromJoin(a: seq<Sent>, b: seq<Sent>, from: nat, base: seq<Msg>)
    requires from <= |a| && a <= b && SentFrom(a, from, base) && SentFrom(b, |a|, base)
    ensures SentFrom(b, from, base)
  {
  }

  // ---- one invocation ----

  lemma RepairOrphansInMemory(k: Site, st: St, base: seq<Msg>)
    requires st.messages == Prefix(st.log) + base
    ensures InMemory(RepairOrphans(k, st), base, []) && RepairOrphans(k, st).sent == st.sent
  {
    PrefixIsSystem(st.log);
    RepairAfterSystem(Prefix(st.log), base);
    HealAdds(k, st, Repair(st.messages).orphans);
    var m := Prefix(st.log) + Repair(base).msgs;
    assert m + [] == m;
  }

  lemma {:induction false} ExecuteAdds(k: Site, st: St, w: World, ps: seq<Pending>, i: nat) returns (tools: seq<Msg>)
    requires i <= |ps|
    ensures
      var (st', ok) := Execute(k, st, w, ps, i);
      && Adds(st, st', tools)
      && (ok ==> |tools| == |ps| - i && forall j :: i <= j < |ps| ==> tools[j - i] == Tool(ps[j].id, w.executed(j)))
    decreases |ps| - i
  {
    tools := [];
    assert st.messages + [] == st.messages;
    if i < |ps| {
      var p := ps[i];
      var st1 := Append(k, st, ToolApproval(p.id, true, false));
      AppendAdds(k, st, ToolApproval(p.id, true, false));
      if !(p.kind == CommandTool && !k.commandParses(p.args)) {
        var st2 := st1.(hist := st1.hist + [Ran(p.id)]);
        AppendToolAdds(k, st2, p.id, w.executed(i));
        var rest := ExecuteAdds(k, AppendTool(k, st2, p.id, w.executed(i)), w, ps, i + 1);
        tools := [Tool(p.id, w.executed(i))] + rest;
        AddsTrans(st2, AppendTool(k, st2, p.id, w.executed(i)), Execute(k, st, w, ps, i).0,
            [Tool(p.id, w.executed(i))], rest);
      }
    }
  }

  lemma CompactSends(k: Site, st: St, cfg: Config, w: World)
    ensures AutoCompact(k, st, cfg, w).sent == st.sent
  {
  }

  /** Running the parked calls, then repairing. */
  lemma ApprovalInMemory(k: Site, st: St, w: World, ps: seq<Pending>)
    requires st.messages == InitialMessages(st.log)
    ensures
      var st3 := Execute(k, st, w, ps, 0).0;
      var st' := RepairOrphans(k, st3.(pending := None));
      InMemory(st', AfterPrefix(st3.log, st3.messages), []) && st'.sent == st.sent
  {
    var st3 := Execute(k, st, w, ps, 0).0;
    var tools := ExecuteAdds(k, st, w, ps, 0);
    ConcatAssoc(Prefix(st.log), Conversation(st.log), tools);
    var base := AfterPrefix(st3.log, st3.messages);
    assert base == Conversation(st.log) + tools;
    RepairOrphansInMemory(k, st3.(pending := None), base);
  }

  /** Repairing, then appending the prompt. */
  lemma PromptInMemory(k: Site, st: St, text: string)
    requires st.messages == InitialMessages(st.log)
    ensures
      var st' := AppendMsg(k, RepairOrphans(k, st), User(text));
      InMemory(st', Conversation(st.log), [User(text)]) && st'.sent == st.sent
  {
    var x := Conversation(st.log);
    RepairOrphansInMemory(k, st, x);
    AppendMsgAdds(k, RepairOrphans(k, st), User(text));
    UserIsClosed(text);
    InMemoryGrows(RepairOrphans(k, st), AppendMsg(k, RepairOrphans(k, st), User(text)), x, [], [User(text)]);
    assert [] + [User(text)] == [User(text)];
  }

  lemma UserIsClosed(text: string)
    ensures Closed([User(text)])
  {
    assert [User(text)][1..] == [];
  }

  lemma StartInMemory(k: Site, st: St, inv: Invocation) returns (s: seq<Msg>)
    ensures
      var (st', base, ready) := Start(k, st, inv);
      st'.sent == st.sent && (ready ==> InMemory(st', base, s))
  {
    s := [];
    var cont := Normalise(st, inv.cont);
    var st1 := if inv.cont.Prompt? then AutoCompact(k, st, inv.cfg, inv.world) else st;
    var st2 := st1.(messages := InitialMessages(st1.log));
    CompactSends(k, st, inv.cfg, inv.world);
    if st2.pending.Some? { ExecuteSends(k, st2, inv.world, st2.pending.value); }
    RepairOrphansInMemory(k, st2, Conversation(st2.log));
    hide AutoCompact, InMemory, RepairOrphans, Execute, AppendMsg, AfterPrefix, Prefix, Conversation;
    match cont
    case Approve =>
      if inv.world.grantOk && st2.pending.Some? { ApprovalInMemory(k, st2, inv.world, st2.pending.value); }
    case Retry =>
    case Prompt(text) =>
      PromptInMemory(k, st2, text);
      s := [User(text)];
  }

  lemma ExecuteSends(k: Site, st: St, w: World, ps: seq<Pending>)
    ensures Execute(k, st, w, ps, 0).0.sent == st.sent
  {
    var tools := ExecuteAdds(k, st, w, ps, 0);
  }

  /** Opening and closing send nothing. */
  lemma InvokeSends(k: Site, st: St, inv: Invocation) returns (s: seq<Msg>)
    ensures
      var st0 := Begun(k, st);
      var (st1, base, ready) := Start(k, st0, inv);
      && st1.sent == st.sent && (ready ==> InMemory(st1, base, s))
      && Invoke(k, st, inv).0.sent ==
         if ready then Turns(k, Loop(st1, Gate.NEW, 0, false), inv.cfg, inv.world, inv.cont.Approve?, base).0.sent
         else st.sent
  {
    s := StartInMemory(k, Begun(k, st), inv);
    hide Start, Turns, InMemory;
  }

  /** From any session state and in any world: every request the invocation sends is a legal transcript
      if and only if the conversation it repaired has distinct call ids and no answer before its call. */
  lemma RequestsClosedIff(k: Site, st: St, inv: Invocation, j: nat)
    requires |st.sent| <= j < |Invoke(k, st, inv).0.sent|
    ensures
      var r := Invoke(k, st, inv).0.sent[j];
      Closed(r.msgs) <==> Distinct(CallIds(r.base)) && AnswersFollowCalls(r.base)
  {
    var (st1, base, ready) := Start(k, Begun(k, st), inv);
    var s := InvokeSends(k, st, inv);
    hide Start, Turns, Invoke, InMemory;
    if ready {
      TurnsRequests(k, Loop(st1, Gate.NEW, 0, false), inv.cfg, inv.world, inv.cont.Approve?, base, s);
      RepairClosedIff(base);
    }
  }

  /** Requests already sent are never rewritten. */
  lemma RequestsOnlyGrow(k: Site, st: St, inv: Invocation)
    ensures st.sent <= Invoke(k, st, inv).0.sent
  {
    var (st1, base, ready) := Start(k, Begun(k, st), inv);
    var s := InvokeSends(k, st, inv);
    hide Start, Turns, Invoke, InMemory;
    if ready { TurnsRequests(k, Loop(st1, Gate.NEW, 0, false), inv.cfg, inv.world, inv.cont.Approve?, base, s); }
  }
}
