/** Which requests of AgentCore carry a legal transcript: exactly those before any cancel of a running
    tool turn. */
module AgentTranscript {
  import opened Options
  import opened Transcript
  import opened Invocations
  import opened Agent
  import opened AgentInvariant
  import opened AgentSteps

  /** A cancel that lands while tools are running or waiting for approval. */
  predicate Aborts(c: Core, e: Event) {
    e.Cancel? && c.pending.Some? && c.pending.value.phase != Streaming
  }

  predicate AbortFree(k: Codec, c: Core, es: seq<Event>)
    decreases |es|
  {
    es == [] || (!Aborts(c, es[0]) && AbortFree(k, Step(k, c, es[0]).0, es[1..]))
  }

  /** The entries stand for the calls, position by position. */
  predicate StandFor(calls: seq<ToolCall>, rs: seq<Entry>) {
    |calls| == |rs| && forall i :: 0 <= i < |rs| ==> rs[i].callId == calls[i].id
  }

  /** The conversation ends with the assistant message whose calls the entries stand for. */
  predicate OpenEnd(ms: seq<Msg>, rs: seq<Entry>) {
    && |ms| > 0 && ms[|ms| - 1].Assistant?
    && StandFor(ms[|ms| - 1].calls, rs)
    && Closed(ms[..|ms| - 1])
  }

  /** Nothing has been left unanswered so far. */
  predicate Clean(c: Core) {
    if c.pending.None? || c.pending.value.phase == Streaming then Closed(c.conversation)
    else OpenEnd(c.conversation, c.pending.value.results)
  }

  /** The assistant message at `i` lost its answers for good. */
  predicate BrokenAt(c: Core, i: nat) {
    && i < |c.conversation| && Closed(c.conversation[..i])
    && c.conversation[i].Assistant? && c.conversation[i].calls != []
    && if i + 1 < |c.conversation| then !c.conversation[i + 1].Tool? else c.pending.None?
  }

  lemma BrokenIsOpen(ms: seq<Msg>, i: nat)
    requires i + 1 < |ms| && Closed(ms[..i]) && ms[i].Assistant? && ms[i].calls != [] && !ms[i + 1].Tool?
    ensures !Closed(ms)
  {
    ClosedAppend(ms[..i], ms[i..]);
    assert ms == ms[..i] + ms[i..];
    assert ms[i..][1..][0] == ms[i + 1];
  }

  lemma ClosedSnoc(ms: seq<Msg>, m: Msg)
    requires Closed(ms) && (m.User? || m.System? || (m.Assistant? && m.calls == []))
    ensures Closed(ms + [m])
  {
    ClosedAppend(ms, [m]);
    assert [m][1..] == [];
    assert Closed([]);
  }

  /** Answering the last assistant message closes the transcript. */
  lemma AnswersClose(k: Codec, ms: seq<Msg>, rs: seq<Entry>)
    requires OpenEnd(ms, rs) && AllResolved(rs)
    ensures Closed(ms + ToolMessages(k, rs))
  {
    var a := ms[..|ms| - 1];
    var tail := [ms[|ms| - 1]] + ToolMessages(k, rs);
    assert ms + ToolMessages(k, rs) == a + tail;
    ClosedAppend(a, tail);
    assert tail[1..] == ToolMessages(k, rs);
    assert tail[1 + |rs|..] == [];
    assert Closed([]);
  }

  // ---- what one step does to the conversation ----

  predicate Asks(c: Core, actions: seq<Action>) {
    forall i :: 0 <= i < |actions| && actions[i].StartRequest? ==> Asking(c, actions[i])
  }

  predicate Asking(c: Core, a: Action)
    requires a.StartRequest?
  {
    a.messages == c.conversation && c.pending.Some? && c.pending.value.phase == Streaming
  }

  predicate Extends(a: seq<Msg>, b: seq<Msg>) { |a| <= |b| && b[..|a|] == a }

  lemma AppendExtends(a: seq<Msg>, b: seq<Msg>)
    ensures Extends(a, a + b)
  {
  }

  lemma PlainAsks(c: Core, actions: seq<Action>)
    requires Quiet(actions)
    ensures Asks(c, actions)
  {
  }

  lemma SameIds(calls: seq<ToolCall>, rs: seq<Entry>, i: nat, r: Entry)
    requires StandFor(calls, rs) && i < |rs| && r.callId == rs[i].callId
    ensures StandFor(calls, rs[i := r])
  {
  }

  lemma EditedTalk(k: Codec, c: Core, d: Edit)
    requires d.Edit? && c.pending.Some? && c.pending.value.phase != Streaming && d.at < |c.pending.value.results|
    requires d.entry.callId == c.pending.value.results[d.at].callId
    requires d.action.Some? ==> !d.action.value.StartRequest?
    ensures
      var (c', actions) := Edited(k, c, d);
      && Asks(c', actions) && Extends(c.conversation, c'.conversation)
      && c'.pending.Some?
      && (Clean(c) ==> Clean(c'))
      && (c.conversation == c'.conversation || c'.pending.value.phase == Streaming)
  {
    hide Closed, ApprovalOpen;
    var rs := c.pending.value.results[d.at := d.entry];
    if Clean(c) {
      SameIds(c.conversation[|c.conversation| - 1].calls, c.pending.value.results, d.at, d.entry);
      if AllResolved(rs) { AnswersClose(k, c.conversation, rs); }
    }
  }

  lemma EntryKeepsId(k: Codec, request: nat, r: Entry, e: Event)
    requires ToolEvent(e)
    ensures
      var (r', action) := EntryAfter(k, request, r, e);
      r'.callId == r.callId && (action.Some? ==> !action.value.StartRequest?)
  {
  }

  lemma ToolTalk(k: Codec, c: Core, e: Event)
    requires Valid(c) && ToolEvent(e)
    ensures Asks(Step(k, c, e).0, Step(k, c, e).1)
    ensures Extends(c.conversation, Step(k, c, e).0.conversation)
    ensures Clean(c) ==> Clean(Step(k, c, e).0)
    ensures c.pending.None? ==> Step(k, c, e).0.conversation == c.conversation && Step(k, c, e).0.pending.None?
  {
    hide Step, EntryAfter, Closed, Edited, FlightValid;
    ToolStep(k, c, e);
    var d := EditOf(k, c, e);
    if d.Edit? {
      EntryKeepsId(k, c.pending.value.id, c.pending.value.results[d.at], e);
      EditedTalk(k, c, d);
    } else {
      AppendExtends(c.conversation, []);
      assert c.conversation + [] == c.conversation;
    }
  }

  lemma BatchStandsFor(k: Codec, c: Core, calls: seq<ToolCall>)
    requires c.pending.Some?
    ensures StandFor(calls, BatchOf(k, c, calls).entries)
    ensures Quiet(BatchOf(k, c, calls).actions)
  {
    hide Started;
    var b := Batch([], [], c.callsThisTurn, c.metrics);
    DispatchShape(k, c.workspace, c.pending.value.id, TooLarge(c.pending.value.slots), calls, b);
    var b' := BatchOf(k, c, calls);
    forall i | 0 <= i < |calls| ensures b'.entries[i].callId == calls[i].id {
      StartedId(calls[i], b'.entries[|b.entries| + i]);
    }
    DispatchPlain(k, c.workspace, c.pending.value.id, TooLarge(c.pending.value.slots), calls, b);
  }

  lemma StartedId(call: ToolCall, r: Entry)
    ensures Started(call, r) ==> r.callId == call.id
  {
  }

  predicate Quiet(actions: seq<Action>) { forall i :: 0 <= i < |actions| ==> !actions[i].StartRequest? }

  lemma RulePlain(k: Codec, ws: string, request: nat, tooLarge: bool, used: nat, call: ToolCall)
    ensures Quiet(Rule(k, ws, request, tooLarge, used, call).actions)
  {
  }

  lemma QuietAppend(a: seq<Action>, b: seq<Action>)
    requires Quiet(a) && Quiet(b)
    ensures Quiet(a + b)
  {
  }

  lemma {:induction false} DispatchPlain(k: Codec, ws: string, request: nat, tooLarge: set<string>,
                                         calls: seq<ToolCall>, b: Batch)
    requires Quiet(b.actions)
    ensures Quiet(Dispatch(k, ws, request, tooLarge, calls, b).actions)
    decreases |calls|
  {
    hide Rule, Quiet;
    if calls != [] {
      RulePlain(k, ws, request, calls[0].id in tooLarge, b.used, calls[0]);
      QuietAppend(b.actions, Rule(k, ws, request, calls[0].id in tooLarge, b.used, calls[0]).actions);
      DispatchPlain(k, ws, request, tooLarge, calls[1..], DispatchOne(k, ws, request, tooLarge, calls[0], b));
    }
  }

  lemma AsksAppend(c: Core, a: seq<Action>, b: seq<Action>)
    requires Asks(c, a) && Asks(c, b)
    ensures Asks(c, a + b)
  {
  }

  lemma FinishTalk(k: Codec, c: Core, request: nat, reason: Option<string>)
    requires Valid(c)
    ensures
      var (c', actions) := OnFinish(k, c, request, reason);
      && Asks(c', actions) && Extends(c.conversation, c'.conversation)
      && (Clean(c) ==> Clean(c'))
      && (c.pending.None? ==> c'.conversation == c.conversation && c'.pending.None?)
  {
    hide Closed, ApprovalOpen, Dispatch, FinalCalls, FlightValid;
    if !Streams(c, request) {
    } else if reason == Some("tool_calls") && c.pending.value.slots != map[] {
      var c0 := Counted(c, FinishesCommitted);
      var calls := FinalCalls(c.pending.value.slots);
      var b := BatchOf(k, c0, calls);
      BatchStandsFor(k, c0, calls);
      var (c', actions) := OnFinish(k, c, request, reason);
      PlainAsks(c', b.actions);
      var last := actions[|b.actions|..];
      assert actions == b.actions + last;
      AsksAppend(c', b.actions, last);
      var ms := c.conversation + [Assistant(c.pending.value.response.content, calls)];
      if AllResolved(b.entries) {
        ConcatAssoc(c.conversation, [Assistant(c.pending.value.response.content, calls)], ToolMessages(k, b.entries));
        AppendExtends(c.conversation, [Assistant(c.pending.value.response.content, calls)] +
                      ToolMessages(k, b.entries));
      }
      if Clean(c) {
        assert ms[..|ms| - 1] == c.conversation;
        assert OpenEnd(ms, b.entries);
        if AllResolved(b.entries) { AnswersClose(k, ms, b.entries); }
      }
    } else if Clean(c) {
      ClosedSnoc(c.conversation, Assistant(c.pending.value.response.content, []));
    }
  }

  lemma OtherTalk(k: Codec, c: Core, e: Event)
    requires Valid(c) && !ToolEvent(e) && !e.Finish?
    ensures Asks(Step(k, c, e).0, Step(k, c, e).1)
    ensures Extends(c.conversation, Step(k, c, e).0.conversation)
    ensures Clean(c) && !Aborts(c, e) ==> Clean(Step(k, c, e).0)
    ensures c.pending.None? ==>
      var c' := Step(k, c, e).0;
      if e.UserMessage? then c'.conversation == c.conversation + [User(e.text)]
      else c'.conversation == c.conversation && c'.pending.None?
  {
    hide Closed;
    if e.UserMessage? && c.pending.None? && Clean(c) { ClosedSnoc(c.conversation, User(e.text)); }
  }

  lemma StepTalk(k: Codec, c: Core, e: Event)
    requires Valid(c)
    ensures Asks(Step(k, c, e).0, Step(k, c, e).1)
    ensures Extends(c.conversation, Step(k, c, e).0.conversation)
    ensures Clean(c) && !Aborts(c, e) ==> Clean(Step(k, c, e).0)
    ensures c.pending.None? ==>
      var c' := Step(k, c, e).0;
      if e.UserMessage? then c'.conversation == c.conversation + [User(e.text)]
      else c'.conversation == c.conversation && c'.pending.None?
  {
    hide Asks, Extends, Clean, OnFinish, Valid;
    if e.Finish? { FinishTalk(k, c, e.request, e.reason); }
    else if ToolEvent(e) { ToolTalk(k, c, e); }
    else { OtherTalk(k, c, e); }
  }

  /** A cancelled tool turn leaves its assistant message unanswered. */
  lemma AbortBreaks(k: Codec, c: Core, e: Event)
    requires Valid(c) && Clean(c) && Aborts(c, e)
    ensures BrokenAt(Step(k, c, e).0, |c.conversation| - 1)
  {
    hide Closed;
    assert c.pending.value.results != [];
  }

  lemma BrokenStays(k: Codec, c: Core, e: Event, i: nat)
    requires Valid(c) && BrokenAt(c, i)
    ensures BrokenAt(Step(k, c, e).0, i)
  {
    hide Step, Closed, Valid;
    StepTalk(k, c, e);
    var c' := Step(k, c, e).0;
    assert c.conversation[..i] == c'.conversation[..|c.conversation|][..i] == c'.conversation[..i];
    assert c'.conversation[i] == c'.conversation[..|c.conversation|][i];
    if i + 1 < |c.conversation| {
      assert c'.conversation[i + 1] == c'.conversation[..|c.conversation|][i + 1];
    } else if e.UserMessage? {
      assert c'.conversation[i + 1] == User(e.text);
    }
  }

  lemma {:induction false} BrokenRun(k: Codec, c: Core, es: seq<Event>, i: nat)
    requires Valid(c) && BrokenAt(c, i)
    ensures BrokenAt(Run(k, c, es).0, i)
    decreases |es|
  {
    hide Step, Valid, BrokenAt;
    if es != [] {
      StepKeeps(k, c, es[0]);
      BrokenStays(k, c, es[0], i);
      BrokenRun(k, Step(k, c, es[0]).0, es[1..], i);
    }
  }

  lemma {:induction false} RunVerdict(k: Codec, c: Core, es: seq<Event>)
    requires Valid(c) && Clean(c)
    ensures if AbortFree(k, c, es) then Clean(Run(k, c, es).0) else exists i :: BrokenAt(Run(k, c, es).0, i)
    decreases |es|
  {
    hide Step, Valid, Clean, BrokenAt;
    if es != [] {
      var c1 := Step(k, c, es[0]).0;
      StepKeeps(k, c, es[0]);
      if Aborts(c, es[0]) {
        CleanHasEnd(c);
        AbortBreaks(k, c, es[0]);
        BrokenRun(k, c1, es[1..], |c.conversation| - 1);
        assert BrokenAt(Run(k, c, es).0, |c.conversation| - 1);
      } else {
        StepTalk(k, c, es[0]);
        RunVerdict(k, c1, es[1..]);
        assert Run(k, c, es).0 == Run(k, c1, es[1..]).0;
        if !AbortFree(k, c, es) {
          var i :| BrokenAt(Run(k, c1, es[1..]).0, i);
          assert BrokenAt(Run(k, c, es).0, i);
        }
      }
    }
  }

  lemma CleanHasEnd(c: Core)
    requires Clean(c)
    ensures c.pending.Some? && c.pending.value.phase != Streaming ==> |c.conversation| > 0
  {
  }

  /** For every run and every request sent after it: the transcript sent is closed if and only if no
      cancel has landed in a tool phase. Ids may repeat. */
  lemma RequestClosedIff(k: Codec, workspace: string, es: seq<Event>, e: Event, a: Action)
    requires a in Step(k, Run(k, INITIAL.(workspace := workspace), es).0, e).1 && a.StartRequest?
    ensures Closed(a.messages) <==> AbortFree(k, INITIAL.(workspace := workspace), es)
  {
    hide Step, Valid, Clean, BrokenAt;
    var c0 := INITIAL.(workspace := workspace);
    var c := Run(k, c0, es).0;
    StartsClean(workspace);
    RunVerdict(k, c0, es);
    RunKeeps(k, c0, es);
    StepTalk(k, c, e);
    var c' := Step(k, c, e).0;
    assert Asking(c', a);
    if AbortFree(k, c0, es) {
      CancelAsksNothing(k, c, e, a);
      CleanIsClosed(c');
    } else {
      var i :| BrokenAt(c, i);
      BrokenStays(k, c, e, i);
      BrokenNotClosed(c', i);
    }
  }

  lemma StartsClean(workspace: string)
    ensures Valid(INITIAL.(workspace := workspace)) && Clean(INITIAL.(workspace := workspace))
  {
  }

  lemma CleanIsClosed(c: Core)
    requires Clean(c) && c.pending.Some? && c.pending.value.phase == Streaming
    ensures Closed(c.conversation)
  {
  }

  lemma BrokenNotClosed(c: Core, i: nat)
    requires BrokenAt(c, i) && c.pending.Some?
    ensures !Closed(c.conversation)
  {
    hide Closed;
    BrokenIsOpen(c.conversation, i);
  }

  lemma CancelAsksNothing(k: Codec, c: Core, e: Event, a: Action)
    requires a in Step(k, c, e).1 && a.StartRequest?
    ensures !Aborts(c, e)
  {
  }
}
