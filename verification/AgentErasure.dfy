/** Events that carry the id of an inactive request might as well not have arrived: erasing them from a
    run changes nothing but counters. */
module AgentErasure {
  import opened Options
  import opened Transcript
  import opened Invocations
  import opened Agent
  import opened AgentInvariant
  import opened AgentSteps
  import opened AgentTranscript

  /** The request an event belongs to; prompts, cancels and decisions belong to none. */
  function RequestOf(e: Event): Option<nat> {
    if e.UserMessage? || e.Cancel? || e.ApproveToolCall? || e.RejectToolCall? then None else Some(e.request)
  }

  predicate Active(c: Core, request: nat) { c.pending.Some? && c.pending.value.id == request }

  predicate Stale(c: Core, e: Event) { RequestOf(e).Some? && !Active(c, RequestOf(e).value) }

  /** Equal but for the counters. */
  predicate Same(a: Core, b: Core) { a == b.(metrics := a.metrics) }

  /** The run without the events that are stale when they arrive. */
  function Fresh(k: Codec, c: Core, es: seq<Event>): seq<Event>
    decreases |es|
  {
    if es == [] then []
    else (if Stale(c, es[0]) then [] else [es[0]]) + Fresh(k, Step(k, c, es[0]).0, es[1..])
  }

  /** The run without any event that carries `request`. */
  function Without(es: seq<Event>, request: nat): seq<Event> {
    if es == [] then []
    else (if RequestOf(es[0]) == Some(request) then [] else [es[0]]) + Without(es[1..], request)
  }

  // ---- counters decide nothing ----

  predicate BatchSame(a: Batch, b: Batch) { a == b.(metrics := a.metrics) }

  lemma {:induction false} DispatchSame(k: Codec, ws: string, request: nat, tooLarge: set<string>,
                                        calls: seq<ToolCall>, a: Batch, b: Batch)
    requires BatchSame(a, b)
    ensures BatchSame(Dispatch(k, ws, request, tooLarge, calls, a), Dispatch(k, ws, request, tooLarge, calls, b))
    decreases |calls|
  {
    hide Rule;
    if calls != [] {
      DispatchSame(k, ws, request, tooLarge, calls[1..],
        DispatchOne(k, ws, request, tooLarge, calls[0], a), DispatchOne(k, ws, request, tooLarge, calls[0], b));
    }
  }

  lemma FinishSame(k: Codec, a: Core, b: Core, request: nat, reason: Option<string>)
    requires Same(a, b)
    ensures Same(OnFinish(k, a, request, reason).0, OnFinish(k, b, request, reason).0)
    ensures OnFinish(k, a, request, reason).1 == OnFinish(k, b, request, reason).1
  {
    hide Dispatch, FinalCalls, TooLarge, ApprovalOpen, AllResolved;
    if Streams(a, request) {
      var p := a.pending.value;
      DispatchSame(k, a.workspace, p.id, TooLarge(p.slots), FinalCalls(p.slots),
        Batch([], [], a.callsThisTurn, Counted(a, FinishesCommitted).metrics),
        Batch([], [], a.callsThisTurn, Counted(b, FinishesCommitted).metrics));
    }
  }

  lemma EditSame(k: Codec, a: Core, b: Core, e: Event)
    requires Same(a, b) && ToolEvent(e)
    ensures EditOf(k, a, e) == EditOf(k, b, e)
  {
    hide EntryAfter;
  }

  lemma EditedSame(k: Codec, a: Core, b: Core, d: Edit)
    requires Same(a, b)
    requires d.Edit? && a.pending.Some? && a.pending.value.phase != Streaming && d.at < |a.pending.value.results|
    ensures Same(Edited(k, a, d).0, Edited(k, b, d).0) && Edited(k, a, d).1 == Edited(k, b, d).1
  {
    hide ApprovalOpen, AllResolved;
  }

  lemma ValidSame(a: Core, b: Core)
    requires Same(a, b) && Valid(a)
    ensures Valid(b)
  {
  }

  lemma ToolSame(k: Codec, a: Core, b: Core, e: Event)
    requires Same(a, b) && Valid(a) && ToolEvent(e)
    ensures Same(Step(k, a, e).0, Step(k, b, e).0) && Step(k, a, e).1 == Step(k, b, e).1
  {
    hide Step, EditOf, Edited, Valid;
    ValidSame(a, b);
    ToolStep(k, a, e);
    ToolStep(k, b, e);
    EditSame(k, a, b, e);
    var d := EditOf(k, a, e);
    if d.Edit? { EditedSame(k, a, b, d); }
  }

  lemma OtherSame(k: Codec, a: Core, b: Core, e: Event)
    requires Same(a, b) && !ToolEvent(e) && !e.Finish?
    ensures Same(Step(k, a, e).0, Step(k, b, e).0) && Step(k, a, e).1 == Step(k, b, e).1
  {
    hide Merge, Overflows;
  }

  /** Equality but for the counters is a bisimulation. */
  lemma StepSame(k: Codec, a: Core, b: Core, e: Event)
    requires Same(a, b) && Valid(a)
    ensures Same(Step(k, a, e).0, Step(k, b, e).0) && Step(k, a, e).1 == Step(k, b, e).1
  {
    hide Same, Valid, OnFinish;
    if e.Finish? { FinishSame(k, a, b, e.request, e.reason); }
    else if ToolEvent(e) { ToolSame(k, a, b, e); }
    else { OtherSame(k, a, b, e); }
  }

  lemma StaleStep(k: Codec, c: Core, e: Event)
    requires Stale(c, e)
    ensures Same(Step(k, c, e).0, c) && Step(k, c, e).1 == []
  {
  }

  lemma {:induction false} RunSame(k: Codec, a: Core, b: Core, es: seq<Event>)
    requires Same(a, b) && Valid(a)
    ensures Same(Run(k, a, es).0, Run(k, b, es).0) && Run(k, a, es).1 == Run(k, b, es).1
    decreases |es|
  {
    hide Step, Valid, Same;
    if es != [] {
      StepSame(k, a, b, es[0]);
      StepKeeps(k, a, es[0]);
      RunSame(k, Step(k, a, es[0]).0, Step(k, b, es[0]).0, es[1..]);
    }
  }

  lemma SameTrans(a: Core, b: Core, c: Core)
    requires Same(a, b) && Same(b, c)
    ensures Same(a, c)
  {
  }

  lemma SameRefl(a: Core)
    ensures Same(a, a)
  {
  }

  /** Erasing the head of a run: a stale event changes nothing that the rest can see. */
  lemma SkipHead(k: Codec, c: Core, e: Event, rest: seq<Event>)
    requires Valid(c) && Stale(c, e)
    ensures Same(Run(k, Step(k, c, e).0, rest).0, Run(k, c, rest).0)
    ensures Run(k, Step(k, c, e).0, rest).1 == Run(k, c, rest).1
    ensures Step(k, c, e).1 == []
  {
    hide Step, Valid, Same, Stale, Run;
    StaleStep(k, c, e);
    StepKeeps(k, c, e);
    RunSame(k, Step(k, c, e).0, c, rest);
  }

  lemma RunUnroll(k: Codec, c: Core, e: Event, rest: seq<Event>)
    ensures Run(k, c, [e] + rest).0 == Run(k, Step(k, c, e).0, rest).0
    ensures Run(k, c, [e] + rest).1 == Step(k, c, e).1 + Run(k, Step(k, c, e).0, rest).1
  {
    hide Step;
    assert ([e] + rest)[1..] == rest;
  }

  /** In any run from a reachable state, deleting every event that is stale when it arrives leaves the
      final state (counters apart) and everything emitted unchanged. */
  lemma {:induction false} StaleEventsErase(k: Codec, c: Core, es: seq<Event>)
    requires Valid(c)
    ensures Same(Run(k, c, es).0, Run(k, c, Fresh(k, c, es)).0)
    ensures Run(k, c, es).1 == Run(k, c, Fresh(k, c, es)).1
    decreases |es|
  {
    hide Step, Valid, Same, Stale;
    if es == [] {
      SameRefl(c);
    } else {
      var c1 := Step(k, c, es[0]).0;
      var rest := Fresh(k, c1, es[1..]);
      StepKeeps(k, c, es[0]);
      StaleEventsErase(k, c1, es[1..]);
      if Stale(c, es[0]) {
        SkipHead(k, c, es[0], rest);
        assert Fresh(k, c, es) == rest;
        SameTrans(Run(k, c1, es[1..]).0, Run(k, c1, rest).0, Run(k, c, rest).0);
      } else {
        RunUnroll(k, c, es[0], rest);
      }
    }
  }

  // ---- a request that is over stays over ----

  predicate Retired(c: Core, request: nat) { request < c.nextId && !Active(c, request) }

  /** A step either keeps the id in flight, ends it, or mints the next one. */
  predicate IdStep(c: Core, c': Core, actions: seq<Action>) {
    if StartIds(actions) == [] then
      c'.nextId == c.nextId && (c'.pending.Some? ==> Active(c, c'.pending.value.id))
    else
      StartIds(actions) == [c.nextId] && c'.nextId == c.nextId + 1 && Active(c', c.nextId)
  }

  function StartIds(actions: seq<Action>): seq<nat> {
    if actions == [] then []
    else (if actions[0].StartRequest? then [actions[0].id] else []) + StartIds(actions[1..])
  }

  lemma {:induction false} StartIdsAppend(a: seq<Action>, b: seq<Action>)
    ensures StartIds(a + b) == StartIds(a) + StartIds(b)
  {
    if a == [] {
      assert a + b == b;
    } else {
      assert (a + b)[0] == a[0] && (a + b)[1..] == a[1..] + b;
      StartIdsAppend(a[1..], b);
      ConcatAssoc(if a[0].StartRequest? then [a[0].id] else [], StartIds(a[1..]), StartIds(b));
    }
  }

  lemma {:induction false} QuietIds(actions: seq<Action>)
    requires Quiet(actions)
    ensures StartIds(actions) == []
  {
    if actions != [] { QuietIds(actions[1..]); }
  }

  lemma TwoIds(a: Action, b: Action)
    requires !b.StartRequest?
    ensures StartIds([a, b]) == if a.StartRequest? then [a.id] else []
    ensures StartIds([b]) == []
  {
    assert [b][1..] == [];
    assert StartIds([b]) == [];
    assert [a, b][1..] == [b];
  }

  lemma ToolIds(k: Codec, c: Core, e: Event)
    requires Valid(c) && ToolEvent(e)
    ensures IdStep(c, Step(k, c, e).0, Step(k, c, e).1)
  {
    hide Step, EntryAfter, ApprovalOpen, AllResolved, FlightValid, StartIds;
    ToolStep(k, c, e);
    var d := EditOf(k, c, e);
    QuietIds([]);
    if d.Edit? {
      EntryKeepsId(k, c.pending.value.id, c.pending.value.results[d.at], e);
      if d.action.Some? { TwoIds(d.action.value, Redraw); }
      else { TwoIds(StartRequest(c.nextId, Edited(k, c, d).0.conversation), Redraw); }
    }
  }

  lemma FinishIds(k: Codec, c: Core, e: Event)
    requires Valid(c) && e.Finish?
    ensures IdStep(c, Step(k, c, e).0, Step(k, c, e).1)
  {
    hide Dispatch, FinalCalls, AllResolved, ApprovalOpen, StartIds, FlightValid;
    QuietIds([]);
    TwoIds(Redraw, Redraw);
    var actions := Step(k, c, e).1;
    if Streams(c, e.request) && e.reason == Some("tool_calls") && c.pending.value.slots != map[] {
      var c0 := Counted(c, FinishesCommitted);
      var calls := FinalCalls(c.pending.value.slots);
      var b := BatchOf(k, c0, calls);
      BatchStandsFor(k, c0, calls);
      QuietIds(b.actions);
      var last := actions[|b.actions|..];
      assert actions == b.actions + last;
      StartIdsAppend(b.actions, last);
      TwoIds(StartRequest(c.nextId, Step(k, c, e).0.conversation), Redraw);
      if AllResolved(b.entries) { assert last == [StartRequest(c.nextId, Step(k, c, e).0.conversation), Redraw]; }
      else { assert last == [Redraw]; }
    }
  }

  lemma OtherIds(k: Codec, c: Core, e: Event)
    requires Valid(c) && !ToolEvent(e) && !e.Finish?
    ensures IdStep(c, Step(k, c, e).0, Step(k, c, e).1)
  {
    hide Merge, Overflows;
    if e.UserMessage? && c.pending.None? {
      TwoIds(StartRequest(c.nextId, Step(k, c, e).0.conversation), Redraw);
    } else {
      QuietIds(Step(k, c, e).1);
    }
  }

  lemma StepKeepsRetired(k: Codec, c: Core, e: Event, request: nat)
    requires Valid(c) && Retired(c, request)
    ensures Retired(Step(k, c, e).0, request)
  {
    hide Step, Valid, StartIds;
    StepIds(k, c, e);
  }

  /** Once a request is over, every later event that carries its id can be deleted from the run, however
      the run goes on: final state (counters apart) and actions are the same. */
  lemma {:induction false} LateEventsErase(k: Codec, c: Core, es: seq<Event>, request: nat)
    requires Valid(c) && Retired(c, request)
    ensures Same(Run(k, c, es).0, Run(k, c, Without(es, request)).0)
    ensures Run(k, c, es).1 == Run(k, c, Without(es, request)).1
    decreases |es|
  {
    hide Step, Valid, Same;
    if es == [] {
      SameRefl(c);
    } else {
      var c1 := Step(k, c, es[0]).0;
      var rest := Without(es[1..], request);
      StepKeeps(k, c, es[0]);
      StepKeepsRetired(k, c, es[0], request);
      LateEventsErase(k, c1, es[1..], request);
      if RequestOf(es[0]) == Some(request) {
        SkipHead(k, c, es[0], rest);
        assert Without(es, request) == rest;
        SameTrans(Run(k, c1, es[1..]).0, Run(k, c1, rest).0, Run(k, c, rest).0);
      } else {
        RunUnroll(k, c, es[0], rest);
      }
    }
  }

  function Range(a: nat, b: nat): seq<nat>
    requires a <= b
  {
    seq(b - a, i requires 0 <= i => a + i)
  }

  /** The ids of the requests a run starts are consecutive: no id is ever minted twice. */
  lemma {:induction false} IdsAreConsecutive(k: Codec, c: Core, es: seq<Event>)
    requires Valid(c)
    ensures c.nextId <= Run(k, c, es).0.nextId
    ensures StartIds(Run(k, c, es).1) == Range(c.nextId, Run(k, c, es).0.nextId)
    decreases |es|
  {
    hide Step, Valid;
    if es == [] {
      QuietIds([]);
    } else {
      var (c1, first) := Step(k, c, es[0]);
      StepKeeps(k, c, es[0]);
      StepIds(k, c, es[0]);
      IdsAreConsecutive(k, c1, es[1..]);
      StartIdsAppend(first, Run(k, c1, es[1..]).1);
    }
  }

  lemma StepIds(k: Codec, c: Core, e: Event)
    requires Valid(c)
    ensures IdStep(c, Step(k, c, e).0, Step(k, c, e).1)
  {
    hide Step, Valid, IdStep;
    if ToolEvent(e) { ToolIds(k, c, e); }
    else if e.Finish? { FinishIds(k, c, e); }
    else { OtherIds(k, c, e); }
  }

  // ---- how a request ends ----

  /** Every way a request can stop being active, and what the shell is told. */
  predicate EndsBy(k: Codec, c: Core, e: Event, c': Core, actions: seq<Action>)
    requires c.pending.Some?
  {
    var id, streaming := c.pending.value.id, c.pending.value.phase == Streaming;
    if e.Cancel? then
      Given(c, c') && actions == [if streaming then CancelRequest(id) else CancelToolExecution(id), Redraw]
    else if e.Timeout? then
      && streaming && e.request == id && Given(c, c')
      && actions == [CancelRequest(id), ReportError("request timed out"), Redraw]
    else if e.TransportError? then
      streaming && e.request == id && Given(c, c') && actions == [ReportError(e.message), Redraw]
    else if e.Finish? then
      && streaming && e.request == id
      && |c'.conversation| > |c.conversation| && c'.conversation[|c.conversation|].Assistant?
      && (c'.pending.Some? ==> Active(c', c.nextId))
    else
      ToolEvent(e) && !streaming && |c'.conversation| > |c.conversation| && Active(c', c.nextId)
  }

  /** Given up: idle, the conversation as it was. */
  predicate Given(c: Core, c': Core) {
    c'.pending.None? && c'.status == Idle && c'.callsThisTurn == 0 && c'.conversation == c.conversation
  }

  /** A request ends only by a cancel, its timeout, its transport error, its finish, or the last result of its
      tools; and each of these is announced to the shell as such. */
  lemma EndingsAreAnnounced(k: Codec, c: Core, e: Event, request: nat)
    requires Valid(c) && Active(c, request) && !Active(Step(k, c, e).0, request)
    ensures EndsBy(k, c, e, Step(k, c, e).0, Step(k, c, e).1)
  {
    hide Dispatch, FinalCalls, AllResolved, ApprovalOpen, Merge, Overflows;
    if ToolEvent(e) { ToolEnds(k, c, e, request); }
  }

  lemma ToolEnds(k: Codec, c: Core, e: Event, request: nat)
    requires Valid(c) && Active(c, request) && !Active(Step(k, c, e).0, request) && ToolEvent(e)
    ensures EndsBy(k, c, e, Step(k, c, e).0, Step(k, c, e).1)
  {
    hide Step, EntryAfter, AllResolved, ApprovalOpen;
    ToolStep(k, c, e);
  }
}
