/** At most TURN_TOOL_CALL_LIMIT calls are dispatched per user turn, over all its tool-loop requests. */
module AgentBudget {
  import opened Options
  import opened Transcript
  import opened Invocations
  import opened Tallies
  import opened Agent
  import opened AgentInvariant
  import opened AgentSteps

  /** The actions by which a call of the model reaches a tool. */
  predicate Dispatching(a: Action) { a.ExecuteTool? || a.PreviewPatch? || a.ExecuteCommand? }

  predicate Waiting(r: Entry) { r.approval == Pending && r.name == "command" }

  /** A command without an outcome is past NotRequired from the start. */
  predicate CommandsAsked(c: Core) {
    c.pending.Some? ==>
      forall i :: 0 <= i < |c.pending.value.results| ==> Asked(c.pending.value.results[i])
  }

  predicate Asked(r: Entry) { r.name == "command" && r.approval == NotRequired ==> r.outcome.Some? }

  /** What the turn may still dispatch: its unused calls and the commands waiting for the human. */
  function Left(c: Core): int {
    if c.pending.None? then 0
    else TURN_TOOL_CALL_LIMIT - c.callsThisTurn + Tally(Waiting, c.pending.value.results)
  }

  /** No prompt in the run is accepted, so the run stays within one user turn. */
  predicate OneTurn(k: Codec, c: Core, es: seq<Event>)
    decreases |es|
  {
    es == [] ||
    (!(es[0].UserMessage? && c.pending.None?) && OneTurn(k, Step(k, c, es[0]).0, es[1..]))
  }

  lemma RuleSpends(k: Codec, ws: string, request: nat, tooLarge: bool, used: nat, call: ToolCall)
    ensures
      var v := Rule(k, ws, request, tooLarge, used, call);
      && Asked(v.entry) && |v.actions| <= 1
      && (if |v.actions| == 1 && Dispatching(v.actions[0]) then 1 else 0) + (if Waiting(v.entry) then 1 else 0)
         == if v.accepted then 1 else 0
  {
  }

  predicate AllAsked(rs: seq<Entry>) { forall i :: 0 <= i < |rs| ==> Asked(rs[i]) }

  lemma SmallTally<T>(p: T -> bool, s: seq<T>)
    requires |s| <= 1
    ensures Tally(p, s) == if |s| == 1 && p(s[0]) then 1 else 0
  {
  }

  lemma {:induction false} BatchSpends(k: Codec, ws: string, request: nat, tooLarge: set<string>,
                                       calls: seq<ToolCall>, b: Batch)
    requires AllAsked(b.entries)
    ensures
      var b' := Dispatch(k, ws, request, tooLarge, calls, b);
      && Tally(Dispatching, b'.actions) + Tally(Waiting, b'.entries) - b'.used
         == Tally(Dispatching, b.actions) + Tally(Waiting, b.entries) - b.used
      && AllAsked(b'.entries)
    decreases |calls|
  {
    hide Rule, Tally, Waiting, Dispatching, Asked;
    if calls != [] {
      var v := Rule(k, ws, request, calls[0].id in tooLarge, b.used, calls[0]);
      RuleSpends(k, ws, request, calls[0].id in tooLarge, b.used, calls[0]);
      TallyAppend(Waiting, b.entries, [v.entry]);
      TallyAppend(Dispatching, b.actions, v.actions);
      SmallTally(Waiting, [v.entry]);
      SmallTally(Dispatching, v.actions);
      var b1 := DispatchOne(k, ws, request, tooLarge, calls[0], b);
      BatchSpends(k, ws, request, tooLarge, calls[1..], b1);
    }
  }

  lemma FinishSpends(k: Codec, c: Core, request: nat, reason: Option<string>)
    requires Valid(c) && CommandsAsked(c)
    ensures Tally(Dispatching, OnFinish(k, c, request, reason).1) + Left(OnFinish(k, c, request, reason).0) <= Left(c)
    ensures CommandsAsked(OnFinish(k, c, request, reason).0)
  {
    hide Dispatch, DispatchOne, Waiting, Asked, FinalCalls, TooLarge, Tally, Valid, ApprovalOpen, AllResolved;
    if Streams(c, request) && reason == Some("tool_calls") && c.pending.value.slots != map[] {
      var p := c.pending.value;
      var c0 := Counted(c, FinishesCommitted);
      var calls := FinalCalls(p.slots);
      var b := BatchOf(k, c0, calls);
      TallyNone(Waiting);
      TallyNone(Dispatching);
      BatchSpends(k, c.workspace, p.id, TooLarge(p.slots), calls, Batch([], [], c.callsThisTurn, c0.metrics));
      var (c1, actions) := OnFinish(k, c, request, reason);
      var last := actions[|b.actions|..];
      assert actions == b.actions + last;
      TallyAppend(Dispatching, b.actions, last);
      NoDispatch(last);
      StreamingIdle(c);
    } else {
      NoDispatch(OnFinish(k, c, request, reason).1);
      StreamingIdle(c);
    }
  }

  lemma TallyNone<T>(p: T -> bool)
    ensures Tally(p, []) == 0
  {
  }

  /** A streaming or absent flight has no waiting command. */
  lemma StreamingIdle(c: Core)
    requires Valid(c)
    ensures c.pending.Some? && c.pending.value.phase == Streaming ==> Tally(Waiting, c.pending.value.results) == 0
    ensures c.callsThisTurn <= TURN_TOOL_CALL_LIMIT
  {
  }

  lemma NoDispatch(actions: seq<Action>)
    ensures (forall i :: 0 <= i < |actions| ==> !Dispatching(actions[i])) ==> Tally(Dispatching, actions) == 0
  {
    TallyZero(Dispatching, actions);
  }

  /** A decision emits a patch, or a command that stops waiting. */
  predicate Deciding(a: Action, r: Entry, r': Entry) {
    a.ApplyPatch? || (a.ExecuteCommand? && Waiting(r) && !Waiting(r'))
  }

  /** What one event does to the entry it finds. */
  lemma EntrySpends(k: Codec, request: nat, r: Entry, e: Event)
    requires ToolEvent(e) && Matches(WantOf(e), e.callId, r) && Asked(r)
    ensures
      var (r', action) := EntryAfter(k, request, r, e);
      && Asked(r')
      && (Waiting(r') ==> Waiting(r))
      && (action.Some? ==> Deciding(action.value, r, r'))
  {
  }

  lemma EditedSpends(k: Codec, c: Core, d: Edit)
    requires c.callsThisTurn <= TURN_TOOL_CALL_LIMIT
    requires d.Edit? && c.pending.Some? && c.pending.value.phase != Streaming && d.at < |c.pending.value.results|
    requires CommandsAsked(c) && Asked(d.entry)
    requires Waiting(d.entry) ==> Waiting(c.pending.value.results[d.at])
    requires d.action.Some? ==> Deciding(d.action.value, c.pending.value.results[d.at], d.entry)
    ensures Tally(Dispatching, Edited(k, c, d).1) + Left(Edited(k, c, d).0) <= Left(c)
    ensures CommandsAsked(Edited(k, c, d).0)
  {
    hide Tally, Waiting, Asked, ApprovalOpen, AllResolved;
    var rs := c.pending.value.results[d.at := d.entry];
    TallyUpdate(Waiting, c.pending.value.results, d.at, d.entry);
    TallyNone(Waiting);
    if d.action.Some? { DecisionCost(d.action.value); }
    else { NoDispatch(Edited(k, c, d).1); }
  }

  lemma DecisionCost(a: Action)
    requires a.ApplyPatch? || a.ExecuteCommand?
    ensures Tally(Dispatching, [a, Redraw]) == if a.ExecuteCommand? then 1 else 0
  {
    assert [a, Redraw] == [a] + [Redraw];
    TallyAppend(Dispatching, [a], [Redraw]);
  }

  lemma ToolSpends(k: Codec, c: Core, e: Event)
    requires Valid(c) && CommandsAsked(c) && ToolEvent(e)
    ensures Tally(Dispatching, Step(k, c, e).1) + Left(Step(k, c, e).0) <= Left(c)
    ensures CommandsAsked(Step(k, c, e).0)
  {
    hide Step, EntryAfter, Tally, Waiting, Asked, ApprovalOpen, AllResolved, Dispatching, Matches, FlightValid;
    ToolStep(k, c, e);
    var d := EditOf(k, c, e);
    if d.Edit? {
      EntrySpends(k, c.pending.value.id, c.pending.value.results[d.at], e);
      EditedSpends(k, c, d);
    } else {
      TallyNone(Dispatching);
    }
  }

  lemma OtherSpends(k: Codec, c: Core, e: Event)
    requires Valid(c) && CommandsAsked(c) && !ToolEvent(e) && !e.Finish?
    requires !(e.UserMessage? && c.pending.None?)
    ensures Tally(Dispatching, Step(k, c, e).1) + Left(Step(k, c, e).0) <= Left(c)
    ensures CommandsAsked(Step(k, c, e).0)
  {
    hide Tally, Waiting, Asked, ApprovalOpen, AllResolved;
    NoDispatch(Step(k, c, e).1);
  }

  lemma StepSpends(k: Codec, c: Core, e: Event)
    requires Valid(c) && CommandsAsked(c)
    requires !(e.UserMessage? && c.pending.None?)
    ensures Tally(Dispatching, Step(k, c, e).1) + Left(Step(k, c, e).0) <= Left(c)
    ensures CommandsAsked(Step(k, c, e).0)
  {
    hide Tally, CommandsAsked, Left, OnFinish, Valid;
    if e.Finish? { FinishSpends(k, c, e.request, e.reason); }
    else if ToolEvent(e) { ToolSpends(k, c, e); }
    else { OtherSpends(k, c, e); }
  }

  lemma {:induction false} RunSpends(k: Codec, c: Core, es: seq<Event>)
    requires Valid(c) && CommandsAsked(c) && OneTurn(k, c, es)
    ensures Tally(Dispatching, Run(k, c, es).1) + Left(Run(k, c, es).0) <= Left(c)
    decreases |es|
  {
    hide Step, Tally, Left, Valid, CommandsAsked;
    TallyNone(Dispatching);
    if es != [] {
      var (c1, first) := Step(k, c, es[0]);
      StepSpends(k, c, es[0]);
      StepKeeps(k, c, es[0]);
      RunSpends(k, c1, es[1..]);
      TallyAppend(Dispatching, first, Run(k, c1, es[1..]).1);
    }
  }

  lemma {:induction false} LeftIsNat(c: Core)
    requires Valid(c)
    ensures Left(c) >= 0
  {
  }

  /** From any reachable state: an accepted prompt and everything up to the next accepted prompt
      dispatch at most TURN_TOOL_CALL_LIMIT calls, however many tool-loop requests that takes. */
  lemma TurnLimitHolds(k: Codec, workspace: string, before: seq<Event>, text: string, es: seq<Event>)
    requires
      var c := Run(k, INITIAL.(workspace := workspace), before).0;
      c.pending.None? && OneTurn(k, Step(k, c, UserMessage(text)).0, es)
    ensures
      var c := Run(k, INITIAL.(workspace := workspace), before).0;
      Tally(Dispatching, Run(k, Step(k, c, UserMessage(text)).0, es).1) <= TURN_TOOL_CALL_LIMIT
  {
    RunKeeps(k, INITIAL.(workspace := workspace), before);
    var c := Run(k, INITIAL.(workspace := workspace), before).0;
    StepKeeps(k, c, UserMessage(text));
    var c1 := Step(k, c, UserMessage(text)).0;
    RunSpends(k, c1, es);
    RunKeeps(k, c1, es);
    LeftIsNat(Run(k, c1, es).0);
  }
}
