/** What the agent commits and emits, event by event and in literal terms: the text of a reply, the fate of each
    call when its turn is dispatched, where the text of an answer comes from, and what decisions make of a call. */
module AgentResults {
  import opened Options
  import opened Transcript
  import opened Invocations
  import opened Agent
  import opened AgentInvariant
  import opened AgentSteps
  import opened AgentTranscript
  import opened AgentErasure
  import opened AgentApproval
  import opened AgentSlots
  import AgentCounters
  import opened AgentAnswers

  // ---- prompts and plain replies ----

  /** A prompt to an idle agent is appended and sent with the whole conversation under a new id, and the turn may
      dispatch calls again from zero; a prompt to a busy one changes nothing but its counter. */
  lemma PromptIsSent(k: Codec, c: Core, text: string)
    ensures
      var (c', actions) := Step(k, c, UserMessage(text));
      if c.pending.Some? then
        c' == c.(metrics := c.metrics + multiset{UserMessagesRejectedWhileActive}) && actions == []
      else
        && c'.conversation == c.conversation + [User(text)] && c'.callsThisTurn == 0
        && c'.pending == Some(Flight(c.nextId, Streaming, Response("", None), map[], [])) && c'.nextId == c.nextId + 1
        && actions == [StartRequest(c.nextId, c.conversation + [User(text)]), Redraw]
  {
  }

  /** A finish without tool calls, or not for the sake of them, commits one assistant message with all the texts of its
      request, in order, and ends the turn. */
  lemma PlainFinish(k: Codec, c: Core, es: seq<Event>, request: nat, reason: Option<string>)
    requires Valid(c) && JustStarted(c, request) && Streams(Run(k, c, es).0, request)
    requires reason != Some("tool_calls") || Indices(es, request) == {}
    ensures
      var (c', actions) := Step(k, Run(k, c, es).0, Finish(request, reason));
      && c'.conversation == Run(k, c, es).0.conversation + [Assistant(TextSpec(es, request), [])]
      && c'.pending.None? && c'.status == Idle && c'.callsThisTurn == 0 && actions == [Redraw]
  {
    hide Run, Valid, Indices, SlotSpec, TextSpec;
    StreamAssembles(k, c, es, request);
    var slots := Run(k, c, es).0.pending.value.slots;
    if Indices(es, request) == {} { assert slots.Keys == {}; }
  }

  // ---- the calls of a finished turn ----

  /** The calls being dispatched: with how many calls of the turn were used before. */
  datatype Turn = Turn(k: Codec, workspace: string, request: nat, tooLarge: set<string>, calls: seq<ToolCall>,
                       used: nat)

  /** Why the arguments of a call are refused, if they are. */
  function Unparsed(k: Codec, call: ToolCall): Option<ToolExecutionError> {
    if call.name == "patch" then
      match k.parsePatch(call.args) case Ok(_) => None case Err(e) => Some(e)
    else if call.name == "command" then
      match k.parseCommand(call.args) case Ok(_) => None case Err(e) => Some(e)
    else
      match k.parseReadOnly(call.name, call.args) case Ok(_) => None case Err(e) => Some(e)
  }

  /** How many of the first `j` calls were accepted. */
  function Taken(t: Turn, j: nat): nat
    requires j <= |t.calls|
    decreases j, 0
  {
    if j == 0 then 0 else Taken(t, j - 1) + if RefusedWith(t, j - 1).None? then 1 else 0
  }

  /** The error call `j` is refused with: its arguments were cut, or twenty calls are used up, or they do not parse. */
  function RefusedWith(t: Turn, j: nat): Option<ToolExecutionError>
    requires j < |t.calls|
    decreases j, 1
  {
    if t.calls[j].id in t.tooLarge then Some(ArgumentsTooLarge)
    else if t.used + Taken(t, j) >= 20 then Some(TurnToolCallLimitExceeded)
    else Unparsed(t.k, t.calls[j])
  }

  /** Some call was accepted: the turn goes on. */
  predicate GoesOn(t: Turn) { exists j :: 0 <= j < |t.calls| && RefusedWith(t, j).None? }

  /** The entry of call `j`: its error, or nothing yet; a command waits at once and shows its words. */
  predicate EntryFits(t: Turn, j: nat, r: Entry)
    requires j < |t.calls|
  {
    var call, refused := t.calls[j], RefusedWith(t, j);
    && r.callId == call.id && r.name == call.name && r.args == call.args
    && r.outcome == (if refused.Some? then Some(Err(refused.value)) else None)
    && r.patchPreview.None? && r.previewContent == [] && r.tail.None?
    && (if refused.None? && call.name == "command" then
          && t.k.parseCommand(call.args).Ok? && r.approval == Pending
          && r.commandPreview == Some(CommandPreview(t.k.parseCommand(call.args).value.argv, t.workspace))
        else r.approval == NotRequired && r.commandPreview.None?)
  }

  /** What call `j` starts: its tool, or the preview of its patch; a command nothing yet. */
  function Starts(t: Turn, j: nat): seq<Action>
    requires j < |t.calls|
  {
    var call := t.calls[j];
    if RefusedWith(t, j).Some? || call.name == "command" then []
    else if call.name == "patch" then
      match t.k.parsePatch(call.args)
      case Ok(patch) => [PreviewPatch(t.request, call.id, patch)]
      case Err(_) => []
    else
      match t.k.parseReadOnly(call.name, call.args)
      case Ok(tool) => [ExecuteTool(t.request, call.id, tool)]
      case Err(_) => []
  }

  function StartsUpTo(t: Turn, j: nat): seq<Action>
    requires j <= |t.calls|
  {
    if j == 0 then [] else StartsUpTo(t, j - 1) + Starts(t, j - 1)
  }

  /** The counter call `j` moves: how it was started, or which limit refused it; arguments that do not parse move
      none. */
  function Moves(t: Turn, j: nat): multiset<Counter>
    requires j < |t.calls|
  {
    var call := t.calls[j];
    if call.id in t.tooLarge then multiset{ToolCallsRejectedByArgumentsLimit}
    else if t.used + Taken(t, j) >= 20 then multiset{ToolCallsRejectedByTurnLimit}
    else if RefusedWith(t, j).Some? then multiset{}
    else if call.name == "patch" then multiset{PatchCallsPreviewed}
    else if call.name == "command" then multiset{CommandCallsDispatched}
    else multiset{ToolCallsExecuted}
  }

  function MovesUpTo(t: Turn, j: nat): multiset<Counter>
    requires j <= |t.calls|
  {
    if j == 0 then multiset{} else MovesUpTo(t, j - 1) + Moves(t, j - 1)
  }

  /** After the first `j` calls. */
  predicate Done(t: Turn, j: nat, b: Batch, m: multiset<Counter>)
    requires j <= |t.calls|
  {
    && b.metrics == m + MovesUpTo(t, j)
    && |b.entries| == j && (forall i :: 0 <= i < j ==> EntryFits(t, i, b.entries[i]))
    && b.actions == StartsUpTo(t, j) && b.used == t.used + Taken(t, j)
  }

  lemma RuleFits(t: Turn, j: nat)
    requires j < |t.calls|
    ensures
      var v := Rule(t.k, t.workspace, t.request, t.calls[j].id in t.tooLarge, t.used + Taken(t, j), t.calls[j]);
      EntryFits(t, j, v.entry) && (v.accepted <==> RefusedWith(t, j).None?)
  {
    hide Taken;
  }

  lemma RuleMoves(t: Turn, j: nat)
    requires j < |t.calls|
    ensures
      var v := Rule(t.k, t.workspace, t.request, t.calls[j].id in t.tooLarge, t.used + Taken(t, j), t.calls[j]);
      v.counted == Moves(t, j)
  {
    hide Taken;
  }

  lemma RuleActions(t: Turn, j: nat)
    requires j < |t.calls|
    ensures
      var v := Rule(t.k, t.workspace, t.request, t.calls[j].id in t.tooLarge, t.used + Taken(t, j), t.calls[j]);
      v.actions == Starts(t, j)
  {
    hide Taken, NewEntry;
  }

  lemma OneRuled(t: Turn, j: nat, b: Batch, m: multiset<Counter>)
    requires j < |t.calls| && Done(t, j, b, m)
    ensures Done(t, j + 1, DispatchOne(t.k, t.workspace, t.request, t.tooLarge, t.calls[j], b), m)
  {
    hide EntryFits, Starts, RefusedWith, Rule, Moves;
    RuleFits(t, j);
    RuleMoves(t, j);
    RuleActions(t, j);
  }

  lemma {:induction false} DispatchRules(t: Turn, j: nat, b: Batch, m: multiset<Counter>)
    requires j <= |t.calls| && Done(t, j, b, m)
    ensures Done(t, |t.calls|, Dispatch(t.k, t.workspace, t.request, t.tooLarge, t.calls[j..], b), m)
    decreases |t.calls| - j
  {
    hide Done, DispatchOne;
    if j < |t.calls| {
      assert t.calls[j..][0] == t.calls[j] && t.calls[j..][1..] == t.calls[j + 1..];
      OneRuled(t, j, b, m);
      DispatchRules(t, j + 1, DispatchOne(t.k, t.workspace, t.request, t.tooLarge, t.calls[j], b), m);
    }
  }

  /** A finish with tool calls, call by call: its entry, with the error it is refused with or waiting for its
      result; the tools and previews started, in order; what is left of the turn's twenty calls; and the counters. */
  lemma FinishRules(k: Codec, c: Core, request: nat)
    requires Streams(c, request) && c.pending.value.slots != map[]
    ensures
      var slots := c.pending.value.slots;
      var t := Turn(k, c.workspace, request, TooLarge(slots), FinalCalls(slots), c.callsThisTurn);
      var n := |t.calls|;
      var (c', actions) := Step(k, c, Finish(request, Some("tool_calls")));
      && c'.callsThisTurn == c.callsThisTurn + Taken(t, n)
      && c'.metrics == c.metrics + multiset{FinishesCommitted} + MovesUpTo(t, n)
      && (if GoesOn(t) then
            && RunsTools(c', request) && |c'.pending.value.results| == n
            && c'.pending.value.response == Response("", Some("tool_calls")) && c'.pending.value.slots == map[]
            && (forall j :: 0 <= j < n ==> EntryFits(t, j, c'.pending.value.results[j]))
            && actions == StartsUpTo(t, n) + [Redraw]
            && c'.conversation == c.conversation + [Assistant(c.pending.value.response.content, t.calls)]
          else
            && RefusalsTold(t, c'.conversation, |c.conversation| + 1)
            && |c'.conversation| == |c.conversation| + 1 + n
            && actions == StartsUpTo(t, n) + [StartRequest(c.nextId, c'.conversation), Redraw])
  {
    hide TooLarge, FinalCalls, BatchOf, RefusedWith, EntryFits, Step, Starts, StartsUpTo, Taken, AllResolved, GoesOn,
      RefusalsTold, MovesUpTo;
    var slots := c.pending.value.slots;
    var t := Turn(k, c.workspace, request, TooLarge(slots), FinalCalls(slots), c.callsThisTurn);
    var b := BatchOf(k, Counted(c, FinishesCommitted), t.calls);
    var m := Counted(c, FinishesCommitted).metrics;
    BatchRules(k, c, request);
    Unresolved(t, b, m);
    FinishEmits(k, c, request);
    if !GoesOn(t) {
      RefusedTexts(t, b, m, c.conversation + [Assistant(c.pending.value.response.content, t.calls)]);
    }
  }

  /** From message `n` on, every call is told the error it was refused with. */
  predicate RefusalsTold(t: Turn, ms: seq<Msg>, n: nat) {
    && n + |t.calls| <= |ms|
    && forall j :: 0 <= j < |t.calls| ==>
         RefusedWith(t, j).Some? && ms[n + j] == Tool(t.calls[j].id, t.k.errorJson(RefusedWith(t, j).value))
  }

  lemma RefusedTexts(t: Turn, b: Batch, m: multiset<Counter>, asked: seq<Msg>)
    requires Done(t, |t.calls|, b, m) && !GoesOn(t) && AllResolved(b.entries)
    ensures RefusalsTold(t, asked + ToolMessages(t.k, b.entries), |asked|)
  {
    hide RefusedWith;
    forall j | 0 <= j < |t.calls|
      ensures RefusedWith(t, j).Some? && b.entries[j].outcome == Some(Err(RefusedWith(t, j).value))
      ensures b.entries[j].callId == t.calls[j].id
    {
      assert EntryFits(t, j, b.entries[j]);
    }
  }

  lemma BatchRules(k: Codec, c: Core, request: nat)
    requires Streams(c, request)
    ensures
      var slots := c.pending.value.slots;
      var t := Turn(k, c.workspace, request, TooLarge(slots), FinalCalls(slots), c.callsThisTurn);
      var b, n := BatchOf(k, Counted(c, FinishesCommitted), t.calls), |t.calls|;
      Done(t, n, b, Counted(c, FinishesCommitted).metrics)
  {
    var slots := c.pending.value.slots;
    var t := Turn(k, c.workspace, request, TooLarge(slots), FinalCalls(slots), c.callsThisTurn);
    var m := Counted(c, FinishesCommitted).metrics;
    assert t.calls[0..] == t.calls;
    DispatchRules(t, 0, Batch([], [], c.callsThisTurn, m), m);
    hide Dispatch, FinalCalls, TooLarge, RefusedWith;
  }

  lemma Unresolved(t: Turn, b: Batch, m: multiset<Counter>)
    requires Done(t, |t.calls|, b, m)
    ensures AllResolved(b.entries) <==> !GoesOn(t)
  {
    hide RefusedWith;
    forall j | 0 <= j < |t.calls| ensures b.entries[j].outcome.Some? <==> RefusedWith(t, j).Some? {
      assert EntryFits(t, j, b.entries[j]);
    }
  }

  /** The shape of such a finish, the batch given. */
  lemma FinishEmits(k: Codec, c: Core, request: nat)
    requires Streams(c, request) && c.pending.value.slots != map[]
    ensures
      var b := BatchOf(k, Counted(c, FinishesCommitted), FinalCalls(c.pending.value.slots));
      var asked := c.conversation + [Assistant(c.pending.value.response.content, FinalCalls(c.pending.value.slots))];
      var (c', actions) := Step(k, c, Finish(request, Some("tool_calls")));
      && c'.callsThisTurn == b.used && c'.metrics == b.metrics
      && (if AllResolved(b.entries) then
            c'.conversation == asked + ToolMessages(k, b.entries)
            && actions == b.actions + [StartRequest(c.nextId, c'.conversation), Redraw]
          else
            && RunsTools(c', request) && c'.pending.value.results == b.entries && c'.conversation == asked
            && c'.pending.value.response == Response("", Some("tool_calls")) && c'.pending.value.slots == map[]
            && actions == b.actions + [Redraw])
  {
    hide Dispatch, FinalCalls, TooLarge, AllResolved, ApprovalOpen;
  }

  // ---- where an answer's text comes from ----

  /** This event delivers the text as the result of the call. */
  predicate Delivers(e: Event, request: nat, id: string, text: string) {
    e == ToolResult(request, id, Ok(text))
  }

  lemma EntryOk(k: Codec, request: nat, r: Entry, e: Event, text: string)
    requires ToolEvent(e) && Matches(WantOf(e), e.callId, r) && (e.ToolResult? ==> e.request == request)
    requires EntryAfter(k, request, r, e).0.outcome == Some(Ok(text)) && r.outcome != Some(Ok(text))
    ensures Delivers(e, request, r.callId, text)
  {
  }

  /** A step of a running turn gives an entry a text only by delivering it. */
  lemma StepDelivers(k: Codec, c: Core, e: Event, request: nat, j: nat, text: string)
    requires Valid(c) && RunsTools(c, request) && j < |c.pending.value.results|
    requires c.pending.value.results[j].outcome != Some(Ok(text))
    ensures
      var id, c' := c.pending.value.results[j].callId, Step(k, c, e).0;
      && (Active(c', request) && j < |c'.pending.value.results|
          && c'.pending.value.results[j].outcome == Some(Ok(text)) ==>
            Delivers(e, request, id, text))
      && (j < |EntriesAfter(k, c, e)| && EntriesAfter(k, c, e)[j].outcome == Some(Ok(text)) ==>
            Delivers(e, request, id, text))
  {
    hide Step, EntryAfter, Edited, FlightValid;
    if ToolEvent(e) {
      ToolStep(k, c, e);
      var d := EditOf(k, c, e);
      if d.Edit? {
        EditedStays(k, c, d);
        if d.at == j && d.entry.outcome == Some(Ok(text)) { EntryOk(k, request, c.pending.value.results[j], e, text); }
      }
    } else {
      QuietToolPhase(k, c, e, request);
    }
  }

  /** Over every run: a text told as the result of a call was in its entry before, or was delivered for it on the
      way. */
  lemma {:induction false} TextsAreDelivered(k: Codec, c: Core, es: seq<Event>, request: nat, i: nat, j: nat,
                                             text: string)
    requires Valid(c) && RunsTools(c, request) && CompletedAt(k, c, es, request, i)
    requires j < |FinalEntries(k, c, es, i)| && FinalEntries(k, c, es, i)[j].outcome == Some(Ok(text))
    ensures
      var rs := c.pending.value.results;
      && j < |rs| && FinalEntries(k, c, es, i)[j].callId == rs[j].callId
      && (rs[j].outcome == Some(Ok(text)) || exists m :: 0 <= m <= i && Delivers(es[m], request, rs[j].callId, text))
    decreases |es|
  {
    var rs, c1 := c.pending.value.results, Step(k, c, es[0]).0;
    CompletionIsTold(k, c, es, request, i);
    SameIds(rs, FinalEntries(k, c, es, i));
    if rs[j].outcome != Some(Ok(text)) {
      StepDelivers(k, c, es[0], request, j, text);
      CompletedFirst(k, c, es, request);
      if i > 0 {
        StillActive(k, c, es, request, i);
        StepAdvances(k, c, es[0], request);
        SameIds(rs, c1.pending.value.results);
        StepKeeps(k, c, es[0]);
        hide Step, Valid, EntriesAfter, Completes;
        CompletedLater(k, c, es, request, i - 1);
        TextsAreDelivered(k, c1, es[1..], request, i - 1, j, text);
        if !Delivers(es[0], request, rs[j].callId, text) {
          var m :| 0 <= m <= i - 1 && Delivers(es[1..][m], request, rs[j].callId, text);
          assert Delivers(es[m + 1], request, rs[j].callId, text);
        }
      }
    }
  }

  lemma SameIds(a: seq<Entry>, b: seq<Entry>)
    requires AllAdvance(a, b)
    ensures |a| == |b| && forall j :: 0 <= j < |a| ==> a[j].callId == b[j].callId
  {
    forall j | 0 <= j < |a| ensures a[j].callId == b[j].callId { assert Advances(a[j], b[j]); }
  }

  /** Entry `j` is the first of its id without an outcome. */
  predicate FirstOpen(rs: seq<Entry>, id: string, j: nat) {
    && j < |rs| && rs[j].callId == id && rs[j].outcome.None?
    && forall i :: 0 <= i < j ==> !(rs[i].callId == id && rs[i].outcome.None?)
  }

  /** A result lands on the first open entry of its id, and on no other. */
  lemma ResultLands(k: Codec, c: Core, request: nat, id: string, outcome: ToolOutcome, j: nat)
    requires Valid(c) && RunsTools(c, request) && FirstOpen(c.pending.value.results, id, j)
    ensures
      var e, rs := ToolResult(request, id, outcome), c.pending.value.results;
      var c' := Step(k, c, e).0;
      && EntriesAfter(k, c, e) == rs[j := rs[j].(outcome := Some(outcome))]
      && (Active(c', request) ==> c'.pending.value.results == rs[j := rs[j].(outcome := Some(outcome))])
  {
    var e, rs := ToolResult(request, id, outcome), c.pending.value.results;
    assert Find(Agent.Unresolved, id, rs) == j;
    hide Step, Edited, FlightValid;
    ToolStep(k, c, e);
    EditedStays(k, c, EditOf(k, c, e));
  }

  /** Where no result lands on a waiting call: a result delivered to an open entry is what the model is told of it. */
  lemma {:induction false} DeliveredIsTold(k: Codec, c: Core, es: seq<Event>, request: nat, m: nat, i: nat, j: nat)
    requires Valid(c) && RunsTools(c, request) && Unraced(c) && RaceFree(k, c, es)
    requires m <= i && CompletedAt(k, c, es, request, i)
    requires RunsTools(Run(k, c, es[..m]).0, request) && es[m].ToolResult? && es[m].request == request
    requires FirstOpen(Run(k, c, es[..m]).0.pending.value.results, es[m].callId, j)
    ensures
      var ms, n := Run(k, c, es).0.conversation, |c.conversation|;
      n + j < |ms| && ms[n + j] ==
        match es[m].outcome case Ok(text) => Tool(es[m].callId, text) case Err(e) => Tool(es[m].callId, k.errorJson(e))
    decreases |es|
  {
    hide *;
    CompletedIn(k, c, es, request, i);
    RaceFreeTail(k, c, es);
    if m > 0 {
      StillActive(k, c, es, request, i);
      StepAdvances(k, c, es[0], request);
      StepWritesOnce(k, c, es[0], request);
      ToolConversation(k, c, es[0], request);
      StepKeeps(k, c, es[0]);
      CompletedLater(k, c, es, request, i - 1);
      PrefixRun(k, c, es, m);
      RunIs(k, c, es);
      DeliveredIsTold(k, Step(k, c, es[0]).0, es[1..], request, m - 1, i - 1, j);
    } else {
      PrefixRun(k, c, es, 0);
      DeliveredFirst(k, c, es, request, i, j);
    }
  }

  lemma CompletedIn(k: Codec, c: Core, es: seq<Event>, request: nat, i: nat)
    requires CompletedAt(k, c, es, request, i)
    ensures i < |es|
  {
  }

  lemma PrefixRun(k: Codec, c: Core, es: seq<Event>, m: nat)
    requires m < |es|
    ensures m == 0 ==> Run(k, c, es[..m]).0 == c
    ensures m > 0 ==> Run(k, c, es[..m]).0 == Run(k, Step(k, c, es[0]).0, es[1..][..m - 1]).0
  {
    hide Step;
    if m > 0 { assert es[..m][0] == es[0] && es[..m][1..] == es[1..][..m - 1]; }
  }

  lemma DeliveredFirst(k: Codec, c: Core, es: seq<Event>, request: nat, i: nat, j: nat)
    requires Valid(c) && RunsTools(c, request) && Unraced(c) && RaceFree(k, c, es) && CompletedAt(k, c, es, request, i)
    requires es[0].ToolResult? && es[0].request == request && FirstOpen(c.pending.value.results, es[0].callId, j)
    ensures
      var ms, n := Run(k, c, es).0.conversation, |c.conversation|;
      n + j < |ms| && ms[n + j] ==
        match es[0].outcome case Ok(text) => Tool(es[0].callId, text) case Err(e) => Tool(es[0].callId, k.errorJson(e))
  {
    hide *;
    RunsToolsIs(c, request);
    CompletedIn(k, c, es, request, i);
    RaceFreeTail(k, c, es);
    var c1, rs, ms := Step(k, c, es[0]).0, c.pending.value.results, Run(k, c, es).0.conversation;
    var final := FinalEntries(k, c, es, i);
    CompletionIsTold(k, c, es, request, i);
    ToldParts(k, c, es, ms, i);
    SameIds(rs, final);
    FirstOpenIs(rs, es[0].callId, j);
    ResultLands(k, c, request, es[0].callId, es[0].outcome, j);
    CompletedFirst(k, c, es, request);
    if i > 0 {
      StillActive(k, c, es, request, i);
      StepAdvances(k, c, es[0], request);
      StepWritesOnce(k, c, es[0], request);
      StepKeeps(k, c, es[0]);
      RunsToolsIs(c1, request);
      CompletedLater(k, c, es, request, i - 1);
      CompletionIsTold(k, c1, es[1..], request, i - 1);
      RunIs(k, c, es);
      ToldParts(k, c1, es[1..], ms, i - 1);
      WrittenAt(c1.pending.value.results, final, j);
    }
    TellsAt(k, ms, |c.conversation|, final, j);
    TellsOf(k, ms[|c.conversation| + j], final[j]);
  }

  lemma RunsToolsIs(c: Core, request: nat)
    requires RunsTools(c, request)
    ensures c.pending.Some? && Active(c, request)
  {
  }

  lemma FirstOpenIs(rs: seq<Entry>, id: string, j: nat)
    requires FirstOpen(rs, id, j)
    ensures j < |rs| && rs[j].callId == id
  {
  }

  lemma RaceFreeTail(k: Codec, c: Core, es: seq<Event>)
    requires RaceFree(k, c, es) && es != []
    ensures !Races(k, c, es[0]) && RaceFree(k, Step(k, c, es[0]).0, es[1..])
  {
  }

  lemma RunIs(k: Codec, c: Core, es: seq<Event>)
    requires es != []
    ensures Run(k, c, es).0 == Run(k, Step(k, c, es[0]).0, es[1..]).0
  {
  }

  lemma ToldParts(k: Codec, c: Core, es: seq<Event>, ms: seq<Msg>, i: nat)
    requires i < |es| && c.pending.Some? && ToldAt(k, c, es, ms, i)
    ensures
      var rs, final := c.pending.value.results, FinalEntries(k, c, es, i);
      && AnsweredBy(k, ms, |c.conversation|, final) && AllAdvance(rs, final)
      && (Unraced(c) && RaceFree(k, c, es) ==> WriteOnce(rs, final))
  {
  }

  lemma WrittenAt(a: seq<Entry>, b: seq<Entry>, j: nat)
    requires WriteOnce(a, b) && j < |a| && a[j].outcome.Some?
    ensures j < |b| && b[j].outcome == a[j].outcome
  {
  }

  lemma TellsAt(k: Codec, ms: seq<Msg>, n: nat, rs: seq<Entry>, j: nat)
    requires AnsweredBy(k, ms, n, rs) && j < |rs|
    ensures n + j < |ms| && Tells(k, ms[n + j], rs[j])
  {
  }

  lemma TellsOf(k: Codec, m: Msg, r: Entry)
    requires Tells(k, m, r) && r.outcome.Some?
    ensures m ==
      match r.outcome.value case Ok(text) => Tool(r.callId, text) case Err(e) => Tool(r.callId, k.errorJson(e))
  {
  }

  // ---- the next request ----

  lemma {:induction false} RunningConversation(k: Codec, c: Core, es: seq<Event>, request: nat)
    requires Valid(c) && RunsTools(c, request) && RunsTools(Run(k, c, es).0, request)
    ensures Run(k, c, es).0.conversation == c.conversation
    decreases |es|
  {
    if es != [] {
      StepKeeps(k, c, es[0]);
      StepIdsGrow(k, c, es[0]);
      ActiveAllAlong(k, Step(k, c, es[0]).0, es[1..], request);
      StepAdvances(k, c, es[0], request);
      ToolConversation(k, c, es[0], request);
      hide Step, Valid;
      RunningConversation(k, Step(k, c, es[0]).0, es[1..], request);
    }
  }

  /** The event that completes a turn starts the next request, and that request carries the conversation with exactly
      the answers added. */
  lemma CompletionAsks(k: Codec, c: Core, es: seq<Event>, request: nat, i: nat)
    requires Valid(c) && RunsTools(c, request) && CompletedAt(k, c, es, request, i)
    ensures
      var ci := Run(k, c, es[..i]).0;
      var (c', actions) := Step(k, ci, es[i]);
      && actions == [StartRequest(ci.nextId, c'.conversation), Redraw]
      && |c'.conversation| == |c.conversation| + |FinalEntries(k, c, es, i)|
      && c.conversation <= c'.conversation
      && AnsweredBy(k, c'.conversation, |c.conversation|, FinalEntries(k, c, es, i))
  {
    hide Step, EntriesAfter, Completes, Run, AnsweredBy, Valid;
    var ci := Run(k, c, es[..i]).0;
    RunKeeps(k, c, es[..i]);
    RunningConversation(k, c, es[..i], request);
    StepTells(k, ci, es[i], request);
    CompletingActions(k, ci, es[i]);
    CompletesResolved(k, ci, es[i]);
    AnsweredNow(k, ci.conversation, EntriesAfter(k, ci, es[i]));
  }

  lemma CompletingActions(k: Codec, c: Core, e: Event)
    requires Valid(c) && Completes(k, c, e)
    ensures Step(k, c, e).1 == [StartRequest(c.nextId, Step(k, c, e).0.conversation), Redraw]
  {
    hide Step, EntryAfter, FlightValid, ApprovalOpen;
    ToolStep(k, c, e);
  }

  // ---- decisions ----

  /** Entry `j` is the first of its id that waits. */
  predicate FirstWaiting(rs: seq<Entry>, id: string, j: nat) {
    && j < |rs| && rs[j].callId == id && rs[j].approval == Pending
    && forall i :: 0 <= i < j ==> !(rs[i].callId == id && rs[i].approval == Pending)
  }

  /** What a decision makes of the entry, and the action that goes with it. */
  predicate Decides(k: Codec, request: nat, approve: bool, r: Entry, r': Entry, action: Option<Action>) {
    if !approve then
      && action.None?
      && r' == r.(approval := Rejected,
                  outcome := Some(Err(if r.name == "command" then CommandFailed(CommandRejected)
                                      else PatchFailed(PatchRejected))))
    else if r.name == "patch" then
      match k.parsePatch(r.args)
      case Ok(patch) =>
        r' == r.(approval := Approved) && action == Some(ApplyPatch(request, r.callId, patch, r.previewContent))
      case Err(e) => r' == r.(approval := Approved, outcome := Some(Err(e))) && action.None?
    else if r.name == "command" then
      match k.parseCommand(r.args)
      case Ok(command) => r' == r.(approval := Approved) && action == Some(ExecuteCommand(request, r.callId, command))
      case Err(e) => r' == r.(approval := Approved, outcome := Some(Err(e))) && action.None?
    else
      && action.None?
      && r' == r.(approval := Approved,
                  outcome := Some(Err(ArgumentsParseFailed("no approval flow for tool " + r.name))))
  }

  /** A decision changes the first waiting entry of its id and no other: a rejection gives it the rejection, an approval
      releases the patch with its snapshots or the command, or else gives it the error. */
  lemma DecisionLands(k: Codec, c: Core, request: nat, approve: bool, id: string, j: nat)
    requires Valid(c) && RunsTools(c, request) && FirstWaiting(c.pending.value.results, id, j)
    ensures
      var e, rs := (if approve then ApproveToolCall(id) else RejectToolCall(id)), c.pending.value.results;
      var after, (c', actions) := EntriesAfter(k, c, e), Step(k, c, e);
      && |after| == |rs| && (forall i :: 0 <= i < |rs| && i != j ==> after[i] == rs[i])
      && (Active(c', request) ==> c'.pending.value.results == after)
      && (exists action ::
            && Decides(k, request, approve, rs[j], after[j], action)
            && (action.Some? ==> actions == [action.value, Redraw])
            && (action.None? ==> actions == if Active(c', request) then [Redraw]
                                            else [StartRequest(c.nextId, c'.conversation), Redraw]))
  {
    hide Step, FlightValid, ApprovalOpen, AllResolved, EntryAfter, Decides, Edited, FirstWaiting;
    var e, rs := (if approve then ApproveToolCall(id) else RejectToolCall(id)), c.pending.value.results;
    FoundWaiting(rs, id, j);
    var d := EditOf(k, c, e);
    DecidesOn(k, request, approve, rs[j], id);
    assert Decides(k, request, approve, rs[j], d.entry, d.action);
    ToolStep(k, c, e);
    EditedStays(k, c, d);
    EditedActions(k, c, d);
  }

  lemma FoundWaiting(rs: seq<Entry>, id: string, j: nat)
    requires FirstWaiting(rs, id, j)
    ensures j < |rs| && Find(Undecided, id, rs) == j
  {
  }

  lemma DecidesOn(k: Codec, request: nat, approve: bool, r: Entry, id: string)
    ensures
      var (r', action) := EntryAfter(k, request, r, if approve then ApproveToolCall(id) else RejectToolCall(id));
      Decides(k, request, approve, r, r', action)
  {
  }

  lemma EditedActions(k: Codec, c: Core, d: Edit)
    requires d.Edit? && c.pending.Some? && c.pending.value.phase != Streaming && d.at < |c.pending.value.results|
    ensures
      var (c', actions) := Edited(k, c, d);
      && c'.pending.Some?
      && (d.action.Some? ==> actions == [d.action.value, Redraw])
      && (d.action.None? ==>
            actions == if c'.pending.value.phase != Streaming then [Redraw]
                       else [StartRequest(c.nextId, c'.conversation), Redraw])
  {
    hide ApprovalOpen, AllResolved;
  }

  // ---- cut calls ----

  /** The ids refused for their size: those of the indices whose fragments exceed 64 KiB together. */
  lemma CutIds(k: Codec, c: Core, es: seq<Event>, request: nat, id: string)
    requires Valid(c) && JustStarted(c, request) && Streams(Run(k, c, es).0, request)
    ensures id in TooLarge(Run(k, c, es).0.pending.value.slots) <==>
      exists i :: i in Indices(es, request) && CallSpec(es, request, i).id == id
                  && Utf8Len(Joined(Fragments(es, request, i))) > 64 * 1024
  {
    hide Run, Valid, Indices, Fragments, Joined, Utf8Len, Decimal, Kept, Fields, FirstValue;
    StreamAssembles(k, c, es, request);
    var slots := Run(k, c, es).0.pending.value.slots;
    forall i | i in Indices(es, request) ensures CallSpec(es, request, i).id == CallId(i, slots[i]) { }
  }

  // ---- what the status tells ----

  predicate DeltaFor(e: Event, request: nat) {
    (e.ContentDelta? && e.request == request) || (e.ToolCallDelta? && e.request == request)
  }

  /** While a request streams, the status says whether anything has arrived for it yet. */
  lemma {:induction false} StatusShowsArrival(k: Codec, c: Core, es: seq<Event>, request: nat)
    requires Valid(c) && Streams(c, request) && Streams(Run(k, c, es).0, request)
    ensures Run(k, c, es).0.status ==
      if exists e :: e in es && DeltaFor(e, request) then StreamingReply else c.status
    decreases |es|
  {
    if es != [] {
      hide Step, Valid, DeltaFor, Run;
      var before, e := es[..|es| - 1], es[|es| - 1];
      assert es == before + [e];
      RunSnoc(k, c, before, e);
      RunKeeps(k, c, before);
      StreamedId(c, request);
      RunIdsGrow(k, c, before);
      AgentSlots.StreamStep(k, Run(k, c, before).0, e, request);
      StatusShowsArrival(k, c, before, request);
      DeltaStatus(k, Run(k, c, before).0, e, request);
    } else {
      assert Run(k, c, es).0 == c;
    }
  }

  lemma StreamedId(c: Core, request: nat)
    requires Valid(c) && Streams(c, request)
    ensures request < c.nextId
  {
  }

  lemma DeltaStatus(k: Codec, c: Core, e: Event, request: nat)
    requires Valid(c) && request < c.nextId && Streams(c, request) && Streams(Step(k, c, e).0, request)
    ensures Step(k, c, e).0.status == if DeltaFor(e, request) then StreamingReply else c.status
  {
    hide Merge, Overflows, AllResolved, ApprovalOpen, OnFinish, FlightValid;
    if ToolEvent(e) { ToolStreams(k, c, e, request); }
    else if e.Finish? { FinishStreams(k, c, e, request); }
  }

  // ---- what the counters tell ----

  predicate InFlight(c: Core, request: nat, streaming: bool) {
    c.pending.Some? && c.pending.value.id == request && (c.pending.value.phase == Streaming) == streaming
  }

  /** There is something for the event to act on. */
  predicate TakesEffect(c: Core, e: Event) {
    match e
    case UserMessage(_) => c.pending.None?
    case Cancel => c.pending.Some?
    case ContentDelta(request, _) => InFlight(c, request, true)
    case ToolCallDelta(request, _, _, _, _) => InFlight(c, request, true)
    case Finish(request, _) => InFlight(c, request, true)
    case TransportError(request, _) => InFlight(c, request, true)
    case Timeout(request) => InFlight(c, request, true)
    case ToolResult(request, id, _) =>
      InFlight(c, request, false) && exists r :: r in c.pending.value.results && r.callId == id && r.outcome.None?
    case PatchPreviewReady(request, id, _, _) =>
      InFlight(c, request, false) &&
      exists r :: r in c.pending.value.results && r.callId == id && r.approval == NotRequired && r.outcome.None?
                  && r.patchPreview.None?
    case CommandOutputChunk(request, id, _, _) =>
      InFlight(c, request, false) &&
      exists r :: r in c.pending.value.results && r.callId == id && r.approval == Approved && r.outcome.None?
                  && r.name == "command"
    case ApproveToolCall(id) => c.pending.Some? && Waiting(c, id)
    case RejectToolCall(id) => c.pending.Some? && Waiting(c, id)
  }

  predicate Waiting(c: Core, id: string)
    requires c.pending.Some?
  {
    exists r :: r in c.pending.value.results && r.callId == id && r.approval == Pending
  }

  function CounterOf(e: Event, effect: bool): Counter {
    match e
    case UserMessage(_) => if effect then UserMessagesAccepted else UserMessagesRejectedWhileActive
    case Cancel => if effect then CancelsApplied else CancelsIgnoredWhenIdle
    case ContentDelta(_, _) => if effect then ContentDeltasAppended else ContentDeltasDroppedAsStale
    case ToolCallDelta(_, _, _, _, _) => if effect then ToolCallDeltasAppended else ToolCallDeltasDroppedAsStale
    case Finish(_, _) => if effect then FinishesCommitted else FinishesDroppedAsStale
    case TransportError(_, _) => if effect then TransportErrorsRecorded else TransportErrorsDroppedAsStale
    case Timeout(_) => if effect then TimeoutsApplied else TimeoutsDroppedAsStale
    case ToolResult(_, _, _) => if effect then ToolResultsCommitted else ToolResultsDroppedAsStale
    case PatchPreviewReady(_, _, _, _) => if effect then PatchPreviewsCommitted else PatchPreviewsDroppedAsStale
    case CommandOutputChunk(_, _, _, _) =>
      if effect then CommandOutputChunksAppended else CommandOutputChunksDroppedAsStale
    case ApproveToolCall(_) => if effect then ToolCallApprovalsCommitted else ToolCallApprovalsDroppedAsStale
    case RejectToolCall(_) => if effect then ToolCallRejectionsCommitted else ToolCallRejectionsDroppedAsStale
  }

  lemma FindIff(want: Want, id: string, rs: seq<Entry>)
    ensures Find(want, id, rs) < |rs| <==> exists r :: r in rs && Matches(want, id, r)
  {
    var i := Find(want, id, rs);
    if r :| r in rs && Matches(want, id, r) {
      var j :| 0 <= j < |rs| && rs[j] == r;
    }
  }

  lemma FoundIff(c: Core, e: Event)
    requires c.pending.Some?
    ensures
      var rs := c.pending.value.results;
      && (e.ToolResult? ==>
            (TakesEffect(c, e) <==> RunsTools(c, e.request) && Find(Agent.Unresolved, e.callId, rs) < |rs|))
      && (e.PatchPreviewReady? ==>
            (TakesEffect(c, e) <==> RunsTools(c, e.request) && Find(Previewable, e.callId, rs) < |rs|))
      && (e.CommandOutputChunk? ==>
            (TakesEffect(c, e) <==> RunsTools(c, e.request) && Find(RunningCommand, e.callId, rs) < |rs|))
      && (e.ApproveToolCall? || e.RejectToolCall? ==> (TakesEffect(c, e) <==> Find(Undecided, e.callId, rs) < |rs|))
  {
    var rs := c.pending.value.results;
    if e.ToolResult? { FindIff(Agent.Unresolved, e.callId, rs); }
    if e.PatchPreviewReady? { FindIff(Previewable, e.callId, rs); }
    if e.CommandOutputChunk? { FindIff(RunningCommand, e.callId, rs); }
    if e.ApproveToolCall? || e.RejectToolCall? { FindIff(Undecided, e.callId, rs); }
    hide Find;
  }

  /** An event with nothing to act on changes nothing and emits nothing; only its counter says it was dropped. */
  lemma DroppedIsCounted(k: Codec, c: Core, e: Event)
    requires Valid(c) && !TakesEffect(c, e)
    ensures Step(k, c, e) == (c.(metrics := c.metrics + multiset{CounterOf(e, false)}), [])
  {
    if c.pending.Some? { FoundIff(c, e); }
    hide TakesEffect, Merge, Overflows, Dispatch, FinalCalls, ApprovalOpen, Find;
  }

  /** An event with something to act on is counted as such, once. */
  lemma EffectIsCounted(k: Codec, c: Core, e: Event)
    requires Valid(c) && TakesEffect(c, e)
    ensures
      var n := CounterOf(e, true);
      Step(k, c, e).0.metrics[n] == c.metrics[n] + 1
  {
    if c.pending.Some? { FoundIff(c, e); }
    if e.Finish? {
      AgentCounters.StepCounts(k, c, e);
    } else {
      AgentCounters.StepMetrics(k, c, e);
      EffectCounter(k, c, e);
    }
    hide TakesEffect, Step, Valid;
  }

  lemma EffectCounter(k: Codec, c: Core, e: Event)
    requires Valid(c) && TakesEffect(c, e) && !e.Finish?
    ensures AgentCounters.CounterFor(k, c, e) == CounterOf(e, true)
    ensures AgentCounters.ExtraFor(k, c, e) != Some(CounterOf(e, true))
  {
    if c.pending.Some? { FoundIff(c, e); }
    hide TakesEffect, Overflows, Approving;
  }
}
