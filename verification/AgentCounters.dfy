/** What the counters mean: every event is counted once, and assistant messages balance. */
module AgentCounters {
  import opened Options
  import opened Transcript
  import opened Invocations
  import opened Tallies
  import opened Agent
  import opened AgentInvariant
  import opened AgentSteps
  import opened AgentTranscript

  function StreamEvents(m: multiset<Counter>): nat {
    m[ContentDeltasAppended] + m[ContentDeltasDroppedAsStale]
    + m[ToolCallDeltasAppended] + m[ToolCallDeltasDroppedAsStale]
    + m[FinishesCommitted] + m[FinishesDroppedAsStale]
  }

  function TurnEvents(m: multiset<Counter>): nat {
    m[UserMessagesAccepted] + m[UserMessagesRejectedWhileActive] + m[CancelsApplied] + m[CancelsIgnoredWhenIdle]
    + m[TransportErrorsRecorded] + m[TransportErrorsDroppedAsStale] + m[TimeoutsApplied] + m[TimeoutsDroppedAsStale]
  }

  function ResultEvents(m: multiset<Counter>): nat {
    m[ToolResultsCommitted] + m[ToolResultsDroppedAsStale] + m[PatchPreviewsCommitted] + m[PatchPreviewsDroppedAsStale]
    + m[CommandOutputChunksAppended] + m[CommandOutputChunksDroppedAsStale]
  }

  function DecisionEvents(m: multiset<Counter>): nat {
    m[ToolCallApprovalsCommitted] + m[ToolCallApprovalsDroppedAsStale]
    + m[ToolCallRejectionsCommitted] + m[ToolCallRejectionsDroppedAsStale]
  }

  /** The sum of the 24 counters of which each event moves one. */
  function EventTotal(m: multiset<Counter>): nat {
    StreamEvents(m) + TurnEvents(m) + ResultEvents(m) + DecisionEvents(m)
  }

  predicate StreamCounter(n: Counter) {
    n.ContentDeltasAppended? || n.ContentDeltasDroppedAsStale?
    || n.ToolCallDeltasAppended? || n.ToolCallDeltasDroppedAsStale?
    || n.FinishesCommitted? || n.FinishesDroppedAsStale?
  }

  predicate TurnCounter(n: Counter) {
    n.UserMessagesAccepted? || n.UserMessagesRejectedWhileActive? || n.CancelsApplied? || n.CancelsIgnoredWhenIdle?
    || n.TransportErrorsRecorded? || n.TransportErrorsDroppedAsStale? || n.TimeoutsApplied? || n.TimeoutsDroppedAsStale?
  }

  predicate ResultCounter(n: Counter) {
    n.ToolResultsCommitted? || n.ToolResultsDroppedAsStale?
    || n.PatchPreviewsCommitted? || n.PatchPreviewsDroppedAsStale?
    || n.CommandOutputChunksAppended? || n.CommandOutputChunksDroppedAsStale?
  }

  predicate DecisionCounter(n: Counter) {
    n.ToolCallApprovalsCommitted? || n.ToolCallApprovalsDroppedAsStale?
    || n.ToolCallRejectionsCommitted? || n.ToolCallRejectionsDroppedAsStale?
  }

  /** The counters that count calls and fragments instead. */
  predicate PerCall(n: Counter) {
    !StreamCounter(n) && !TurnCounter(n) && !ResultCounter(n) && !DecisionCounter(n)
  }

  lemma AddStream(m: multiset<Counter>, n: Counter)
    ensures StreamEvents(m + multiset{n}) == StreamEvents(m) + if StreamCounter(n) then 1 else 0
  {
  }

  lemma AddTurn(m: multiset<Counter>, n: Counter)
    ensures TurnEvents(m + multiset{n}) == TurnEvents(m) + if TurnCounter(n) then 1 else 0
  {
  }

  lemma AddResult(m: multiset<Counter>, n: Counter)
    ensures ResultEvents(m + multiset{n}) == ResultEvents(m) + if ResultCounter(n) then 1 else 0
  {
  }

  lemma AddDecision(m: multiset<Counter>, n: Counter)
    ensures DecisionEvents(m + multiset{n}) == DecisionEvents(m) + if DecisionCounter(n) then 1 else 0
  {
  }

  lemma OneGroup(n: Counter)
    ensures (if StreamCounter(n) then 1 else 0) + (if TurnCounter(n) then 1 else 0)
            + (if ResultCounter(n) then 1 else 0) + (if DecisionCounter(n) then 1 else 0) == if PerCall(n) then 0 else 1
  {
  }

  lemma AddOne(m: multiset<Counter>, n: Counter)
    ensures EventTotal(m + multiset{n}) == EventTotal(m) + if PerCall(n) then 0 else 1
    ensures (m + multiset{n})[FinishesCommitted] == m[FinishesCommitted] + if n == FinishesCommitted then 1 else 0
  {
    hide StreamEvents, TurnEvents, ResultEvents, DecisionEvents, StreamCounter, TurnCounter, ResultCounter,
      DecisionCounter, PerCall;
    AddStream(m, n);
    AddTurn(m, n);
    AddResult(m, n);
    AddDecision(m, n);
    OneGroup(n);
  }

  lemma AddNone(m: multiset<Counter>)
    ensures m + multiset{} == m
  {
  }

  predicate IsAssistant(m: Msg) { m.Assistant? }

  predicate IsPrompt(m: Msg) { m.User? || m.Tool? }

  function Assistants(c: Core): nat { Tally(IsAssistant, c.conversation) }

  function Prompts(c: Core): nat { Tally(IsPrompt, c.conversation) }

  /** Assistant messages are the committed finishes, and each answers a prompt of its own: one more is
      open while a reply is streaming. */
  predicate Balanced(c: Core) {
    && Assistants(c) == c.metrics[FinishesCommitted]
    && Assistants(c) + (if c.pending.Some? && c.pending.value.phase == Streaming then 1 else 0) <= Prompts(c)
  }

  // ---- every event is counted once ----

  lemma {:induction false} RuleCounts(k: Codec, ws: string, request: nat, tooLarge: bool, used: nat, call: ToolCall,
                                      m: multiset<Counter>)
    ensures
      var n := m + Rule(k, ws, request, tooLarge, used, call).counted;
      EventTotal(n) == EventTotal(m) && n[FinishesCommitted] == m[FinishesCommitted]
  {
    hide EventTotal;
    AddNone(m);
    AddOne(m, ToolCallsExecuted);
    AddOne(m, ToolCallsRejectedByTurnLimit);
    AddOne(m, ToolCallsRejectedByArgumentsLimit);
    AddOne(m, PatchCallsPreviewed);
    AddOne(m, CommandCallsDispatched);
  }

  lemma {:induction false} DispatchCounts(k: Codec, ws: string, request: nat, tooLarge: set<string>,
                                          calls: seq<ToolCall>, b: Batch)
    ensures
      var b' := Dispatch(k, ws, request, tooLarge, calls, b);
      EventTotal(b'.metrics) == EventTotal(b.metrics) && b'.metrics[FinishesCommitted] == b.metrics[FinishesCommitted]
    decreases |calls|
  {
    hide Rule, EventTotal;
    if calls != [] {
      RuleCounts(k, ws, request, calls[0].id in tooLarge, b.used, calls[0], b.metrics);
      DispatchCounts(k, ws, request, tooLarge, calls[1..], DispatchOne(k, ws, request, tooLarge, calls[0], b));
    }
  }

  lemma FinishCounts(k: Codec, c: Core, e: Event)
    requires e.Finish?
    ensures EventTotal(Step(k, c, e).0.metrics) == EventTotal(c.metrics) + 1
    ensures Step(k, c, e).0.metrics[FinishesCommitted] ==
      c.metrics[FinishesCommitted] + if Streams(c, e.request) then 1 else 0
  {
    hide EventTotal, Dispatch, FinalCalls, AllResolved, ApprovalOpen;
    AddOne(c.metrics, FinishesDroppedAsStale);
    AddOne(c.metrics, FinishesCommitted);
    if Streams(c, e.request) {
      var p := c.pending.value;
      DispatchCounts(k, c.workspace, p.id, TooLarge(p.slots), FinalCalls(p.slots),
                     Batch([], [], c.callsThisTurn, Counted(c, FinishesCommitted).metrics));
    }
  }

  /** The per-event counter an event other than a finish moves. */
  function CounterFor(k: Codec, c: Core, e: Event): Counter
    requires !e.Finish?
  {
    if ToolEvent(e) then
      if e.ToolResult? then Hit(c, e, ToolResultsCommitted, ToolResultsDroppedAsStale)
      else if e.PatchPreviewReady? then Hit(c, e, PatchPreviewsCommitted, PatchPreviewsDroppedAsStale)
      else if e.CommandOutputChunk? then Hit(c, e, CommandOutputChunksAppended, CommandOutputChunksDroppedAsStale)
      else if e.ApproveToolCall? then
        if Decided(c, e.callId).Some? then ToolCallApprovalsCommitted else ToolCallApprovalsDroppedAsStale
      else if Decided(c, e.callId).Some? then ToolCallRejectionsCommitted else ToolCallRejectionsDroppedAsStale
    else if e.UserMessage? then if c.pending.None? then UserMessagesAccepted else UserMessagesRejectedWhileActive
    else if e.Cancel? then if c.pending.Some? then CancelsApplied else CancelsIgnoredWhenIdle
    else if e.ContentDelta? then if Streams(c, e.request) then ContentDeltasAppended else ContentDeltasDroppedAsStale
    else if e.ToolCallDelta? then if Streams(c, e.request) then ToolCallDeltasAppended else ToolCallDeltasDroppedAsStale
    else if e.TransportError? then
      if Streams(c, e.request) then TransportErrorsRecorded else TransportErrorsDroppedAsStale
    else if Streams(c, e.request) then TimeoutsApplied else TimeoutsDroppedAsStale
  }

  /** Whether an event of a tool phase finds its entry. */
  function Hit(c: Core, e: Event, hit: Counter, missed: Counter): Counter
    requires e.ToolResult? || e.PatchPreviewReady? || e.CommandOutputChunk?
  {
    if !RunsTools(c, e.request) || Find(WantOf(e), e.callId, c.pending.value.results) == |c.pending.value.results|
    then missed
    else hit
  }

  /** A dropped fragment and a started command are counted besides. */
  function ExtraFor(k: Codec, c: Core, e: Event): Option<Counter> {
    if e.ToolCallDelta? && Streams(c, e.request) && e.fragment.Some?
       && Overflows(SlotAt(c.pending.value.slots, e.index), e.fragment.value)
    then Some(ToolCallArgumentsFragmentsDroppedOverLimit)
    else if e.ApproveToolCall? && Decided(c, e.callId).Some?
       && Released(k, c, Decided(c, e.callId).value).ExecuteCommand?
    then Some(CommandExecutionsStarted)
    else None
  }

  function Released(k: Codec, c: Core, i: nat): Action
    requires c.pending.Some? && i < |c.pending.value.results|
  {
    var a := Approving(k, c.pending.value.id, c.pending.value.results[i].(approval := Approved));
    if a.Ok? then a.value else Redraw
  }

  predicate MovedBy(m: multiset<Counter>, m': multiset<Counter>, x: Counter, y: Option<Counter>) {
    if y.None? then m' == m + multiset{x}
    else m' == m + multiset{x} + multiset{y.value} || m' == m + multiset{y.value} + multiset{x}
  }

  lemma ApproveMetrics(k: Codec, c: Core, e: Event)
    requires e.ApproveToolCall?
    ensures MovedBy(c.metrics, Step(k, c, e).0.metrics, CounterFor(k, c, e), ExtraFor(k, c, e))
  {
    hide Approving, AllResolved, ApprovalOpen;
  }

  lemma ResultMetrics(k: Codec, c: Core, e: Event)
    requires ToolEvent(e) && !e.ApproveToolCall?
    ensures MovedBy(c.metrics, Step(k, c, e).0.metrics, CounterFor(k, c, e), ExtraFor(k, c, e))
  {
    hide AllResolved, ApprovalOpen, Extended;
  }

  lemma OtherMetrics(k: Codec, c: Core, e: Event)
    requires !ToolEvent(e) && !e.Finish?
    ensures MovedBy(c.metrics, Step(k, c, e).0.metrics, CounterFor(k, c, e), ExtraFor(k, c, e))
  {
    hide Merge, Overflows;
  }

  lemma StepMetrics(k: Codec, c: Core, e: Event)
    requires !e.Finish?
    ensures MovedBy(c.metrics, Step(k, c, e).0.metrics, CounterFor(k, c, e), ExtraFor(k, c, e))
  {
    hide Step, MovedBy, CounterFor, ExtraFor;
    if e.ApproveToolCall? { ApproveMetrics(k, c, e); }
    else if ToolEvent(e) { ResultMetrics(k, c, e); }
    else { OtherMetrics(k, c, e); }
  }

  lemma CounterKinds(k: Codec, c: Core, e: Event)
    requires !e.Finish?
    ensures !PerCall(CounterFor(k, c, e)) && CounterFor(k, c, e) != FinishesCommitted
    ensures ExtraFor(k, c, e).Some? ==> PerCall(ExtraFor(k, c, e).value) && ExtraFor(k, c, e).value != FinishesCommitted
  {
    hide Overflows, Approving;
  }

  lemma MovedTotals(m: multiset<Counter>, m': multiset<Counter>, x: Counter, y: Option<Counter>)
    requires MovedBy(m, m', x, y)
    requires !PerCall(x) && x != FinishesCommitted
    requires y.Some? ==> PerCall(y.value) && y.value != FinishesCommitted
    ensures EventTotal(m') == EventTotal(m) + 1 && m'[FinishesCommitted] == m[FinishesCommitted]
  {
    hide EventTotal, PerCall;
    AddOne(m, x);
    if y.Some? {
      AddOne(m, y.value);
      AddOne(m + multiset{x}, y.value);
      AddOne(m + multiset{y.value}, x);
    }
  }

  lemma StepCounts(k: Codec, c: Core, e: Event)
    ensures EventTotal(Step(k, c, e).0.metrics) == EventTotal(c.metrics) + 1
    ensures Step(k, c, e).0.metrics[FinishesCommitted] ==
      c.metrics[FinishesCommitted] + if e.Finish? && Streams(c, e.request) then 1 else 0
  {
    hide EventTotal, Step, MovedBy, CounterFor, ExtraFor, PerCall;
    if e.Finish? {
      FinishCounts(k, c, e);
    } else {
      StepMetrics(k, c, e);
      CounterKinds(k, c, e);
      MovedTotals(c.metrics, Step(k, c, e).0.metrics, CounterFor(k, c, e), ExtraFor(k, c, e));
    }
  }

  // ---- messages balance ----

  lemma ToolTallies(k: Codec, rs: seq<Entry>)
    requires AllResolved(rs)
    ensures Tally(IsAssistant, ToolMessages(k, rs)) == 0
    ensures Tally(IsPrompt, ToolMessages(k, rs)) == |rs|
  {
    TallyZero(IsAssistant, ToolMessages(k, rs));
    AllTools(ToolMessages(k, rs));
  }

  lemma {:induction false} AllTools(ms: seq<Msg>)
    requires forall i :: 0 <= i < |ms| ==> ms[i].Tool?
    ensures Tally(IsPrompt, ms) == |ms|
  {
    if ms != [] { AllTools(ms[1..]); }
  }

  lemma OneTally(m: Msg)
    ensures Tally(IsAssistant, [m]) == if m.Assistant? then 1 else 0
    ensures Tally(IsPrompt, [m]) == if m.User? || m.Tool? then 1 else 0
  {
  }

  lemma Appended(ms: seq<Msg>, m: Msg)
    ensures Tally(IsAssistant, ms + [m]) == Tally(IsAssistant, ms) + if m.Assistant? then 1 else 0
    ensures Tally(IsPrompt, ms + [m]) == Tally(IsPrompt, ms) + if m.User? || m.Tool? then 1 else 0
  {
    hide Tally;
    OneTally(m);
    TallyAppend(IsAssistant, ms, [m]);
    TallyAppend(IsPrompt, ms, [m]);
  }

  lemma AppendedTools(k: Codec, ms: seq<Msg>, rs: seq<Entry>)
    requires AllResolved(rs)
    ensures Tally(IsAssistant, ms + ToolMessages(k, rs)) == Tally(IsAssistant, ms)
    ensures Tally(IsPrompt, ms + ToolMessages(k, rs)) == Tally(IsPrompt, ms) + |rs|
  {
    hide Tally, ToolMessages;
    ToolTallies(k, rs);
    TallyAppend(IsAssistant, ms, ToolMessages(k, rs));
    TallyAppend(IsPrompt, ms, ToolMessages(k, rs));
  }

  lemma EditedConversation(k: Codec, c: Core, d: Edit)
    requires d.Edit? && c.pending.Some? && c.pending.value.phase != Streaming && d.at < |c.pending.value.results|
    ensures
      var rs := c.pending.value.results[d.at := d.entry];
      var c' := Edited(k, c, d).0;
      if d.action.None? && AllResolved(rs) then c'.conversation == c.conversation + ToolMessages(k, rs)
      else c'.conversation == c.conversation && c'.pending.Some? && c'.pending.value.phase != Streaming
  {
    hide ApprovalOpen, AllResolved;
  }

  lemma ToolBalance(k: Codec, c: Core, e: Event)
    requires Valid(c) && ToolEvent(e) && Balanced(c)
    ensures Balanced(Step(k, c, e).0)
  {
    hide Step, EntryAfter, Tally, FlightValid, ApprovalOpen, EventTotal, Edited;
    StepCounts(k, c, e);
    ToolStep(k, c, e);
    var d := EditOf(k, c, e);
    if d.Edit? {
      EditedConversation(k, c, d);
      var rs := c.pending.value.results[d.at := d.entry];
      if AllResolved(rs) { AppendedTools(k, c.conversation, rs); }
    }
  }

  lemma FinishBalance(k: Codec, c: Core, e: Event)
    requires Valid(c) && e.Finish? && Balanced(c)
    ensures Balanced(Step(k, c, e).0)
  {
    hide Tally, FlightValid, ApprovalOpen, Dispatch, FinalCalls;
    StepCounts(k, c, e);
    if Streams(c, e.request) {
      var p := c.pending.value;
      Appended(c.conversation, Assistant(p.response.content, []));
      if e.reason == Some("tool_calls") && p.slots != map[] {
        var calls := FinalCalls(p.slots);
        var c0 := Counted(c, FinishesCommitted);
        var b := BatchOf(k, c0, calls);
        BatchStandsFor(k, c0, calls);
        var ms := c.conversation + [Assistant(p.response.content, calls)];
        Appended(c.conversation, Assistant(p.response.content, calls));
        FinalCallsSome(p.slots);
        if AllResolved(b.entries) { AppendedTools(k, ms, b.entries); }
      }
    }
  }

  lemma FinalCallsSome(slots: map<nat, Slot>)
    requires slots != map[]
    ensures |FinalCalls(slots)| >= 1
  {
    var i :| i in slots;
  }

  lemma OtherConversation(k: Codec, c: Core, e: Event)
    requires Valid(c) && !ToolEvent(e) && !e.Finish?
    ensures
      var c' := Step(k, c, e).0;
      if e.UserMessage? && c.pending.None? then c'.conversation == c.conversation + [User(e.text)]
      else
        && c'.conversation == c.conversation
        && (c'.pending.Some? && c'.pending.value.phase == Streaming ==>
            c.pending.Some? && c.pending.value.phase == Streaming)
  {
    hide FlightValid, Merge, Overflows;
  }

  lemma OtherBalance(k: Codec, c: Core, e: Event)
    requires Valid(c) && !ToolEvent(e) && !e.Finish? && Balanced(c)
    ensures Balanced(Step(k, c, e).0)
  {
    hide Step, Tally, FlightValid, EventTotal;
    StepCounts(k, c, e);
    OtherConversation(k, c, e);
    if e.UserMessage? { Appended(c.conversation, User(e.text)); }
  }

  lemma StepBalance(k: Codec, c: Core, e: Event)
    requires Valid(c) && Balanced(c)
    ensures Balanced(Step(k, c, e).0)
  {
    hide Step, Balanced, Valid;
    if ToolEvent(e) { ToolBalance(k, c, e); }
    else if e.Finish? { FinishBalance(k, c, e); }
    else { OtherBalance(k, c, e); }
  }

  lemma {:induction false} RunCounts(k: Codec, c: Core, es: seq<Event>)
    requires Valid(c) && Balanced(c)
    ensures Balanced(Run(k, c, es).0)
    ensures EventTotal(Run(k, c, es).0.metrics) == EventTotal(c.metrics) + |es|
    ensures Extends(c.conversation, Run(k, c, es).0.conversation)
    decreases |es|
  {
    hide Step, Balanced, Valid, EventTotal;
    if es != [] {
      var c1 := Step(k, c, es[0]).0;
      StepKeeps(k, c, es[0]);
      StepBalance(k, c, es[0]);
      StepCounts(k, c, es[0]);
      StepTalk(k, c, es[0]);
      RunCounts(k, c1, es[1..]);
      ExtendsTrans(c.conversation, c1.conversation, Run(k, c, es).0.conversation);
    }
  }

  lemma ExtendsTrans(a: seq<Msg>, b: seq<Msg>, c: seq<Msg>)
    requires Extends(a, b) && Extends(b, c)
    ensures Extends(a, c)
  {
    assert c[..|a|] == c[..|b|][..|a|];
  }

  /** Over every run: the per-event counters sum to the events handled, assistant messages are the
      committed finishes, they never exceed users plus tool messages, and the conversation of any later
      state extends the conversation of any earlier one. */
  lemma EventsAreCounted(k: Codec, workspace: string, before: seq<Event>, es: seq<Event>)
    ensures
      var c0 := Run(k, INITIAL.(workspace := workspace), before).0;
      var c := Run(k, INITIAL.(workspace := workspace), before + es).0;
      && EventTotal(c.metrics) == |before| + |es|
      && Assistants(c) == c.metrics[FinishesCommitted]
      && Assistants(c) <= Prompts(c)
      && Extends(c0.conversation, c.conversation)
  {
    hide Run, EventTotal, Valid, Extends;
    var start := INITIAL.(workspace := workspace);
    StartsBalanced(workspace);
    RunCounts(k, start, before);
    RunKeeps(k, start, before);
    RunCounts(k, Run(k, start, before).0, es);
    RunSplit(k, start, before, es);
  }

  lemma StartsBalanced(workspace: string)
    ensures
      var c := INITIAL.(workspace := workspace);
      Valid(c) && Balanced(c) && EventTotal(c.metrics) == 0
  {
  }

  // ---- what was emitted is what was counted ----

  /** The counter that goes with an action that reaches a tool. */
  function CounterOf(a: Action): Option<Counter> {
    if a.ExecuteTool? then Some(ToolCallsExecuted)
    else if a.PreviewPatch? then Some(PatchCallsPreviewed)
    else if a.ExecuteCommand? then Some(CommandExecutionsStarted)
    else None
  }

  predicate Emits(n: Counter) { n.ToolCallsExecuted? || n.PatchCallsPreviewed? || n.CommandExecutionsStarted? }

  function CountedBy(n: Counter): Action -> bool { (a: Action) => CounterOf(a) == Some(n) }

  /** The step moved the counter as often as it emitted its action. */
  predicate Moved(m: multiset<Counter>, m': multiset<Counter>, actions: seq<Action>, n: Counter) {
    m'[n] == m[n] + Tally(CountedBy(n), actions)
  }

  lemma MovedNot(m: multiset<Counter>, x: Counter, actions: seq<Action>, n: Counter)
    requires x != n && forall i :: 0 <= i < |actions| ==> CounterOf(actions[i]) != Some(n)
    ensures Moved(m, m + multiset{x}, actions, n)
  {
    TallyZero(CountedBy(n), actions);
  }

  lemma RuleEmits(k: Codec, ws: string, request: nat, tooLarge: bool, used: nat, call: ToolCall, n: Counter)
    requires Emits(n)
    ensures
      var v := Rule(k, ws, request, tooLarge, used, call);
      |v.actions| <= 1 && v.counted[n] == if |v.actions| == 1 && CounterOf(v.actions[0]) == Some(n) then 1 else 0
  {
  }

  lemma {:induction false} DispatchEmits(k: Codec, ws: string, request: nat, tooLarge: set<string>,
                                         calls: seq<ToolCall>, b: Batch, n: Counter)
    requires Emits(n)
    ensures
      var b' := Dispatch(k, ws, request, tooLarge, calls, b);
      b'.metrics[n] - Tally(CountedBy(n), b'.actions) == b.metrics[n] - Tally(CountedBy(n), b.actions)
    decreases |calls|
  {
    hide Rule, Tally, CounterOf;
    if calls != [] {
      var v := Rule(k, ws, request, calls[0].id in tooLarge, b.used, calls[0]);
      RuleEmits(k, ws, request, calls[0].id in tooLarge, b.used, calls[0], n);
      TallyAppend(CountedBy(n), b.actions, v.actions);
      OneOrNone(CountedBy(n), v.actions);
      DispatchEmits(k, ws, request, tooLarge, calls[1..], DispatchOne(k, ws, request, tooLarge, calls[0], b), n);
    }
  }

  lemma OneOrNone<T>(p: T -> bool, s: seq<T>)
    requires |s| <= 1
    ensures Tally(p, s) == if |s| == 1 && p(s[0]) then 1 else 0
  {
  }

  lemma FinishEmits(k: Codec, c: Core, e: Event, n: Counter)
    requires e.Finish? && Emits(n)
    ensures Moved(c.metrics, Step(k, c, e).0.metrics, Step(k, c, e).1, n)
  {
    hide Tally, Dispatch, FinalCalls, AllResolved, ApprovalOpen, Moved;
    var (c', actions) := Step(k, c, e);
    if !Streams(c, e.request) {
      MovedNot(c.metrics, FinishesDroppedAsStale, actions, n);
    } else if e.reason != Some("tool_calls") || c.pending.value.slots == map[] {
      MovedNot(c.metrics, FinishesCommitted, actions, n);
    } else {
      var p := c.pending.value;
      var start := Batch([], [], c.callsThisTurn, c.metrics + multiset{FinishesCommitted});
      var b := Dispatch(k, c.workspace, p.id, TooLarge(p.slots), FinalCalls(p.slots), start);
      DispatchEmits(k, c.workspace, p.id, TooLarge(p.slots), FinalCalls(p.slots), start, n);
      var last := actions[|b.actions|..];
      assert actions == b.actions + last;
      BatchMoved(c.metrics, b, actions, last, n);
    }
  }

  lemma BatchMoved(m: multiset<Counter>, b: Batch, actions: seq<Action>, last: seq<Action>, n: Counter)
    requires Emits(n) && actions == b.actions + last
    requires forall i :: 0 <= i < |last| ==> CounterOf(last[i]).None?
    requires b.metrics[n] - Tally(CountedBy(n), b.actions) ==
      (m + multiset{FinishesCommitted})[n] - Tally(CountedBy(n), [])
    ensures Moved(m, b.metrics, actions, n)
  {
    TallyAppend(CountedBy(n), b.actions, last);
    TallyZero(CountedBy(n), last);
  }

  lemma TallyHead<T>(p: T -> bool, s: seq<T>)
    requires s != []
    ensures Tally(p, s) == (if p(s[0]) then 1 else 0) + Tally(p, s[1..])
  {
  }

  /** The counted action of an event other than a finish: a command released by its approval. */
  lemma OtherActions(k: Codec, c: Core, e: Event, n: Counter)
    requires !e.Finish? && Emits(n)
    ensures Tally(CountedBy(n), Step(k, c, e).1) == if ExtraFor(k, c, e) == Some(n) then 1 else 0
  {
    hide Tally, AllResolved, ApprovalOpen, Merge, Overflows, Extended, Step, ExtraFor;
    if e.ApproveToolCall? {
      ApproveActions(k, c, e, n);
    } else {
      PlainActions(k, c, e, n);
      TallyZero(CountedBy(n), Step(k, c, e).1);
    }
  }

  lemma PlainActions(k: Codec, c: Core, e: Event, n: Counter)
    requires !e.Finish? && !e.ApproveToolCall? && Emits(n)
    ensures ExtraFor(k, c, e) != Some(n)
    ensures forall i :: 0 <= i < |Step(k, c, e).1| ==> CounterOf(Step(k, c, e).1[i]).None?
  {
    hide AllResolved, ApprovalOpen, Merge, Overflows, Extended;
  }

  lemma ApproveActions(k: Codec, c: Core, e: Event, n: Counter)
    requires e.ApproveToolCall? && Emits(n)
    ensures Tally(CountedBy(n), Step(k, c, e).1) == if ExtraFor(k, c, e) == Some(n) then 1 else 0
  {
    hide Tally, Step, ExtraFor;
    ApprovedActions(k, c, e);
    var actions := Step(k, c, e).1;
    if actions != [] {
      TallyHead(CountedBy(n), actions);
      TallyZero(CountedBy(n), actions[1..]);
    } else {
      TallyZero(CountedBy(n), actions);
    }
  }

  lemma ApprovedActions(k: Codec, c: Core, e: Event)
    requires e.ApproveToolCall?
    ensures
      var actions := Step(k, c, e).1;
      && (actions == [] ==> ExtraFor(k, c, e).None?)
      && (actions != [] ==>
            (forall i :: 1 <= i < |actions| ==> actions[i] == Redraw) && CounterOf(actions[0]) == ExtraFor(k, c, e))
  {
    hide AllResolved, ApprovalOpen;
  }

  lemma AddAt(m: multiset<Counter>, x: Counter, n: Counter)
    ensures (m + multiset{x})[n] == m[n] + if x == n then 1 else 0
  {
  }

  lemma MovedAt(m: multiset<Counter>, m': multiset<Counter>, x: Counter, y: Option<Counter>, n: Counter)
    requires MovedBy(m, m', x, y) && x != n
    ensures m'[n] == m[n] + if y == Some(n) then 1 else 0
  {
    AddAt(m, x, n);
    if y.Some? {
      AddAt(m, y.value, n);
      AddAt(m + multiset{x}, y.value, n);
      AddAt(m + multiset{y.value}, x, n);
    }
  }

  lemma EmitsPerCall(n: Counter)
    requires Emits(n)
    ensures PerCall(n)
  {
  }

  lemma StepEmits(k: Codec, c: Core, e: Event, n: Counter)
    requires Emits(n)
    ensures Moved(c.metrics, Step(k, c, e).0.metrics, Step(k, c, e).1, n)
  {
    hide Step, MovedBy, CounterFor, ExtraFor, PerCall, Tally;
    if e.Finish? {
      FinishEmits(k, c, e, n);
    } else {
      EmitsPerCall(n);
      StepMetrics(k, c, e);
      CounterKinds(k, c, e);
      OtherActions(k, c, e, n);
      MovedAt(c.metrics, Step(k, c, e).0.metrics, CounterFor(k, c, e), ExtraFor(k, c, e), n);
    }
  }

  /** Over every run, the counters of tool executions, patch previews and command executions are the numbers
      of the corresponding actions emitted. */
  lemma {:induction false} ActionsAreCounted(k: Codec, c: Core, es: seq<Event>, n: Counter)
    requires Emits(n)
    ensures Run(k, c, es).0.metrics[n] == c.metrics[n] + Tally(CountedBy(n), Run(k, c, es).1)
    decreases |es|
  {
    hide Step, Tally;
    if es == [] {
      OneOrNone(CountedBy(n), []);
    } else {
      var (c1, first) := Step(k, c, es[0]);
      StepEmits(k, c, es[0], n);
      ActionsAreCounted(k, c1, es[1..], n);
      TallyAppend(CountedBy(n), first, Run(k, c1, es[1..]).1);
    }
  }
}
