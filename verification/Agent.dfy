/** AgentCore as a value: the state machine that turns input events into actions, one function per
    handler. Its class, which updates the same fields in place, is in AgentObject. */
module Agent {
  import opened Options
  import opened Transcript
  import opened Invocations

  const ARGUMENTS_MAX_BYTES: nat := 64 * 1024
  const TURN_TOOL_CALL_LIMIT: nat := 20
  const COMMAND_TAIL_CHARS: nat := 4 * 1024

  /** What lies outside the core: the argument parsers, the rendering of an error as a tool message,
      and lossy UTF-8 decoding. */
  datatype Codec = Codec(
    parsePatch: string -> Result<PatchInvocation, ToolExecutionError>,
    parseCommand: string -> Result<CommandInvocation, ToolExecutionError>,
    parseReadOnly: (string, string) -> Result<ReadOnlyTool, ToolExecutionError>,
    errorJson: ToolExecutionError -> string,
    lossy: Bytes -> string)

  // ---- state ----

  datatype Slot = Slot(id: Option<string>, name: Option<string>, args: string, overLimit: bool)

  const EMPTY_SLOT := Slot(None, None, "", false)

  datatype Approval = NotRequired | Pending | Approved | Rejected

  datatype CommandPreview = CommandPreview(argv: seq<string>, workingDirectory: string)

  datatype OutputTail = OutputTail(stdout: string, stderr: string, stdoutBytes: nat, stderrBytes: nat)

  datatype Stream = Stdout | Stderr

  /** A call of the finished assistant turn and what is known of its result. */
  datatype Entry = Entry(
    callId: string,
    name: string,
    args: string,
    approval: Approval,
    patchPreview: Option<PatchPreview>,
    previewContent: seq<PreviewContent>,
    commandPreview: Option<CommandPreview>,
    tail: Option<OutputTail>,
    outcome: Option<ToolOutcome>)

  datatype Phase = Streaming | ToolRunning | AwaitingApproval

  datatype Response = Response(content: string, finishReason: Option<string>)

  /** The request in flight. */
  datatype Flight = Flight(id: nat, phase: Phase, response: Response, slots: map<nat, Slot>, results: seq<Entry>)

  datatype Status = Idle | AwaitingModel | StreamingReply | RunningTools | NeedsApproval

  datatype Counter =
    | UserMessagesAccepted | UserMessagesRejectedWhileActive
    | CancelsApplied | CancelsIgnoredWhenIdle
    | ContentDeltasAppended | ContentDeltasDroppedAsStale
    | FinishesCommitted | FinishesDroppedAsStale
    | TransportErrorsRecorded | TransportErrorsDroppedAsStale
    | TimeoutsApplied | TimeoutsDroppedAsStale
    | ToolCallDeltasAppended | ToolCallDeltasDroppedAsStale
    | ToolCallArgumentsFragmentsDroppedOverLimit
    | ToolResultsCommitted | ToolResultsDroppedAsStale
    | ToolCallsExecuted | ToolCallsRejectedByTurnLimit | ToolCallsRejectedByArgumentsLimit
    | PatchCallsPreviewed | PatchPreviewsCommitted | PatchPreviewsDroppedAsStale
    | ToolCallApprovalsCommitted | ToolCallApprovalsDroppedAsStale
    | ToolCallRejectionsCommitted | ToolCallRejectionsDroppedAsStale
    | CommandCallsDispatched | CommandExecutionsStarted
    | CommandOutputChunksAppended | CommandOutputChunksDroppedAsStale

  datatype Core = Core(
    conversation: seq<Msg>,
    pending: Option<Flight>,
    status: Status,
    nextId: nat,
    callsThisTurn: nat,
    workspace: string,
    metrics: multiset<Counter>)

  const INITIAL := Core([], None, Idle, 0, 0, "", multiset{})

  // ---- events and actions ----

  datatype Event =
    | UserMessage(text: string)
    | Cancel
    | ContentDelta(request: nat, text: string)
    | ToolCallDelta(request: nat, index: nat, id: Option<string>, name: Option<string>, fragment: Option<string>)
    | Finish(request: nat, reason: Option<string>)
    | ToolResult(request: nat, callId: string, outcome: ToolOutcome)
    | PatchPreviewReady(request: nat, callId: string, previewContent: seq<PreviewContent>, preview: PatchPreview)
    | ApproveToolCall(callId: string)
    | RejectToolCall(callId: string)
    | CommandOutputChunk(request: nat, callId: string, stream: Stream, bytes: Bytes)
    | TransportError(request: nat, message: string)
    | Timeout(request: nat)

  datatype Action =
    | StartRequest(id: nat, messages: seq<Msg>)
    | CancelRequest(id: nat)
    | ExecuteTool(request: nat, callId: string, tool: ReadOnlyTool)
    | PreviewPatch(request: nat, callId: string, patch: PatchInvocation)
    | ApplyPatch(request: nat, callId: string, patch: PatchInvocation, previewContent: seq<PreviewContent>)
    | ExecuteCommand(request: nat, callId: string, command: CommandInvocation)
    | CancelToolExecution(request: nat)
    | ReportError(message: string)
    | Redraw

  // ---- small pieces ----

  predicate Streams(c: Core, request: nat) {
    c.pending.Some? && c.pending.value.id == request && c.pending.value.phase == Streaming
  }

  predicate RunsTools(c: Core, request: nat) {
    c.pending.Some? && c.pending.value.id == request && c.pending.value.phase != Streaming
  }

  function Counted(c: Core, n: Counter): Core { c.(metrics := c.metrics + multiset{n}) }

  function Drop(c: Core, n: Counter): (Core, seq<Action>) { (Counted(c, n), []) }

  function Ended(c: Core): Core { c.(pending := None, status := Idle, callsThisTurn := 0) }

  /** Keep the last `max` characters. */
  function Bounded(s: string, max: nat): string { if |s| > max then s[|s| - max..] else s }

  /** Which entries an event is looking for. */
  datatype Want = Unresolved | Previewable | Undecided | RunningCommand

  predicate Matches(want: Want, id: string, r: Entry) {
    r.callId == id &&
    match want
    case Unresolved => r.outcome.None?
    case Previewable => r.approval == NotRequired && r.outcome.None? && r.patchPreview.None?
    case Undecided => r.approval == Pending
    case RunningCommand => r.approval == Approved && r.outcome.None? && r.name == "command"
  }

  /** Index of the first match, or the length. */
  function Find(want: Want, id: string, rs: seq<Entry>): (i: nat)
    ensures i <= |rs|
    ensures i < |rs| ==> Matches(want, id, rs[i])
    ensures forall j :: 0 <= j < i ==> !Matches(want, id, rs[j])
  {
    if rs == [] || Matches(want, id, rs[0]) then 0 else 1 + Find(want, id, rs[1..])
  }

  predicate AllResolved(rs: seq<Entry>) {
    forall i :: 0 <= i < |rs| ==> rs[i].outcome.Some?
  }

  predicate ApprovalOpen(rs: seq<Entry>) {
    exists i :: 0 <= i < |rs| && OpenEntry(rs[i])
  }

  predicate OpenEntry(r: Entry) { r.approval == Pending && r.outcome.None? }

  /** The state with the results of the flight replaced and phase and status brought in line. */
  function Refreshed(c: Core, rs: seq<Entry>): Core
    requires c.pending.Some? && c.pending.value.phase != Streaming
  {
    var p := c.pending.value.(results := rs);
    if ApprovalOpen(rs) then c.(pending := Some(p.(phase := AwaitingApproval)), status := NeedsApproval)
    else c.(pending := Some(p.(phase := ToolRunning)), status := RunningTools)
  }

  function FreshFlight(id: nat): Flight { Flight(id, Streaming, Response("", None), map[], []) }

  function Content(k: Codec, o: ToolOutcome): string {
    match o case Ok(s) => s case Err(e) => k.errorJson(e)
  }

  function ToolMessages(k: Codec, rs: seq<Entry>): (ms: seq<Msg>)
    requires AllResolved(rs)
    ensures |ms| == |rs|
    ensures forall i :: 0 <= i < |rs| ==> ms[i] == Tool(rs[i].callId, Content(k, rs[i].outcome.value))
  {
    seq(|rs|, i requires 0 <= i < |rs| => Tool(rs[i].callId, Content(k, rs[i].outcome.value)))
  }

  /** Start a request on the conversation as it is. */
  function Request(c: Core): (Core, seq<Action>) {
    (c.(pending := Some(FreshFlight(c.nextId)), status := AwaitingModel, nextId := c.nextId + 1),
     [StartRequest(c.nextId, c.conversation), Redraw])
  }

  /** Commit the results of a tool turn and ask the model again. */
  function Advance(k: Codec, c: Core, rs: seq<Entry>): (Core, seq<Action>)
    requires AllResolved(rs)
  {
    Request(c.(conversation := c.conversation + ToolMessages(k, rs)))
  }

  function MaybeAdvance(k: Codec, c: Core): (Core, seq<Action>)
    requires c.pending.Some?
  {
    if AllResolved(c.pending.value.results) then Advance(k, c, c.pending.value.results) else (c, [Redraw])
  }

  // ---- handlers ----

  function OnUserMessage(c: Core, text: string): (Core, seq<Action>) {
    if c.pending.Some? then Drop(c, UserMessagesRejectedWhileActive)
    else
      Request(Counted(c, UserMessagesAccepted).(conversation := c.conversation + [User(text)], callsThisTurn := 0))
  }

  function OnCancel(c: Core): (Core, seq<Action>) {
    if c.pending.None? then Drop(c, CancelsIgnoredWhenIdle)
    else
      var p := c.pending.value;
      (Ended(Counted(c, CancelsApplied)),
       [if p.phase == Streaming then CancelRequest(p.id) else CancelToolExecution(p.id), Redraw])
  }

  function OnContentDelta(c: Core, request: nat, text: string): (Core, seq<Action>) {
    if !Streams(c, request) then Drop(c, ContentDeltasDroppedAsStale)
    else
      var p := c.pending.value;
      var response := p.response.(content := p.response.content + text);
      (Counted(c, ContentDeltasAppended).(pending := Some(p.(response := response)), status := StreamingReply),
       [Redraw])
  }

  function FirstOf<T>(a: Option<T>, b: Option<T>): Option<T> { if a.Some? then a else b }

  predicate Overflows(slot: Slot, fragment: string) {
    slot.overLimit || Utf8Len(slot.args) + Utf8Len(fragment) > ARGUMENTS_MAX_BYTES
  }

  /** One fragment merged into its slot. */
  function Merge(slot: Slot, id: Option<string>, name: Option<string>, fragment: Option<string>): Slot {
    var s := slot.(id := FirstOf(slot.id, id), name := FirstOf(slot.name, name));
    if fragment.None? then s
    else if Overflows(slot, fragment.value) then s.(overLimit := true)
    else s.(args := s.args + fragment.value)
  }

  function SlotAt(slots: map<nat, Slot>, index: nat): Slot {
    if index in slots then slots[index] else EMPTY_SLOT
  }

  function OnToolCallDelta(c: Core, request: nat, index: nat, id: Option<string>, name: Option<string>,
                           fragment: Option<string>): (Core, seq<Action>) {
    if !Streams(c, request) then Drop(c, ToolCallDeltasDroppedAsStale)
    else
      var p := c.pending.value;
      var slot := SlotAt(p.slots, index);
      var c1 := if fragment.Some? && Overflows(slot, fragment.value)
                then Counted(c, ToolCallArgumentsFragmentsDroppedOverLimit) else c;
      (Counted(c1, ToolCallDeltasAppended).(
         pending := Some(p.(slots := p.slots[index := Merge(slot, id, name, fragment)])), status := StreamingReply),
       [Redraw])
  }

  // ---- finishing a turn ----

  lemma {:induction false} LeastExists(s: set<nat>)
    requires s != {}
    ensures exists m :: m in s && forall x :: x in s ==> m <= x
  {
    var x :| x in s;
    if y :| y in s && y < x {
      var rest := s - {x};
      assert y in rest;
      LeastExists(rest);
      var m :| m in rest && forall z :: z in rest ==> m <= z;
      forall z | z in s ensures m <= z { assert z == x || z in rest; }
      assert m in s;
    }
  }

  function Least(s: set<nat>): (m: nat)
    requires s != {}
    ensures m in s && forall x :: x in s ==> m <= x
  {
    LeastExists(s);
    var m :| m in s && forall x :: x in s ==> m <= x;
    m
  }

  /** The elements in increasing order: the iteration order of a BTreeMap. */
  function Ascending(s: set<nat>): (r: seq<nat>)
    ensures |r| == |s|
    ensures forall i :: 0 <= i < |r| ==> r[i] in s
  {
    if s == {} then [] else var m := Least(s); [m] + Ascending(s - {m})
  }

  function Decimal(n: nat): string {
    if n < 10 then ['0' + n as char] else Decimal(n / 10) + ['0' + (n % 10) as char]
  }

  function CallId(index: nat, slot: Slot): string {
    if slot.id.Some? then slot.id.value else "__missing_id__" + Decimal(index)
  }

  function CallOf(index: nat, slot: Slot): ToolCall {
    ToolCall(CallId(index, slot), if slot.name.Some? then slot.name.value else "", slot.args)
  }

  /** The calls committed to the assistant message, by increasing index. */
  function CallsOf(slots: map<nat, Slot>, order: seq<nat>): (calls: seq<ToolCall>)
    requires forall i :: 0 <= i < |order| ==> order[i] in slots
    ensures |calls| == |order|
    ensures forall i :: 0 <= i < |order| ==> calls[i] == CallOf(order[i], slots[order[i]])
  {
    seq(|order|, i requires 0 <= i < |order| => CallOf(order[i], slots[order[i]]))
  }

  /** Ids of the calls that lost a fragment. */
  function TooLarge(slots: map<nat, Slot>): set<string> {
    set i | i in slots && slots[i].overLimit :: CallId(i, slots[i])
  }

  function NewEntry(call: ToolCall): Entry {
    Entry(call.id, call.name, call.args, NotRequired, None, [], None, None, None)
  }

  /** The turn being dispatched: entries so far, actions, calls used of the turn's limit, counters. */
  datatype Batch = Batch(entries: seq<Entry>, actions: seq<Action>, used: nat, metrics: multiset<Counter>)

  /** What becomes of one call: its entry, the action that starts it, whether it uses up one of the
      turn's calls, and the counter it moves. */
  datatype Ruling = Ruling(entry: Entry, actions: seq<Action>, accepted: bool, counted: multiset<Counter>)

  function Refused(call: ToolCall, e: ToolExecutionError, counted: multiset<Counter>): Ruling {
    Ruling(NewEntry(call).(outcome := Some(Err(e))), [], false, counted)
  }

  function Rule(k: Codec, workspace: string, request: nat, tooLarge: bool, used: nat, call: ToolCall): Ruling {
    if tooLarge then Refused(call, ArgumentsTooLarge, multiset{ToolCallsRejectedByArgumentsLimit})
    else if used >= TURN_TOOL_CALL_LIMIT then
      Refused(call, TurnToolCallLimitExceeded, multiset{ToolCallsRejectedByTurnLimit})
    else if call.name == "patch" then
      match k.parsePatch(call.args)
      case Ok(patch) =>
        Ruling(NewEntry(call), [PreviewPatch(request, call.id, patch)], true, multiset{PatchCallsPreviewed})
      case Err(e) => Refused(call, e, multiset{})
    else if call.name == "command" then
      match k.parseCommand(call.args)
      case Ok(command) =>
        var preview := CommandPreview(command.argv, workspace);
        Ruling(NewEntry(call).(approval := Pending, commandPreview := Some(preview)), [], true,
               multiset{CommandCallsDispatched})
      case Err(e) => Refused(call, e, multiset{})
    else
      match k.parseReadOnly(call.name, call.args)
      case Ok(tool) => Ruling(NewEntry(call), [ExecuteTool(request, call.id, tool)], true, multiset{ToolCallsExecuted})
      case Err(e) => Refused(call, e, multiset{})
  }

  function DispatchOne(k: Codec, workspace: string, request: nat, tooLarge: set<string>, call: ToolCall,
                       b: Batch): Batch {
    var v := Rule(k, workspace, request, call.id in tooLarge, b.used, call);
    Batch(b.entries + [v.entry], b.actions + v.actions, b.used + (if v.accepted then 1 else 0), b.metrics + v.counted)
  }

  function Dispatch(k: Codec, workspace: string, request: nat, tooLarge: set<string>, calls: seq<ToolCall>,
                    b: Batch): Batch
    decreases |calls|
  {
    if calls == [] then b
    else Dispatch(k, workspace, request, tooLarge, calls[1..],
                  DispatchOne(k, workspace, request, tooLarge, calls[0], b))
  }

  /** The batch of a whole finished turn. */
  function BatchOf(k: Codec, c: Core, calls: seq<ToolCall>): Batch
    requires c.pending.Some?
  {
    Dispatch(k, c.workspace, c.pending.value.id, TooLarge(c.pending.value.slots), calls,
             Batch([], [], c.callsThisTurn, c.metrics))
  }

  /** The calls of the request in flight, as its assistant message will carry them. */
  function FinalCalls(slots: map<nat, Slot>): seq<ToolCall> {
    CallsOf(slots, Ascending(slots.Keys))
  }

  function OnFinish(k: Codec, c: Core, request: nat, reason: Option<string>): (Core, seq<Action>) {
    if !Streams(c, request) then Drop(c, FinishesDroppedAsStale)
    else
      var p := c.pending.value;
      var c0 := Counted(c, FinishesCommitted);
      if reason != Some("tool_calls") || p.slots == map[] then
        (Ended(c0.(conversation := c.conversation + [Assistant(p.response.content, [])])), [Redraw])
      else
        var calls := FinalCalls(p.slots);
        var b := BatchOf(k, c0, calls);
        var c1 := c0.(conversation := c.conversation + [Assistant(p.response.content, calls)],
                      callsThisTurn := b.used, metrics := b.metrics);
        if AllResolved(b.entries) then
          var (c2, actions) := Advance(k, c1, b.entries);
          (c2, b.actions + actions)
        else
          var f := Flight(p.id, ToolRunning, Response("", reason), map[], b.entries);
          (Refreshed(c1.(pending := Some(f)), b.entries), b.actions + [Redraw])
  }

  // ---- the tool phase ----

  function OnToolResult(k: Codec, c: Core, request: nat, callId: string, outcome: ToolOutcome): (Core, seq<Action>) {
    if !RunsTools(c, request) then Drop(c, ToolResultsDroppedAsStale)
    else
      var rs := c.pending.value.results;
      var i := Find(Unresolved, callId, rs);
      if i == |rs| then Drop(c, ToolResultsDroppedAsStale)
      else MaybeAdvance(k, Refreshed(Counted(c, ToolResultsCommitted), rs[i := rs[i].(outcome := Some(outcome))]))
  }

  function OnPatchPreviewReady(c: Core, request: nat, callId: string, previewContent: seq<PreviewContent>,
                                     preview: PatchPreview): (Core, seq<Action>) {
    if !RunsTools(c, request) then Drop(c, PatchPreviewsDroppedAsStale)
    else
      var rs := c.pending.value.results;
      var i := Find(Previewable, callId, rs);
      if i == |rs| then Drop(c, PatchPreviewsDroppedAsStale)
      else
        var r := rs[i].(patchPreview := Some(preview), previewContent := previewContent, approval := Pending);
        (Refreshed(Counted(c, PatchPreviewsCommitted), rs[i := r]), [Redraw])
  }

  /** What approving a call leads to: an action, or an error when its arguments do not parse. */
  function Approving(k: Codec, request: nat, r: Entry): Result<Action, ToolExecutionError> {
    if r.name == "patch" then
      match k.parsePatch(r.args)
      case Ok(patch) => Ok(ApplyPatch(request, r.callId, patch, r.previewContent))
      case Err(e) => Err(e)
    else if r.name == "command" then
      match k.parseCommand(r.args)
      case Ok(command) => Ok(ExecuteCommand(request, r.callId, command))
      case Err(e) => Err(e)
    else Err(ArgumentsParseFailed("no approval flow for tool " + r.name))
  }

  /** Index of the entry a decision lands on, if any. Streaming flights have no entries, so no phase test. */
  function Decided(c: Core, callId: string): Option<nat> {
    if c.pending.None? then None
    else
      var rs := c.pending.value.results;
      var i := Find(Undecided, callId, rs);
      if i == |rs| then None else Some(i)
  }

  /** `Refreshed` on any flight: a streaming one keeps its phase and status. */
  function Recomputed(c: Core, rs: seq<Entry>): Core
    requires c.pending.Some?
  {
    if c.pending.value.phase == Streaming then c.(pending := Some(c.pending.value.(results := rs)))
    else Refreshed(c, rs)
  }

  function OnApprove(k: Codec, c: Core, callId: string): (Core, seq<Action>) {
    var d := Decided(c, callId);
    if d.None? then Drop(c, ToolCallApprovalsDroppedAsStale)
    else
      var rs := c.pending.value.results;
      var r := rs[d.value].(approval := Approved);
      var c1 := Counted(c, ToolCallApprovalsCommitted);
      match Approving(k, c.pending.value.id, r)
      case Ok(action) =>
        var c2 := if action.ExecuteCommand? then Counted(c1, CommandExecutionsStarted) else c1;
        (Recomputed(c2, rs[d.value := r]), [action, Redraw])
      case Err(e) => MaybeAdvance(k, Recomputed(c1, rs[d.value := r.(outcome := Some(Err(e)))]))
  }

  function RejectionOf(name: string): ToolOutcome {
    Err(if name == "command" then CommandFailed(CommandRejected) else PatchFailed(PatchRejected))
  }

  function OnReject(k: Codec, c: Core, callId: string): (Core, seq<Action>) {
    var d := Decided(c, callId);
    if d.None? then Drop(c, ToolCallRejectionsDroppedAsStale)
    else
      var rs := c.pending.value.results;
      var r := rs[d.value].(approval := Rejected, outcome := Some(RejectionOf(rs[d.value].name)));
      MaybeAdvance(k, Recomputed(Counted(c, ToolCallRejectionsCommitted), rs[d.value := r]))
  }

  function Extended(k: Codec, tail: Option<OutputTail>, stream: Stream, bytes: Bytes): OutputTail {
    var t := if tail.Some? then tail.value else OutputTail("", "", 0, 0);
    match stream
    case Stdout =>
      t.(stdout := Bounded(t.stdout + k.lossy(bytes), COMMAND_TAIL_CHARS), stdoutBytes := t.stdoutBytes + |bytes|)
    case Stderr =>
      t.(stderr := Bounded(t.stderr + k.lossy(bytes), COMMAND_TAIL_CHARS), stderrBytes := t.stderrBytes + |bytes|)
  }

  function OnCommandOutputChunk(k: Codec, c: Core, request: nat, callId: string, stream: Stream,
                                bytes: Bytes): (Core, seq<Action>) {
    if !RunsTools(c, request) then Drop(c, CommandOutputChunksDroppedAsStale)
    else
      var p := c.pending.value;
      var i := Find(RunningCommand, callId, p.results);
      if i == |p.results| then Drop(c, CommandOutputChunksDroppedAsStale)
      else
        var r := p.results[i].(tail := Some(Extended(k, p.results[i].tail, stream, bytes)));
        (Counted(c, CommandOutputChunksAppended).(pending := Some(p.(results := p.results[i := r]))), [Redraw])
  }

  // ---- failures ----

  function OnTransportError(c: Core, request: nat, message: string): (Core, seq<Action>) {
    if !Streams(c, request) then Drop(c, TransportErrorsDroppedAsStale)
    else (Ended(Counted(c, TransportErrorsRecorded)), [ReportError(message), Redraw])
  }

  function OnTimeout(c: Core, request: nat): (Core, seq<Action>) {
    if !Streams(c, request) then Drop(c, TimeoutsDroppedAsStale)
    else (Ended(Counted(c, TimeoutsApplied)), [CancelRequest(request), ReportError("request timed out"), Redraw])
  }

  // ---- runs ----

  function Step(k: Codec, c: Core, e: Event): (Core, seq<Action>) {
    match e
    case UserMessage(text) => OnUserMessage(c, text)
    case Cancel => OnCancel(c)
    case ContentDelta(request, text) => OnContentDelta(c, request, text)
    case ToolCallDelta(request, index, id, name, fragment) => OnToolCallDelta(c, request, index, id, name, fragment)
    case Finish(request, reason) => OnFinish(k, c, request, reason)
    case ToolResult(request, callId, outcome) => OnToolResult(k, c, request, callId, outcome)
    case PatchPreviewReady(request, callId, content, preview) =>
      OnPatchPreviewReady(c, request, callId, content, preview)
    case ApproveToolCall(callId) => OnApprove(k, c, callId)
    case RejectToolCall(callId) => OnReject(k, c, callId)
    case CommandOutputChunk(request, callId, stream, bytes) =>
      OnCommandOutputChunk(k, c, request, callId, stream, bytes)
    case TransportError(request, message) => OnTransportError(c, request, message)
    case Timeout(request) => OnTimeout(c, request)
  }

  /** The state after a run, and everything it emitted. */
  function Run(k: Codec, c: Core, es: seq<Event>): (Core, seq<Action>)
    decreases |es|
  {
    if es == [] then (c, [])
    else
      var (c1, first) := Step(k, c, es[0]);
      var (c2, rest) := Run(k, c1, es[1..]);
      (c2, first + rest)
  }
}
