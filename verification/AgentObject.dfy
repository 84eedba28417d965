/** AgentCore as an object: the handlers update its fields in place, and each is proved to do what its
    function in Agent says. */
module AgentObject {
  import opened Options
  import opened Transcript
  import opened Invocations
  import opened Agent

  /** `Iterator::find` over the entries. */
  method FindEntry(want: Want, id: string, rs: seq<Entry>) returns (i: nat)
    ensures i == Find(want, id, rs)
  {
    i := 0;
    while i < |rs| && !Matches(want, id, rs[i])
      invariant i <= |rs|
      invariant Find(want, id, rs) == i + Find(want, id, rs[i..])
    {
      assert rs[i..][0] == rs[i] && rs[i..][1..] == rs[i + 1..];
      i := i + 1;
    }
    if i < |rs| { assert rs[i..][0] == rs[i]; }
  }

  method AnyApprovalOpen(rs: seq<Entry>) returns (b: bool)
    ensures b == ApprovalOpen(rs)
  {
    for i := 0 to |rs|
      invariant forall j :: 0 <= j < i ==> !OpenEntry(rs[j])
    {
      if OpenEntry(rs[i]) { return true; }
    }
    return false;
  }

  method EveryResolved(rs: seq<Entry>) returns (b: bool)
    ensures b == AllResolved(rs)
  {
    for i := 0 to |rs|
      invariant forall j :: 0 <= j < i ==> rs[j].outcome.Some?
    {
      if rs[i].outcome.None? { return false; }
    }
    return true;
  }

  /** `finalize_tool_call_slots`. */
  method FinalizeSlots(slots: map<nat, Slot>) returns (calls: seq<ToolCall>, tooLarge: set<string>)
    ensures calls == FinalCalls(slots) && tooLarge == TooLarge(slots)
  {
    var rest := slots.Keys;
    var order: seq<nat> := [];
    calls, tooLarge := [], {};
    while rest != {}
      invariant rest <= slots.Keys
      invariant order + Ascending(rest) == Ascending(slots.Keys)
      invariant |calls| == |order|
      invariant forall i :: 0 <= i < |order| ==> order[i] in slots && calls[i] == CallOf(order[i], slots[order[i]])
      invariant tooLarge == set i | i in slots && i !in rest && slots[i].overLimit :: CallId(i, slots[i])
      decreases |rest|
    {
      var index := Least(rest);
      assert Ascending(rest) == [index] + Ascending(rest - {index});
      assert order + Ascending(rest) == order + [index] + Ascending(rest - {index});
      var slot := slots[index];
      var before := tooLarge;
      if slot.overLimit { tooLarge := tooLarge + {CallId(index, slot)}; }
      TooLargeStep(slots, rest, index);
      calls := calls + [CallOf(index, slot)];
      order := order + [index];
      rest := rest - {index};
    }
    assert order == Ascending(slots.Keys);
  }

  /** One more slot looked at. */
  lemma TooLargeStep(slots: map<nat, Slot>, rest: set<nat>, index: nat)
    requires index in rest && rest <= slots.Keys
    ensures
      var seen := set i | i in slots && i !in rest && slots[i].overLimit :: CallId(i, slots[i]);
      var next := set i | i in slots && i !in rest - {index} && slots[i].overLimit :: CallId(i, slots[i]);
      next == if slots[index].overLimit then seen + {CallId(index, slots[index])} else seen
  {
    var seen := set i | i in slots && i !in rest && slots[i].overLimit :: CallId(i, slots[i]);
    var next := set i | i in slots && i !in rest - {index} && slots[i].overLimit :: CallId(i, slots[i]);
    forall x ensures x in next <==> x in seen || (slots[index].overLimit && x == CallId(index, slots[index])) {
      if x in next {
        var i :| i in slots && i !in rest - {index} && slots[i].overLimit && CallId(i, slots[i]) == x;
      }
      if x in seen {
        var i :| i in slots && i !in rest && slots[i].overLimit && CallId(i, slots[i]) == x;
        assert i !in rest - {index};
      }
    }
  }

  class AgentCore {
    const codec: Codec
    var conversation: seq<Msg>
    var pending: Option<Flight>
    var status: Status
    var nextId: nat
    var toolCallsThisTurn: nat
    var workspaceDisplay: string
    var metrics: multiset<Counter>

    function Value(): Core
      reads this
    {
      Core(conversation, pending, status, nextId, toolCallsThisTurn, workspaceDisplay, metrics)
    }

    constructor (codec: Codec)
      ensures this.codec == codec && Value() == INITIAL
    {
      this.codec := codec;
      conversation, pending, status, nextId, toolCallsThisTurn, workspaceDisplay, metrics :=
        [], None, Idle, 0, 0, "", multiset{};
    }

    /** `set_workspace_display`: how a core gets the workspace the runs start from. */
    method SetWorkspaceDisplay(display: string)
      modifies this
      ensures Value() == old(Value()).(workspace := display)
    {
      workspaceDisplay := display;
    }

    method Count(n: Counter)
      modifies this
      ensures Value() == Counted(old(Value()), n)
    {
      metrics := metrics + multiset{n};
    }

    /** `handle_event`. */
    method HandleEvent(e: Event) returns (actions: seq<Action>)
      modifies this
      ensures (Value(), actions) == Step(codec, old(Value()), e)
    {
      match e {
        case UserMessage(text) => actions := OnUserMessage(text);
        case Cancel => actions := OnCancel();
        case ContentDelta(request, text) => actions := OnContentDelta(request, text);
        case ToolCallDelta(request, index, id, name, fragment) =>
          actions := OnToolCallDelta(request, index, id, name, fragment);
        case Finish(request, reason) => actions := OnFinish(request, reason);
        case ToolResult(request, callId, outcome) => actions := OnToolResult(request, callId, outcome);
        case PatchPreviewReady(request, callId, content, preview) =>
          actions := OnPatchPreviewReady(request, callId, content, preview);
        case ApproveToolCall(callId) => actions := OnApprove(callId);
        case RejectToolCall(callId) => actions := OnReject(callId);
        case CommandOutputChunk(request, callId, stream, bytes) =>
          actions := OnCommandOutputChunk(request, callId, stream, bytes);
        case TransportError(request, message) => actions := OnTransportError(request, message);
        case Timeout(request) => actions := OnTimeout(request);
      }
    }

    /** Mint an id and start a request on the conversation. */
    method StartNext() returns (actions: seq<Action>)
      modifies this
      ensures (Value(), actions) == Request(old(Value()))
    {
      var id := nextId;
      nextId := nextId + 1;
      pending := Some(FreshFlight(id));
      status := AwaitingModel;
      actions := [StartRequest(id, conversation), Redraw];
    }

    method OnUserMessage(text: string) returns (actions: seq<Action>)
      modifies this
      ensures (Value(), actions) == Agent.OnUserMessage(old(Value()), text)
    {
      if pending.Some? {
        Count(UserMessagesRejectedWhileActive);
        return [];
      }
      conversation := conversation + [User(text)];
      toolCallsThisTurn := 0;
      Count(UserMessagesAccepted);
      actions := StartNext();
    }

    /** Back to idle. */
    method EndTurn()
      modifies this
      ensures Value() == Ended(old(Value()))
    {
      pending, status, toolCallsThisTurn := None, Idle, 0;
    }

    method OnCancel() returns (actions: seq<Action>)
      modifies this
      ensures (Value(), actions) == Agent.OnCancel(old(Value()))
    {
      if pending.None? {
        Count(CancelsIgnoredWhenIdle);
        return [];
      }
      var p := pending.value;
      EndTurn();
      Count(CancelsApplied);
      return [if p.phase == Streaming then CancelRequest(p.id) else CancelToolExecution(p.id), Redraw];
    }

    method OnContentDelta(request: nat, text: string) returns (actions: seq<Action>)
      modifies this
      ensures (Value(), actions) == Agent.OnContentDelta(old(Value()), request, text)
    {
      if pending.None? || pending.value.id != request || pending.value.phase != Streaming {
        Count(ContentDeltasDroppedAsStale);
        return [];
      }
      var p := pending.value;
      pending := Some(p.(response := p.response.(content := p.response.content + text)));
      status := StreamingReply;
      Count(ContentDeltasAppended);
      return [Redraw];
    }

    method OnToolCallDelta(request: nat, index: nat, id: Option<string>, name: Option<string>, fragment: Option<string>)
      returns (actions: seq<Action>)
      modifies this
      ensures (Value(), actions) == Agent.OnToolCallDelta(old(Value()), request, index, id, name, fragment)
    {
      hide Merge, Overflows;
      if pending.None? || pending.value.id != request || pending.value.phase != Streaming {
        Count(ToolCallDeltasDroppedAsStale);
        return [];
      }
      var p := pending.value;
      var found := if index in p.slots then p.slots[index] else EMPTY_SLOT;
      var slot, dropped := MergeInto(found, id, name, fragment);
      if dropped { Count(ToolCallArgumentsFragmentsDroppedOverLimit); }
      pending := Some(p.(slots := p.slots[index := slot]));
      status := StreamingReply;
      Count(ToolCallDeltasAppended);
      return [Redraw];
    }

    /** Merge one fragment into its slot, or drop it. */
    method MergeInto(found: Slot, id: Option<string>, name: Option<string>, fragment: Option<string>)
      returns (slot: Slot, dropped: bool)
      ensures slot == Merge(found, id, name, fragment)
      ensures dropped == (fragment.Some? && Overflows(found, fragment.value))
    {
      slot, dropped := found, false;
      if slot.id.None? && id.Some? { slot := slot.(id := id); }
      if slot.name.None? && name.Some? { slot := slot.(name := name); }
      if fragment.Some? {
        if slot.overLimit {
          dropped := true;
        } else if Utf8Len(slot.args) + Utf8Len(fragment.value) > ARGUMENTS_MAX_BYTES {
          slot := slot.(overLimit := true);
          dropped := true;
        } else {
          slot := slot.(args := slot.args + fragment.value);
        }
      }
    }

    /** The call loop of `on_finish`. */
    method DispatchCalls(request: nat, calls: seq<ToolCall>, tooLarge: set<string>)
      returns (entries: seq<Entry>, actions: seq<Action>)
      modifies this
      ensures
        var b := Dispatch(codec, old(workspaceDisplay), request, tooLarge, calls,
                          Batch([], [], old(toolCallsThisTurn), old(metrics)));
        && entries == b.entries && actions == b.actions
        && Value() == old(Value()).(callsThisTurn := b.used, metrics := b.metrics)
    {
      hide Rule;
      entries, actions := [], [];
      ghost var start := Batch([], [], toolCallsThisTurn, metrics);
      for i := 0 to |calls|
        invariant Value() == old(Value()).(callsThisTurn := toolCallsThisTurn, metrics := metrics)
        invariant Dispatch(codec, workspaceDisplay, request, tooLarge, calls, start) ==
                  Dispatch(codec, workspaceDisplay, request, tooLarge, calls[i..],
                           Batch(entries, actions, toolCallsThisTurn, metrics))
      {
        ghost var b := Batch(entries, actions, toolCallsThisTurn, metrics);
        assert calls[i..][0] == calls[i] && calls[i..][1..] == calls[i + 1..];
        var v := JudgeCall(request, calls[i], tooLarge);
        entries := entries + [v.entry];
        actions := actions + v.actions;
        if v.accepted { toolCallsThisTurn := toolCallsThisTurn + 1; }
        metrics := metrics + v.counted;
        assert Batch(entries, actions, toolCallsThisTurn, metrics) ==
               DispatchOne(codec, workspaceDisplay, request, tooLarge, calls[i], b);
      }
      assert calls[|calls|..] == [];
    }

    method JudgeCall(request: nat, call: ToolCall, tooLarge: set<string>) returns (v: Ruling)
      ensures v == Rule(codec, workspaceDisplay, request, call.id in tooLarge, toolCallsThisTurn, call)
    {
      if call.id in tooLarge { return Refused(call, ArgumentsTooLarge, multiset{ToolCallsRejectedByArgumentsLimit}); }
      if toolCallsThisTurn >= TURN_TOOL_CALL_LIMIT {
        return Refused(call, TurnToolCallLimitExceeded, multiset{ToolCallsRejectedByTurnLimit});
      }
      if call.name == "patch" {
        var parsed := codec.parsePatch(call.args);
        if parsed.Err? { return Refused(call, parsed.error, multiset{}); }
        return Ruling(NewEntry(call), [PreviewPatch(request, call.id, parsed.value)], true,
                      multiset{PatchCallsPreviewed});
      }
      if call.name == "command" {
        var parsed := codec.parseCommand(call.args);
        if parsed.Err? { return Refused(call, parsed.error, multiset{}); }
        var preview := CommandPreview(parsed.value.argv, workspaceDisplay);
        return Ruling(NewEntry(call).(approval := Pending, commandPreview := Some(preview)), [], true,
                      multiset{CommandCallsDispatched});
      }
      var parsed := codec.parseReadOnly(call.name, call.args);
      if parsed.Err? { return Refused(call, parsed.error, multiset{}); }
      return Ruling(NewEntry(call), [ExecuteTool(request, call.id, parsed.value)], true, multiset{ToolCallsExecuted});
    }

    method OnFinish(request: nat, reason: Option<string>) returns (actions: seq<Action>)
      modifies this
      ensures (Value(), actions) == Agent.OnFinish(codec, old(Value()), request, reason)
    {
      if pending.None? || pending.value.id != request || pending.value.phase != Streaming {
        Count(FinishesDroppedAsStale);
        return [];
      }
      var p := pending.value;
      Count(FinishesCommitted);
      if reason != Some("tool_calls") || p.slots == map[] {
        conversation := conversation + [Assistant(p.response.content, [])];
        EndTurn();
        return [Redraw];
      }
      var calls, tooLarge := FinalizeSlots(p.slots);
      conversation := conversation + [Assistant(p.response.content, calls)];
      var entries, dispatched := DispatchCalls(p.id, calls, tooLarge);
      var done := EveryResolved(entries);
      if done {
        var next := AdvanceToNextRequest(entries);
        return dispatched + next;
      }
      pending := Some(Flight(p.id, ToolRunning, Response("", reason), map[], entries));
      status := RunningTools;
      RecomputePhaseAndStatus();
      return dispatched + [Redraw];
    }

    /** `recompute_phase_and_status`. */
    method RecomputePhaseAndStatus()
      requires pending.Some?
      modifies this
      ensures Value() == Recomputed(old(Value()), old(pending.value.results))
    {
      var p := pending.value;
      var open := AnyApprovalOpen(p.results);
      if p.phase == Streaming { return; }
      if open {
        pending := Some(p.(phase := AwaitingApproval));
        status := NeedsApproval;
      } else {
        pending := Some(p.(phase := ToolRunning));
        status := RunningTools;
      }
    }

    /** `advance_to_next_request`. */
    method AdvanceToNextRequest(results: seq<Entry>) returns (actions: seq<Action>)
      requires AllResolved(results)
      modifies this
      ensures (Value(), actions) == Advance(codec, old(Value()), results)
    {
      ghost var before := conversation;
      for i := 0 to |results|
        invariant Value() == old(Value()).(conversation := conversation)
        invariant conversation == before + ToolMessages(codec, results)[..i]
      {
        var outcome := results[i].outcome.value;
        var content := if outcome.Ok? then outcome.value else codec.errorJson(outcome.error);
        assert ToolMessages(codec, results)[..i + 1] == ToolMessages(codec, results)[..i] +
          [Tool(results[i].callId, content)];
        conversation := conversation + [Tool(results[i].callId, content)];
      }
      assert ToolMessages(codec, results)[..|results|] == ToolMessages(codec, results);
      actions := StartNext();
    }

    /** `maybe_advance_to_next_request`. */
    method MaybeAdvanceToNextRequest() returns (actions: seq<Action>)
      requires pending.Some?
      modifies this
      ensures (Value(), actions) == MaybeAdvance(codec, old(Value()))
    {
      var done := EveryResolved(pending.value.results);
      if !done { return [Redraw]; }
      var results := pending.value.results;
      pending := None;
      actions := AdvanceToNextRequest(results);
    }

    /** Write an entry back and bring phase and status in line. */
    method Put(i: nat, r: Entry)
      requires pending.Some? && i < |pending.value.results|
      modifies this
      ensures Value() == Recomputed(old(Value()), old(pending.value.results)[i := r])
    {
      pending := Some(pending.value.(results := pending.value.results[i := r]));
      RecomputePhaseAndStatus();
    }

    method OnToolResult(request: nat, callId: string, outcome: ToolOutcome) returns (actions: seq<Action>)
      modifies this
      ensures (Value(), actions) == Agent.OnToolResult(codec, old(Value()), request, callId, outcome)
    {
      if pending.None? || pending.value.id != request || pending.value.phase == Streaming {
        Count(ToolResultsDroppedAsStale);
        return [];
      }
      var rs := pending.value.results;
      var i := FindEntry(Unresolved, callId, rs);
      if i == |rs| {
        Count(ToolResultsDroppedAsStale);
        return [];
      }
      Count(ToolResultsCommitted);
      Put(i, rs[i].(outcome := Some(outcome)));
      actions := MaybeAdvanceToNextRequest();
    }

    method OnPatchPreviewReady(request: nat, callId: string, previewContent: seq<PreviewContent>, preview: PatchPreview)
      returns (actions: seq<Action>)
      modifies this
      ensures (Value(), actions) == Agent.OnPatchPreviewReady(old(Value()), request, callId, previewContent, preview)
    {
      if pending.None? || pending.value.id != request || pending.value.phase == Streaming {
        Count(PatchPreviewsDroppedAsStale);
        return [];
      }
      var rs := pending.value.results;
      var i := FindEntry(Previewable, callId, rs);
      if i == |rs| {
        Count(PatchPreviewsDroppedAsStale);
        return [];
      }
      Count(PatchPreviewsCommitted);
      Put(i, rs[i].(patchPreview := Some(preview), previewContent := previewContent, approval := Pending));
      return [Redraw];
    }

    method OnApprove(callId: string) returns (actions: seq<Action>)
      modifies this
      ensures (Value(), actions) == Agent.OnApprove(codec, old(Value()), callId)
    {
      if pending.None? {
        Count(ToolCallApprovalsDroppedAsStale);
        return [];
      }
      var request, rs := pending.value.id, pending.value.results;
      var i := FindEntry(Undecided, callId, rs);
      if i == |rs| {
        Count(ToolCallApprovalsDroppedAsStale);
        return [];
      }
      var r := rs[i].(approval := Approved);
      Count(ToolCallApprovalsCommitted);
      var released := Release(request, r);
      if released.Err? {
        Put(i, r.(outcome := Some(Err(released.error))));
        actions := MaybeAdvanceToNextRequest();
        return;
      }
      if released.value.ExecuteCommand? { Count(CommandExecutionsStarted); }
      Put(i, r);
      return [released.value, Redraw];
    }

    /** Re-parse the arguments of an approved call into its action. */
    method Release(request: nat, r: Entry) returns (released: Result<Action, ToolExecutionError>)
      ensures released == Approving(codec, request, r)
    {
      if r.name == "patch" {
        var parsed := codec.parsePatch(r.args);
        if parsed.Err? { return Err(parsed.error); }
        return Ok(ApplyPatch(request, r.callId, parsed.value, r.previewContent));
      }
      if r.name == "command" {
        var parsed := codec.parseCommand(r.args);
        if parsed.Err? { return Err(parsed.error); }
        return Ok(ExecuteCommand(request, r.callId, parsed.value));
      }
      return Err(ArgumentsParseFailed("no approval flow for tool " + r.name));
    }

    method OnReject(callId: string) returns (actions: seq<Action>)
      modifies this
      ensures (Value(), actions) == Agent.OnReject(codec, old(Value()), callId)
    {
      if pending.None? {
        Count(ToolCallRejectionsDroppedAsStale);
        return [];
      }
      var rs := pending.value.results;
      var i := FindEntry(Undecided, callId, rs);
      if i == |rs| {
        Count(ToolCallRejectionsDroppedAsStale);
        return [];
      }
      var outcome := if rs[i].name == "command" then CommandFailed(CommandRejected) else PatchFailed(PatchRejected);
      Count(ToolCallRejectionsCommitted);
      Put(i, rs[i].(approval := Rejected, outcome := Some(Err(outcome))));
      actions := MaybeAdvanceToNextRequest();
    }

    method OnCommandOutputChunk(request: nat, callId: string, stream: Stream, bytes: Bytes)
        returns (actions: seq<Action>)
      modifies this
      ensures (Value(), actions) == Agent.OnCommandOutputChunk(codec, old(Value()), request, callId, stream, bytes)
    {
      if pending.None? || pending.value.id != request || pending.value.phase == Streaming {
        Count(CommandOutputChunksDroppedAsStale);
        return [];
      }
      var p := pending.value;
      var i := FindEntry(RunningCommand, callId, p.results);
      if i == |p.results| {
        Count(CommandOutputChunksDroppedAsStale);
        return [];
      }
      var r := p.results[i];
      var text := codec.lossy(bytes);
      var tail := if r.tail.Some? then r.tail.value else OutputTail("", "", 0, 0);
      if stream == Stdout {
        tail := tail.(stdout := Bounded(tail.stdout + text, COMMAND_TAIL_CHARS),
                      stdoutBytes := tail.stdoutBytes + |bytes|);
      } else {
        tail := tail.(stderr := Bounded(tail.stderr + text, COMMAND_TAIL_CHARS),
                      stderrBytes := tail.stderrBytes + |bytes|);
      }
      pending := Some(p.(results := p.results[i := r.(tail := Some(tail))]));
      Count(CommandOutputChunksAppended);
      return [Redraw];
    }

    method OnTransportError(request: nat, message: string) returns (actions: seq<Action>)
      modifies this
      ensures (Value(), actions) == Agent.OnTransportError(old(Value()), request, message)
    {
      if pending.None? || pending.value.id != request || pending.value.phase != Streaming {
        Count(TransportErrorsDroppedAsStale);
        return [];
      }
      EndTurn();
      Count(TransportErrorsRecorded);
      return [ReportError(message), Redraw];
    }

    method OnTimeout(request: nat) returns (actions: seq<Action>)
      modifies this
      ensures (Value(), actions) == Agent.OnTimeout(old(Value()), request)
    {
      if pending.None? || pending.value.id != request || pending.value.phase != Streaming {
        Count(TimeoutsDroppedAsStale);
        return [];
      }
      var id := pending.value.id;
      EndTurn();
      Count(TimeoutsApplied);
      return [CancelRequest(id), ReportError("request timed out"), Redraw];
    }
  }
}
