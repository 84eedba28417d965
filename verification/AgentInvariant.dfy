/** What holds in every reachable state of AgentCore: phase, status, approvals and the turn's call
    budget agree. */
module AgentInvariant {
  import opened Options
  import opened Transcript
  import opened Invocations
  import opened Agent

  predicate Valid(c: Core) {
    && c.callsThisTurn <= TURN_TOOL_CALL_LIMIT
    && (c.pending.None? ==> c.status == Idle && c.callsThisTurn == 0)
    && (c.pending.Some? ==> c.pending.value.id + 1 == c.nextId && FlightValid(c.pending.value, c.status))
  }

  predicate FlightValid(p: Flight, status: Status) {
    if p.phase == Streaming then p.results == [] && (status == AwaitingModel || status == StreamingReply)
    else
      && p.slots == map[]
      && !AllResolved(p.results)
      && (p.phase == AwaitingApproval <==> ApprovalOpen(p.results))
      && status == (if p.phase == AwaitingApproval then NeedsApproval else RunningTools)
  }

  // ---- the batch of a finished turn ----

  /** How an entry starts out: refused, left to a tool, or, for a command, waiting for the human. */
  predicate Started(call: ToolCall, r: Entry) {
    && r.callId == call.id && r.name == call.name && r.args == call.args
    && r.previewContent == [] && r.patchPreview.None? && r.tail.None?
    && (r.outcome.Some? ==> r.approval == NotRequired && r.outcome.value.Err?)
    && (r.approval == Pending <==> r.outcome.None? && call.name == "command")
    && r.approval in {NotRequired, Pending}
  }

  lemma RuleStarts(k: Codec, ws: string, request: nat, tooLarge: bool, used: nat, call: ToolCall)
    ensures Started(call, Rule(k, ws, request, tooLarge, used, call).entry)
    ensures Rule(k, ws, request, tooLarge, used, call).accepted ==> used < TURN_TOOL_CALL_LIMIT
  {
  }

  lemma {:induction false} DispatchShape(k: Codec, ws: string, request: nat, tooLarge: set<string>,
                                         calls: seq<ToolCall>, b: Batch)
    ensures var b' := Dispatch(k, ws, request, tooLarge, calls, b);
      && |b'.entries| == |b.entries| + |calls|
      && b'.entries[..|b.entries|] == b.entries
      && forall j :: 0 <= j < |calls| ==> Started(calls[j], b'.entries[|b.entries| + j])
    decreases |calls|
  {
    hide Started, Rule;
    if calls != [] {
      var b1 := DispatchOne(k, ws, request, tooLarge, calls[0], b);
      RuleStarts(k, ws, request, calls[0].id in tooLarge, b.used, calls[0]);
      DispatchShape(k, ws, request, tooLarge, calls[1..], b1);
      var b' := Dispatch(k, ws, request, tooLarge, calls, b);
      assert b'.entries[..|b.entries|] == b'.entries[..|b1.entries|][..|b.entries|];
      assert b'.entries[|b.entries|] == b'.entries[..|b1.entries|][|b.entries|];
      forall j | 0 <= j < |calls| ensures Started(calls[j], b'.entries[|b.entries| + j]) {
        if j > 0 { assert calls[1..][j - 1] == calls[j]; }
      }
    }
  }

  lemma {:induction false} DispatchUse(k: Codec, ws: string, request: nat, tooLarge: set<string>,
                                       calls: seq<ToolCall>, b: Batch)
    requires b.used <= TURN_TOOL_CALL_LIMIT
    ensures b.used <= Dispatch(k, ws, request, tooLarge, calls, b).used <= TURN_TOOL_CALL_LIMIT
    decreases |calls|
  {
    hide Rule;
    if calls != [] {
      RuleStarts(k, ws, request, calls[0].id in tooLarge, b.used, calls[0]);
      DispatchUse(k, ws, request, tooLarge, calls[1..], DispatchOne(k, ws, request, tooLarge, calls[0], b));
    }
  }

  // ---- every step keeps the invariant ----

  lemma RefreshedValid(k: Codec, c: Core, rs: seq<Entry>)
    requires c.pending.Some? && c.pending.value.phase != Streaming && c.pending.value.slots == map[]
    requires c.callsThisTurn <= TURN_TOOL_CALL_LIMIT && c.pending.value.id + 1 == c.nextId
    ensures !AllResolved(rs) ==> Valid(Refreshed(c, rs))
    ensures Valid(MaybeAdvance(k, Refreshed(c, rs)).0)
  {
  }

  lemma FinishKeeps(k: Codec, c: Core, request: nat, reason: Option<string>)
    requires Valid(c)
    ensures Valid(OnFinish(k, c, request, reason).0)
  {
    if Streams(c, request) && reason == Some("tool_calls") && c.pending.value.slots != map[] {
      var p := c.pending.value;
      var c0 := Counted(c, FinishesCommitted);
      var calls := FinalCalls(p.slots);
      var b := BatchOf(k, c0, calls);
      DispatchUse(k, c.workspace, p.id, TooLarge(p.slots), calls, Batch([], [], c.callsThisTurn, c0.metrics));
      var c1 := c0.(conversation := c.conversation + [Assistant(p.response.content, calls)],
                    callsThisTurn := b.used, metrics := b.metrics);
      if !AllResolved(b.entries) {
        RefreshedValid(k, c1.(pending := Some(Flight(p.id, ToolRunning, Response("", reason), map[], b.entries))),
                       b.entries);
      }
    }
  }

  lemma ToolResultKeeps(k: Codec, c: Core, request: nat, callId: string, outcome: ToolOutcome)
    requires Valid(c)
    ensures Valid(OnToolResult(k, c, request, callId, outcome).0)
  {
    if RunsTools(c, request) {
      var rs := c.pending.value.results;
      var i := Find(Unresolved, callId, rs);
      if i < |rs| {
        RefreshedValid(k, Counted(c, ToolResultsCommitted), rs[i := rs[i].(outcome := Some(outcome))]);
      }
    }
  }

  lemma PreviewKeeps(k: Codec, c: Core, request: nat, callId: string, content: seq<PreviewContent>,
                     preview: PatchPreview)
    requires Valid(c)
    ensures Valid(OnPatchPreviewReady(c, request, callId, content, preview).0)
  {
    if RunsTools(c, request) {
      var rs := c.pending.value.results;
      var i := Find(Previewable, callId, rs);
      if i < |rs| {
        var rs1 := rs[i := rs[i].(patchPreview := Some(preview), previewContent := content, approval := Pending)];
        assert rs1[i].outcome.None?;
        RefreshedValid(k, Counted(c, PatchPreviewsCommitted), rs1);
      }
    }
  }

  lemma DecisionKeeps(k: Codec, c: Core, callId: string)
    requires Valid(c)
    ensures Valid(OnApprove(k, c, callId).0)
    ensures Valid(OnReject(k, c, callId).0)
  {
    var d := Decided(c, callId);
    if d.Some? {
      var rs := c.pending.value.results;
      var r := rs[d.value];
      RefreshedValid(k, Counted(c, ToolCallRejectionsCommitted),
                     rs[d.value := r.(approval := Rejected, outcome := Some(RejectionOf(r.name)))]);
      ApproveKeeps(k, c, d.value);
    }
  }

  lemma ApproveKeeps(k: Codec, c: Core, i: nat)
    requires Valid(c) && c.pending.Some? && i < |c.pending.value.results|
    requires Decided(c, c.pending.value.results[i].callId) == Some(i)
    ensures Valid(OnApprove(k, c, c.pending.value.results[i].callId).0)
  {
    var rs := c.pending.value.results;
    var r := rs[i].(approval := Approved);
    var c1 := Counted(c, ToolCallApprovalsCommitted);
    var a := Approving(k, c.pending.value.id, r);
    if a.Err? {
      RefreshedValid(k, c1, rs[i := r.(outcome := Some(Err(a.error)))]);
    } else {
      var c2 := if a.value.ExecuteCommand? then Counted(c1, CommandExecutionsStarted) else c1;
      assert !AllResolved(rs[i := r]) by {
        var j :| 0 <= j < |rs| && rs[j].outcome.None?;
        assert rs[i := r][j].outcome.None?;
      }
      RefreshedValid(k, c2, rs[i := r]);
    }
  }

  lemma ChunkKeeps(k: Codec, c: Core, request: nat, callId: string, stream: Stream, bytes: Bytes)
    requires Valid(c)
    ensures Valid(OnCommandOutputChunk(k, c, request, callId, stream, bytes).0)
  {
    if RunsTools(c, request) {
      var rs := c.pending.value.results;
      var i := Find(RunningCommand, callId, rs);
      if i < |rs| {
        var rs1 := rs[i := rs[i].(tail := Some(Extended(k, rs[i].tail, stream, bytes)))];
        assert rs1[i].outcome.None?;
        SameDecisions(rs, rs1);
      }
    }
  }

  lemma SameDecisions(a: seq<Entry>, b: seq<Entry>)
    requires |a| == |b|
    requires forall j :: 0 <= j < |a| ==> a[j].outcome == b[j].outcome && a[j].approval == b[j].approval
    ensures AllResolved(a) == AllResolved(b) && ApprovalOpen(a) == ApprovalOpen(b)
  {
    if ApprovalOpen(a) {
      var j :| 0 <= j < |a| && OpenEntry(a[j]);
      assert OpenEntry(b[j]);
    }
    if ApprovalOpen(b) {
      var j :| 0 <= j < |b| && OpenEntry(b[j]);
      assert OpenEntry(a[j]);
    }
  }

  lemma StepKeeps(k: Codec, c: Core, e: Event)
    requires Valid(c)
    ensures Valid(Step(k, c, e).0)
  {
    match e
    case Finish(request, reason) => FinishKeeps(k, c, request, reason);
    case ToolResult(request, callId, outcome) => ToolResultKeeps(k, c, request, callId, outcome);
    case PatchPreviewReady(request, callId, content, preview) => PreviewKeeps(k, c, request, callId, content, preview);
    case ApproveToolCall(callId) => DecisionKeeps(k, c, callId);
    case RejectToolCall(callId) => DecisionKeeps(k, c, callId);
    case CommandOutputChunk(request, callId, stream, bytes) => ChunkKeeps(k, c, request, callId, stream, bytes);
    case _ =>
  }

  lemma {:induction false} RunKeeps(k: Codec, c: Core, es: seq<Event>)
    requires Valid(c)
    ensures Valid(Run(k, c, es).0)
    decreases |es|
  {
    if es != [] {
      StepKeeps(k, c, es[0]);
      RunKeeps(k, Step(k, c, es[0]).0, es[1..]);
    }
  }

  /** In every reachable state: idle iff nothing is in flight; `NeedsApproval` iff some call waits for a
      decision and has no outcome; and a tool phase has a call without an outcome, so the loop never
      sits on a fully answered turn. */
  lemma PhaseAndStatusAgree(k: Codec, workspace: string, es: seq<Event>)
    ensures
      var c := Run(k, INITIAL.(workspace := workspace), es).0;
      && (c.status == Idle <==> c.pending.None?)
      && (c.status == NeedsApproval <==> c.pending.Some? && ApprovalOpen(c.pending.value.results))
      && (c.status in {RunningTools, NeedsApproval} <==> c.pending.Some? && c.pending.value.phase != Streaming)
      && (c.pending.Some? && c.pending.value.phase != Streaming ==> !AllResolved(c.pending.value.results))
      && (c.pending.Some? && c.pending.value.phase == Streaming ==> c.pending.value.results == [])
      && c.callsThisTurn <= TURN_TOOL_CALL_LIMIT
  {
    RunKeeps(k, INITIAL.(workspace := workspace), es);
  }

  // ---- runs compose ----

  lemma {:induction false} RunSplit(k: Codec, c: Core, a: seq<Event>, b: seq<Event>)
    ensures Run(k, c, a + b).0 == Run(k, Run(k, c, a).0, b).0
    ensures Run(k, c, a + b).1 == Run(k, c, a).1 + Run(k, Run(k, c, a).0, b).1
    decreases |a|
  {
    if a == [] {
      assert a + b == b;
    } else {
      assert (a + b)[0] == a[0] && (a + b)[1..] == a[1..] + b;
      var (c1, first) := Step(k, c, a[0]);
      RunSplit(k, c1, a[1..], b);
      ConcatAssoc(first, Run(k, c1, a[1..]).1, Run(k, Run(k, c, a).0, b).1);
    }
  }

  lemma RunSnoc(k: Codec, c: Core, es: seq<Event>, e: Event)
    ensures Run(k, c, es + [e]).0 == Step(k, Run(k, c, es).0, e).0
  {
    hide Step;
    RunSplit(k, c, es, [e]);
    assert [e][1..] == [];
    assert Run(k, Run(k, c, es).0, [e]).0 == Step(k, Run(k, c, es).0, e).0;
  }
}
