/** The life of a call between its commit and its answer: approvals only move forward, nothing runs
    twice or unapproved, and when a recorded outcome can change. */
module AgentApproval {
  import opened Options
  import opened Transcript
  import opened Invocations
  import opened Tallies
  import opened Agent
  import opened AgentInvariant
  import opened AgentSteps
  import opened AgentTranscript
  import opened AgentErasure

  // ---- one entry ----

  /** NotRequired to Pending to Approved or Rejected. */
  predicate Forward(a: Approval, b: Approval) {
    a == b || a == NotRequired || (a == Pending && b != NotRequired)
  }

  /** One step of that order. */
  predicate OneForward(a: Approval, b: Approval) {
    a == b || (a == NotRequired && b == Pending) || (a == Pending && (b == Approved || b == Rejected))
  }

  /** What may change of an entry: its approval, forward; its preview, until the approval moves; its
      output tail; its outcome. */
  predicate Advances(a: Entry, b: Entry) {
    && a.callId == b.callId && a.name == b.name && a.args == b.args && a.commandPreview == b.commandPreview
    && Forward(a.approval, b.approval)
    && (a.approval != NotRequired ==> a.previewContent == b.previewContent && a.patchPreview == b.patchPreview)
  }

  predicate AllAdvance(a: seq<Entry>, b: seq<Entry>) {
    |a| == |b| && forall j :: 0 <= j < |a| ==> Advances(a[j], b[j])
  }

  lemma AdvanceTrans(a: seq<Entry>, b: seq<Entry>, c: seq<Entry>)
    requires AllAdvance(a, b) && AllAdvance(b, c)
    ensures AllAdvance(a, c)
  {
    forall j | 0 <= j < |a| ensures Advances(a[j], c[j]) { assert Advances(a[j], b[j]) && Advances(b[j], c[j]); }
  }

  lemma AdvanceRefl(a: seq<Entry>)
    ensures AllAdvance(a, a)
  {
  }

  lemma EntryAdvances(k: Codec, request: nat, r: Entry, e: Event)
    requires ToolEvent(e) && Matches(WantOf(e), e.callId, r)
    ensures Advances(r, EntryAfter(k, request, r, e).0)
    ensures OneForward(r.approval, EntryAfter(k, request, r, e).0.approval)
  {
  }

  // ---- one flight, over any run ----

  /** An edit either stays in the tool phase with one entry replaced, or moves to a new request. */
  lemma EditedStays(k: Codec, c: Core, d: Edit)
    requires d.Edit? && c.pending.Some? && c.pending.value.phase != Streaming && d.at < |c.pending.value.results|
    ensures
      var c' := Edited(k, c, d).0;
      && c'.pending.Some?
      && if c'.pending.value.phase != Streaming
         then
           && c'.pending.value.id == c.pending.value.id
           && c'.pending.value.results == c.pending.value.results[d.at := d.entry]
         else c'.pending.value.id == c.nextId
  {
    hide AllResolved, ApprovalOpen;
  }

  lemma UpdateAdvances(rs: seq<Entry>, i: nat, r: Entry)
    requires i < |rs| && Advances(rs[i], r)
    ensures AllAdvance(rs, rs[i := r])
  {
  }

  /** A step that leaves the same request in flight leaves it in its tool phase, and moves each approval by at
      most one step. */
  lemma StepAdvances(k: Codec, c: Core, e: Event, request: nat)
    requires Valid(c) && RunsTools(c, request) && Active(Step(k, c, e).0, request)
    ensures RunsTools(Step(k, c, e).0, request)
    ensures AllAdvance(c.pending.value.results, Step(k, c, e).0.pending.value.results)
    ensures
      var rs, rs' := c.pending.value.results, Step(k, c, e).0.pending.value.results;
      |rs'| == |rs| && forall j :: 0 <= j < |rs| ==> OneForward(rs[j].approval, rs'[j].approval)
  {
    hide Step, EntryAfter, AllAdvance, Advances, FlightValid, Matches, Edited;
    AdvanceRefl(c.pending.value.results);
    if ToolEvent(e) {
      ToolStep(k, c, e);
      var d := EditOf(k, c, e);
      if d.Edit? {
        EntryAdvances(k, c.pending.value.id, c.pending.value.results[d.at], e);
        UpdateAdvances(c.pending.value.results, d.at, d.entry);
        EditedStays(k, c, d);
      }
    } else {
      QuietToolPhase(k, c, e, request);
    }
  }

  /** Outside tool events and cancels a tool phase stands still. */
  lemma QuietToolPhase(k: Codec, c: Core, e: Event, request: nat)
    requires Valid(c) && RunsTools(c, request) && !ToolEvent(e)
    ensures
      if e.Cancel? then
        Step(k, c, e).0.pending.None? && Step(k, c, e).1 == [CancelToolExecution(request), Redraw]
        && Step(k, c, e).0.conversation == c.conversation
      else Step(k, c, e).0 == c.(metrics := Step(k, c, e).0.metrics) && Step(k, c, e).1 == []
  {
  }

  lemma ActiveBefore(k: Codec, c: Core, e: Event, request: nat)
    requires Valid(c) && request < c.nextId && Active(Step(k, c, e).0, request)
    ensures Active(c, request)
  {
    hide Step, Valid, StartIds;
    StepIds(k, c, e);
  }

  /** While a tool turn is in flight, whatever events arrive: the same calls, approvals moving forward
      only, and previews fixed once shown. */
  lemma {:induction false} ApprovalsMoveForward(k: Codec, c: Core, es: seq<Event>, request: nat)
    requires Valid(c) && RunsTools(c, request) && Active(Run(k, c, es).0, request)
    ensures RunsTools(Run(k, c, es).0, request)
    ensures AllAdvance(c.pending.value.results, Run(k, c, es).0.pending.value.results)
    decreases |es|
  {
    hide Step, Valid, AllAdvance, Run;
    if es == [] {
      RunNothing(k, c);
      AdvanceRefl(c.pending.value.results);
    } else {
      var before, e := es[..|es| - 1], es[|es| - 1];
      assert es == before + [e];
      RunSnoc(k, c, before, e);
      RunKeeps(k, c, before);
      IdInFlight(c, request);
      IdsAreConsecutive(k, c, before);
      var c1 := Run(k, c, before).0;
      ActiveBefore(k, c1, e, request);
      ApprovalsMoveForward(k, c, before, request);
      StepAdvances(k, c1, e, request);
      AdvanceTrans(c.pending.value.results, c1.pending.value.results, Run(k, c, es).0.pending.value.results);
    }
  }

  lemma RunNothing(k: Codec, c: Core)
    ensures Run(k, c, []) == (c, [])
  {
  }

  lemma IdInFlight(c: Core, request: nat)
    requires Valid(c) && Active(c, request)
    ensures request < c.nextId
  {
  }

  // ---- at most once ----

  /** The action that lets a call of `request` touch the world. */
  predicate Releases(request: nat, id: string, a: Action) {
    (a.ApplyPatch? || a.ExecuteCommand?) && a.request == request && a.callId == id
  }

  /** The call may still be released: it waits, or may yet come to wait. */
  predicate Open(id: string, r: Entry) {
    r.callId == id && (r.approval == Pending || (r.approval == NotRequired && r.outcome.None?))
  }

  function Releasing(request: nat, id: string): Action -> bool { (a: Action) => Releases(request, id, a) }

  function Opening(id: string): Entry -> bool { (r: Entry) => Open(id, r) }

  /** How often the calls with this id may still be released. */
  function Chances(c: Core, request: nat, id: string): nat {
    if RunsTools(c, request) then Tally(Opening(id), c.pending.value.results) else 0
  }

  lemma EntryReleases(k: Codec, request: nat, r: Entry, e: Event, id: string)
    requires ToolEvent(e) && Matches(WantOf(e), e.callId, r)
    ensures
      var (r', action) := EntryAfter(k, request, r, e);
      && (Open(id, r') ==> Open(id, r))
      && (action.Some? ==> e.ApproveToolCall? && (action.value.ApplyPatch? || action.value.ExecuteCommand?))
      && (action.Some? && Releases(request, id, action.value) ==> Open(id, r) && !Open(id, r'))
      && (action.Some? && action.value.ApplyPatch? ==>
            r.name == "patch" && r.approval == Pending && action.value.previewContent == r.previewContent
            && action.value.request == request && action.value.callId == r.callId == e.callId)
  {
  }

  lemma NoRelease(request: nat, id: string, actions: seq<Action>)
    requires forall i :: 0 <= i < |actions| ==> !Releases(request, id, actions[i])
    ensures Tally(Releasing(request, id), actions) == 0
  {
    TallyZero(Releasing(request, id), actions);
  }

  lemma OneRelease(request: nat, id: string, a: Action)
    ensures Tally(Releasing(request, id), [a, Redraw]) == if Releases(request, id, a) then 1 else 0
  {
    assert [a, Redraw][1..] == [Redraw];
    NoRelease(request, id, [Redraw]);
    assert !Releases(request, id, Redraw);
  }

  lemma EditedReleases(k: Codec, c: Core, d: Edit, request: nat, id: string)
    requires d.Edit? && c.pending.Some? && c.pending.value.phase != Streaming && d.at < |c.pending.value.results|
    requires Open(id, d.entry) ==> Open(id, c.pending.value.results[d.at])
    requires d.action.Some? && Releases(request, id, d.action.value) ==>
      c.pending.value.id == request && Open(id, c.pending.value.results[d.at]) && !Open(id, d.entry)
    ensures Tally(Releasing(request, id), Edited(k, c, d).1) + Chances(Edited(k, c, d).0, request, id)
            <= Chances(c, request, id)
  {
    hide Tally, Open, AllResolved, ApprovalOpen;
    TallyUpdate(Opening(id), c.pending.value.results, d.at, d.entry);
    if d.action.Some? { OneRelease(request, id, d.action.value); }
    else { NoRelease(request, id, Edited(k, c, d).1); }
  }

  lemma ReleaseNames(k: Codec, request: nat, r: Entry, e: Event)
    requires ToolEvent(e) && Matches(WantOf(e), e.callId, r)
    ensures
      var action := EntryAfter(k, request, r, e).1;
      action.Some? ==> forall q, id :: Releases(q, id, action.value) ==> q == request && id == r.callId
  {
  }

  lemma ToolReleases(k: Codec, c: Core, e: Event, request: nat, id: string)
    requires Valid(c) && ToolEvent(e)
    ensures Tally(Releasing(request, id), Step(k, c, e).1) + Chances(Step(k, c, e).0, request, id)
            <= Chances(c, request, id)
  {
    hide Step, EntryAfter, Tally, Open, Matches, FlightValid, Edited;
    ToolStep(k, c, e);
    var d := EditOf(k, c, e);
    if d.Edit? {
      EntryReleases(k, c.pending.value.id, c.pending.value.results[d.at], e, id);
      ReleaseNames(k, c.pending.value.id, c.pending.value.results[d.at], e);
      EditedReleases(k, c, d, request, id);
    } else {
      NoRelease(request, id, []);
    }
  }

  /** The request is past its stream. */
  predicate Settled(c: Core, request: nat) { RunsTools(c, request) || Retired(c, request) }

  lemma StepReleases(k: Codec, c: Core, e: Event, request: nat, id: string)
    requires Valid(c) && Settled(c, request)
    ensures Tally(Releasing(request, id), Step(k, c, e).1) + Chances(Step(k, c, e).0, request, id)
            <= Chances(c, request, id)
    ensures Settled(Step(k, c, e).0, request)
  {
    hide Step, Valid, Tally, Chances;
    SettledStays(k, c, e, request);
    if ToolEvent(e) {
      ToolReleases(k, c, e, request, id);
    } else {
      OtherReleases(k, c, e, request, id);
    }
  }

  lemma SettledMinted(c: Core, request: nat)
    requires Valid(c) && Settled(c, request)
    ensures request < c.nextId
  {
  }

  lemma SettledStays(k: Codec, c: Core, e: Event, request: nat)
    requires Valid(c) && Settled(c, request)
    ensures Settled(Step(k, c, e).0, request)
  {
    hide Step, Valid, AllAdvance, StartIds;
    SettledMinted(c, request);
    StepIds(k, c, e);
    if Active(Step(k, c, e).0, request) {
      ActiveBefore(k, c, e, request);
      StepAdvances(k, c, e, request);
    }
  }

  lemma OtherReleases(k: Codec, c: Core, e: Event, request: nat, id: string)
    requires Valid(c) && Settled(c, request) && !ToolEvent(e)
    ensures Tally(Releasing(request, id), Step(k, c, e).1) + Chances(Step(k, c, e).0, request, id)
            <= Chances(c, request, id)
  {
    hide Step, Valid, Tally;
    NoReleases(k, c, e, request, id);
    if RunsTools(c, request) {
      QuietToolPhase(k, c, e, request);
    } else {
      SettledMinted(c, request);
      SettledStays(k, c, e, request);
      if Active(Step(k, c, e).0, request) { ActiveBefore(k, c, e, request); }
    }
  }

  lemma NoReleases(k: Codec, c: Core, e: Event, request: nat, id: string)
    requires !ToolEvent(e)
    ensures Tally(Releasing(request, id), Step(k, c, e).1) == 0
  {
    hide Step, Tally;
    if e.Finish? { FinishReleases(k, c, e, request, id); } else { PlainReleases(k, c, e, request, id); }
  }

  lemma PlainReleases(k: Codec, c: Core, e: Event, request: nat, id: string)
    requires !ToolEvent(e) && !e.Finish?
    ensures Tally(Releasing(request, id), Step(k, c, e).1) == 0
  {
    hide Tally, Merge, Overflows;
    NoRelease(request, id, Step(k, c, e).1);
  }

  lemma FinishReleases(k: Codec, c: Core, e: Event, request: nat, id: string)
    requires e.Finish?
    ensures Tally(Releasing(request, id), Step(k, c, e).1) == 0
  {
    hide Tally, AllResolved, ApprovalOpen, Dispatch, FinalCalls;
    var actions := Step(k, c, e).1;
    if Streams(c, e.request) && e.reason == Some("tool_calls") && c.pending.value.slots != map[] {
      var c0 := Counted(c, FinishesCommitted);
      var calls := FinalCalls(c.pending.value.slots);
      var b := BatchOf(k, c0, calls);
      DispatchReleasesNothing(k, c0, calls, request, id);
      var last := actions[|b.actions|..];
      assert actions == b.actions + last;
      TallyAppend(Releasing(request, id), b.actions, last);
      NoRelease(request, id, last);
    } else {
      NoRelease(request, id, actions);
    }
  }

  predicate Harmless(actions: seq<Action>) {
    forall i :: 0 <= i < |actions| ==> !actions[i].ApplyPatch? && !actions[i].ExecuteCommand?
  }

  lemma RuleHarmless(k: Codec, ws: string, request: nat, tooLarge: bool, used: nat, call: ToolCall)
    ensures Harmless(Rule(k, ws, request, tooLarge, used, call).actions)
  {
  }

  lemma {:induction false} DispatchHarmless(k: Codec, ws: string, request: nat, tooLarge: set<string>,
                                            calls: seq<ToolCall>, b: Batch)
    requires Harmless(b.actions)
    ensures Harmless(Dispatch(k, ws, request, tooLarge, calls, b).actions)
    decreases |calls|
  {
    hide Rule;
    if calls != [] {
      RuleHarmless(k, ws, request, calls[0].id in tooLarge, b.used, calls[0]);
      DispatchHarmless(k, ws, request, tooLarge, calls[1..], DispatchOne(k, ws, request, tooLarge, calls[0], b));
    }
  }

  lemma DispatchReleasesNothing(k: Codec, c: Core, calls: seq<ToolCall>, request: nat, id: string)
    requires c.pending.Some?
    ensures Harmless(BatchOf(k, c, calls).actions)
    ensures Tally(Releasing(request, id), BatchOf(k, c, calls).actions) == 0
  {
    hide Dispatch;
    DispatchHarmless(k, c.workspace, c.pending.value.id, TooLarge(c.pending.value.slots), calls,
                     Batch([], [], c.callsThisTurn, c.metrics));
    NoRelease(request, id, BatchOf(k, c, calls).actions);
  }

  // ---- only what was shown is applied ----

  predicate ShownBy(e: Event, request: nat, id: string, content: seq<PreviewContent>) {
    e.PatchPreviewReady? && e.request == request && e.callId == id && e.previewContent == content
  }

  predicate Shown(es: seq<Event>, request: nat, id: string, content: seq<PreviewContent>) {
    exists i :: 0 <= i < |es| && ShownBy(es[i], request, id, content)
  }

  lemma ShownSnoc(es: seq<Event>, e: Event, request: nat, id: string, content: seq<PreviewContent>)
    ensures Shown(es, request, id, content) || ShownBy(e, request, id, content) ==>
              Shown(es + [e], request, id, content)
  {
    var es' := es + [e];
    if Shown(es, request, id, content) {
      var i :| 0 <= i < |es| && ShownBy(es[i], request, id, content);
      assert ShownBy(es'[i], request, id, content);
    }
    if ShownBy(e, request, id, content) { assert ShownBy(es'[|es|], request, id, content); }
  }

  /** Every call that left NotRequired, commands apart, has been previewed with the snapshots it holds. */
  predicate Previewed(es: seq<Event>, request: nat, rs: seq<Entry>) {
    forall j :: 0 <= j < |rs| ==> EntryPreviewed(es, request, rs[j])
  }

  predicate EntryPreviewed(es: seq<Event>, request: nat, r: Entry) {
    r.approval != NotRequired && r.name != "command" ==> Shown(es, request, r.callId, r.previewContent)
  }

  predicate HistoryOk(c: Core, es: seq<Event>) {
    c.pending.Some? ==> Previewed(es, c.pending.value.id, c.pending.value.results)
  }

  lemma EntryShown(k: Codec, es: seq<Event>, request: nat, r: Entry, e: Event)
    requires ToolEvent(e) && Matches(WantOf(e), e.callId, r) && EntryPreviewed(es, request, r)
    requires e.PatchPreviewReady? ==> e.request == request
    ensures EntryPreviewed(es + [e], request, EntryAfter(k, request, r, e).0)
  {
    hide Shown, Extended;
    var r' := EntryAfter(k, request, r, e).0;
    ShownSnoc(es, e, request, r'.callId, r'.previewContent);
  }

  lemma PreviewedSnoc(es: seq<Event>, e: Event, request: nat, rs: seq<Entry>)
    requires Previewed(es, request, rs)
    ensures Previewed(es + [e], request, rs)
  {
    hide Shown;
    forall j | 0 <= j < |rs| ensures EntryPreviewed(es + [e], request, rs[j]) {
      assert EntryPreviewed(es, request, rs[j]);
      ShownSnoc(es, e, request, rs[j].callId, rs[j].previewContent);
    }
  }

  lemma ToolHistory(k: Codec, c: Core, es: seq<Event>, e: Event)
    requires Valid(c) && ToolEvent(e) && HistoryOk(c, es)
    ensures HistoryOk(Step(k, c, e).0, es + [e])
  {
    hide Step, EntryAfter, EntryPreviewed, Matches;
    ToolStep(k, c, e);
    if c.pending.Some? { PreviewedSnoc(es, e, c.pending.value.id, c.pending.value.results); }
    var d := EditOf(k, c, e);
    if d.Edit? {
      EditedStays(k, c, d) by { hide *; assert d.Edit?; }
      EntryShown(k, es, c.pending.value.id, c.pending.value.results[d.at], e);
      NewFlightEmpty(k, c, e);
    }
  }

  /** A flight that streams has no entries yet. */
  lemma NewFlightEmpty(k: Codec, c: Core, e: Event)
    requires Valid(c)
    ensures
      var c' := Step(k, c, e).0;
      c'.pending.Some? && c'.pending.value.phase == Streaming ==> c'.pending.value.results == []
  {
    hide Step;
    StepKeeps(k, c, e);
  }

  lemma FinishHistory(k: Codec, c: Core, es: seq<Event>, e: Event)
    requires Valid(c) && e.Finish? && HistoryOk(c, es)
    ensures HistoryOk(Step(k, c, e).0, es + [e])
  {
    hide Shown, AllResolved, ApprovalOpen, Dispatch, FinalCalls, Started, FlightValid;
    if c.pending.Some? { PreviewedSnoc(es, e, c.pending.value.id, c.pending.value.results); }
    if Streams(c, e.request) && e.reason == Some("tool_calls") && c.pending.value.slots != map[] {
      var c0 := Counted(c, FinishesCommitted);
      var calls := FinalCalls(c.pending.value.slots);
      var b := BatchOf(k, c0, calls);
      DispatchShape(k, c.workspace, c.pending.value.id, TooLarge(c.pending.value.slots), calls,
                    Batch([], [], c.callsThisTurn, c0.metrics));
      forall j | 0 <= j < |b.entries| ensures EntryPreviewed(es + [e], c.pending.value.id, b.entries[j]) {
        StartedPreviewed(es + [e], c.pending.value.id, calls[j], b.entries[j]);
      }
    }
  }

  lemma StartedPreviewed(es: seq<Event>, request: nat, call: ToolCall, r: Entry)
    requires Started(call, r)
    ensures EntryPreviewed(es, request, r)
  {
  }

  lemma StepHistory(k: Codec, c: Core, es: seq<Event>, e: Event)
    requires Valid(c) && HistoryOk(c, es)
    ensures HistoryOk(Step(k, c, e).0, es + [e])
  {
    hide Previewed, FlightValid, Merge, Overflows;
    if ToolEvent(e) { ToolHistory(k, c, es, e); }
    else if e.Finish? { FinishHistory(k, c, es, e); }
    else {
      if c.pending.Some? { PreviewedSnoc(es, e, c.pending.value.id, c.pending.value.results); }
      NothingPreviewed(es + [e], c.nextId);
    }
  }

  lemma NothingPreviewed(es: seq<Event>, request: nat)
    ensures Previewed(es, request, [])
  {
  }

  lemma {:induction false} RunHistory(k: Codec, workspace: string, es: seq<Event>)
    ensures HistoryOk(Run(k, INITIAL.(workspace := workspace), es).0, es)
    decreases |es|
  {
    hide Step, HistoryOk, Run;
    var c0 := INITIAL.(workspace := workspace);
    RunNothing(k, c0);
    if es == [] {
      assert HistoryOk(c0, []) by { NoFlightOk(c0); }
    } else {
      var before, e := es[..|es| - 1], es[|es| - 1];
      assert es == before + [e];
      RunHistory(k, workspace, before);
      RunKeeps(k, c0, before);
      RunSnoc(k, c0, before, e);
      StepHistory(k, Run(k, c0, before).0, before, e);
    }
  }

  lemma NoFlightOk(c: Core)
    requires c.pending.None?
    ensures HistoryOk(c, [])
  {
  }

  /** Over every run: a patch or command is released only by the approval of its call, and a patch is
      applied with exactly the snapshots an earlier preview of that call delivered. */
  lemma ReleasedOnlyAsShown(k: Codec, workspace: string, es: seq<Event>, e: Event, a: Action)
    requires a in Step(k, Run(k, INITIAL.(workspace := workspace), es).0, e).1
    requires a.ApplyPatch? || a.ExecuteCommand?
    ensures e == ApproveToolCall(a.callId)
    ensures a.ApplyPatch? ==> Shown(es, a.request, a.callId, a.previewContent)
  {
    hide Step, Run, Shown, Valid;
    var c := Run(k, INITIAL.(workspace := workspace), es).0;
    RunKeeps(k, INITIAL.(workspace := workspace), es);
    RunHistory(k, workspace, es);
    if ToolEvent(e) { ToolRelease(k, c, es, e, a); }
    else { ReleaseIsCounted(k, c, e, a); }
  }

  lemma {:induction false} ReleaseCounts(a: Action, actions: seq<Action>)
    requires a in actions && (a.ApplyPatch? || a.ExecuteCommand?)
    ensures Tally(Releasing(a.request, a.callId), actions) >= 1
  {
    if actions[0] != a { ReleaseCounts(a, actions[1..]); }
  }

  lemma ReleaseIsCounted(k: Codec, c: Core, e: Event, a: Action)
    requires a in Step(k, c, e).1 && (a.ApplyPatch? || a.ExecuteCommand?)
    ensures ToolEvent(e)
  {
    hide Step, Tally;
    ReleaseCounts(a, Step(k, c, e).1);
    if !ToolEvent(e) { NoReleases(k, c, e, a.request, a.callId); }
  }

  lemma ToolRelease(k: Codec, c: Core, es: seq<Event>, e: Event, a: Action)
    requires Valid(c) && ToolEvent(e) && HistoryOk(c, es)
    requires a in Step(k, c, e).1 && (a.ApplyPatch? || a.ExecuteCommand?)
    ensures e == ApproveToolCall(a.callId)
    ensures a.ApplyPatch? ==> Shown(es, a.request, a.callId, a.previewContent)
  {
    hide Step, EntryAfter, Matches, Shown, AllResolved, ApprovalOpen, FlightValid;
    ToolStep(k, c, e);
    var d := EditOf(k, c, e);
    var r := c.pending.value.results[d.at];
    EntryReleases(k, c.pending.value.id, r, e, a.callId);
    ReleaseNames(k, c.pending.value.id, r, e);
    assert Releases(a.request, a.callId, a);
    assert EntryPreviewed(es, c.pending.value.id, r);
    MatchesId(WantOf(e), e.callId, r);
  }

  lemma MatchesId(want: Want, id: string, r: Entry)
    ensures Matches(want, id, r) ==> r.callId == id
  {
  }

  // ---- outcomes ----

  /** A result that lands on a call still waiting for its decision. */
  predicate Races(k: Codec, c: Core, e: Event) {
    e.ToolResult? && EditOf(k, c, e).Edit? && c.pending.value.results[EditOf(k, c, e).at].approval == Pending
  }

  predicate RaceFree(k: Codec, c: Core, es: seq<Event>)
    decreases |es|
  {
    es == [] || (!Races(k, c, es[0]) && RaceFree(k, Step(k, c, es[0]).0, es[1..]))
  }

  /** No call waiting for its decision has an outcome. */
  predicate NoneAnswered(rs: seq<Entry>) {
    forall j :: 0 <= j < |rs| && rs[j].approval == Pending ==> rs[j].outcome.None?
  }

  predicate Unraced(c: Core) { c.pending.Some? ==> NoneAnswered(c.pending.value.results) }

  /** What is recorded stays recorded. */
  predicate WriteOnce(a: seq<Entry>, b: seq<Entry>) {
    |a| == |b| && forall j :: 0 <= j < |a| && a[j].outcome.Some? ==> b[j].outcome == a[j].outcome
  }

  lemma EntryOutcome(k: Codec, request: nat, r: Entry, e: Event)
    requires ToolEvent(e) && Matches(WantOf(e), e.callId, r)
    requires r.approval == Pending ==> r.outcome.None? && !e.ToolResult?
    ensures
      var r' := EntryAfter(k, request, r, e).0;
      && (r.outcome.Some? ==> r'.outcome == r.outcome)
      && (r'.approval == Pending ==> r'.outcome.None?)
  {
    hide Extended;
  }

  lemma StepWritesOnce(k: Codec, c: Core, e: Event, request: nat)
    requires Valid(c) && RunsTools(c, request) && Unraced(c) && !Races(k, c, e)
    requires Active(Step(k, c, e).0, request)
    ensures RunsTools(Step(k, c, e).0, request)
    ensures Unraced(Step(k, c, e).0)
    ensures WriteOnce(c.pending.value.results, Step(k, c, e).0.pending.value.results)
  {
    hide Step, EntryAfter, Matches, Edited, FlightValid;
    if ToolEvent(e) {
      ToolStep(k, c, e);
      var d := EditOf(k, c, e);
      if d.Edit? {
        EntryOutcome(k, c.pending.value.id, c.pending.value.results[d.at], e);
        EditedStays(k, c, d);
      }
    } else {
      QuietToolPhase(k, c, e, request);
    }
  }

  lemma WriteOnceTrans(a: seq<Entry>, b: seq<Entry>, c: seq<Entry>)
    requires WriteOnce(a, b) && WriteOnce(b, c)
    ensures WriteOnce(a, c)
  {
    forall j | 0 <= j < |a| && a[j].outcome.Some? ensures c[j].outcome == a[j].outcome {
      assert b[j].outcome == a[j].outcome;
    }
  }

  lemma WriteOnceRefl(a: seq<Entry>)
    ensures WriteOnce(a, a)
  {
  }

  /** Every other way to reach a tool turn starts it without answers to pending calls. */
  lemma StepUnraced(k: Codec, c: Core, e: Event)
    requires Valid(c) && Unraced(c) && !Races(k, c, e)
    ensures Unraced(Step(k, c, e).0)
  {
    hide Step, Races, FlightValid, NoneAnswered;
    NewFlightEmpty(k, c, e);
    var c' := Step(k, c, e).0;
    NoneAnsweredEmpty();
    if c'.pending.Some? && c'.pending.value.phase != Streaming {
      if c.pending.Some? && c.pending.value.phase != Streaming {
        SamePhase(k, c, e);
        StepWritesOnce(k, c, e, c.pending.value.id);
      } else if e.Finish? {
        FinishUnraced(k, c, e);
      } else {
        NoToolPhase(k, c, e);
      }
    }
  }

  lemma NoneAnsweredEmpty()
    ensures NoneAnswered([])
  {
  }

  lemma SamePhase(k: Codec, c: Core, e: Event)
    requires Valid(c) && c.pending.Some? && c.pending.value.phase != Streaming
    requires Step(k, c, e).0.pending.Some? && Step(k, c, e).0.pending.value.phase != Streaming
    ensures Active(Step(k, c, e).0, c.pending.value.id)
  {
    hide Step, EntryAfter, Edited, FlightValid;
    if ToolEvent(e) {
      ToolStep(k, c, e);
      var d := EditOf(k, c, e);
      if d.Edit? { EditedStays(k, c, d); }
    } else {
      QuietToolPhase(k, c, e, c.pending.value.id);
    }
  }

  lemma NoToolPhase(k: Codec, c: Core, e: Event)
    requires Valid(c) && !e.Finish? && (c.pending.None? || c.pending.value.phase == Streaming)
    ensures Step(k, c, e).0.pending.Some? ==> Step(k, c, e).0.pending.value.phase == Streaming
  {
    hide Merge, Overflows;
    if ToolEvent(e) { ToolStep(k, c, e); }
  }

  lemma FinishUnraced(k: Codec, c: Core, e: Event)
    requires Valid(c) && e.Finish? && Unraced(c)
    ensures Unraced(Step(k, c, e).0)
  {
    hide AllResolved, ApprovalOpen, Dispatch, FinalCalls, Started, FlightValid;
    if Streams(c, e.request) && e.reason == Some("tool_calls") && c.pending.value.slots != map[] {
      var c0 := Counted(c, FinishesCommitted);
      var calls := FinalCalls(c.pending.value.slots);
      var b := BatchOf(k, c0, calls);
      DispatchShape(k, c.workspace, c.pending.value.id, TooLarge(c.pending.value.slots), calls,
                    Batch([], [], c.callsThisTurn, c0.metrics));
      forall j | 0 <= j < |b.entries| && b.entries[j].approval == Pending ensures b.entries[j].outcome.None? {
        StartedUnanswered(calls[j], b.entries[j]);
      }
    }
  }

  lemma StartedUnanswered(call: ToolCall, r: Entry)
    requires Started(call, r)
    ensures r.approval == Pending ==> r.outcome.None?
  {
  }

  lemma {:induction false} RunWritesOnce(k: Codec, c: Core, es: seq<Event>, request: nat)
    requires Valid(c) && RunsTools(c, request) && Unraced(c) && RaceFree(k, c, es) && Active(Run(k, c, es).0, request)
    ensures WriteOnce(c.pending.value.results, Run(k, c, es).0.pending.value.results)
    decreases |es|
  {
    hide Step, Valid, Unraced, WriteOnce, Races;
    if es == [] {
      WriteOnceRefl(c.pending.value.results);
    } else {
      var c1 := Step(k, c, es[0]).0;
      StepKeeps(k, c, es[0]);
      IdInFlight(c, request);
      StepIdsGrow(k, c, es[0]);
      ActiveBeforeRun(k, c1, es[1..], request);
      StepWritesOnce(k, c, es[0], request);
      RunWritesOnce(k, c1, es[1..], request);
      WriteOnceTrans(c.pending.value.results, c1.pending.value.results, Run(k, c, es).0.pending.value.results);
    }
  }

  lemma StepIdsGrow(k: Codec, c: Core, e: Event)
    requires Valid(c)
    ensures c.nextId <= Step(k, c, e).0.nextId
  {
    hide Step, Valid, StartIds;
    StepIds(k, c, e);
  }

  lemma {:induction false} ActiveBeforeRun(k: Codec, c: Core, es: seq<Event>, request: nat)
    requires Valid(c) && request < c.nextId && Active(Run(k, c, es).0, request)
    ensures Active(c, request)
    decreases |es|
  {
    hide Step, Valid, Active;
    if es != [] {
      StepKeeps(k, c, es[0]);
      StepIdsGrow(k, c, es[0]);
      ActiveBeforeRun(k, Step(k, c, es[0]).0, es[1..], request);
      ActiveBefore(k, c, es[0], request);
    }
  }

  lemma {:induction false} RunUnraced(k: Codec, c: Core, es: seq<Event>)
    requires Valid(c) && Unraced(c) && RaceFree(k, c, es)
    ensures Unraced(Run(k, c, es).0)
    decreases |es|
  {
    hide Step, Valid, Unraced, Races;
    if es != [] {
      StepKeeps(k, c, es[0]);
      StepUnraced(k, c, es[0]);
      RunUnraced(k, Step(k, c, es[0]).0, es[1..]);
    }
  }

  /** If no result ever lands on a call still waiting for its decision, a recorded outcome never changes
      while its turn is in flight. */
  lemma OutcomesAreWrittenOnce(k: Codec, workspace: string, before: seq<Event>, es: seq<Event>, request: nat)
    requires
      var c0 := INITIAL.(workspace := workspace);
      var c := Run(k, c0, before).0;
      && RaceFree(k, c0, before) && RaceFree(k, c, es)
      && RunsTools(c, request) && Active(Run(k, c, es).0, request)
    ensures
      var c := Run(k, INITIAL.(workspace := workspace), before).0;
      WriteOnce(c.pending.value.results, Run(k, c, es).0.pending.value.results)
  {
    hide Step, Run, RaceFree, WriteOnce, Races;
    var c0 := INITIAL.(workspace := workspace);
    RunKeeps(k, c0, before);
    RunUnraced(k, c0, before);
    RunWritesOnce(k, Run(k, c0, before).0, es, request);
  }

  /** Exactly when a step changes a recorded outcome: it decides a call that is still waiting although it
      has an outcome, and the decision yields a different one. */
  lemma OutcomeChangesIff(k: Codec, c: Core, e: Event, request: nat, j: nat)
    requires Valid(c) && RunsTools(c, request) && j < |c.pending.value.results|
    requires c.pending.value.results[j].outcome.Some?
    ensures
      var rs, c' := c.pending.value.results, Step(k, c, e).0;
      var id, o := rs[j].callId, rs[j].outcome.value;
      var a := Approving(k, request, rs[j].(approval := Approved));
      Active(c', request) && j < |c'.pending.value.results| && c'.pending.value.results[j].outcome != Some(o)
      <==>
      Find(Undecided, id, rs) == j
      && ((e == RejectToolCall(id) && RejectionOf(rs[j].name) != o)
          || (e == ApproveToolCall(id) && a.Err? && Err(a.error) != o))
  {
    hide Step, EntryAfter, Matches, Edited, Approving, RejectionOf, FlightValid;
    var rs := c.pending.value.results;
    if ToolEvent(e) {
      ToolStep(k, c, e);
      var d := EditOf(k, c, e);
      if d.Edit? {
        EditedStays(k, c, d);
        EntryOverwrites(k, request, rs[d.at], e);
        MatchesId(WantOf(e), e.callId, rs[d.at]);
        if d.at == j { StaysUnresolved(k, c, d); }
      }
    } else {
      QuietToolPhase(k, c, e, request);
    }
  }

  lemma EntryOverwrites(k: Codec, request: nat, r: Entry, e: Event)
    requires ToolEvent(e) && Matches(WantOf(e), e.callId, r)
    ensures
      var r' := EntryAfter(k, request, r, e).0;
      var a := Approving(k, request, r.(approval := Approved));
      && (r.outcome.Some? && r'.outcome != r.outcome <==>
          r.outcome.Some?
          && ((e == RejectToolCall(r.callId) && Some(RejectionOf(r.name)) != r.outcome)
              || (e == ApproveToolCall(r.callId) && a.Err? && Some(Err(a.error)) != r.outcome)))
      && (r.outcome.Some? ==> r'.outcome.Some?)
  {
    hide Extended, Approving, RejectionOf;
  }

  /** Changing a recorded outcome resolves nothing new, so the turn stays in flight. */
  lemma StaysUnresolved(k: Codec, c: Core, d: Edit)
    requires Valid(c) && c.pending.Some? && c.pending.value.phase != Streaming
    requires d.Edit? && d.at < |c.pending.value.results| && c.pending.value.results[d.at].outcome.Some?
    ensures Edited(k, c, d).0.pending.value.phase != Streaming
  {
    hide ApprovalOpen;
    var rs := c.pending.value.results;
    var m :| 0 <= m < |rs| && rs[m].outcome.None?;
    assert rs[d.at := d.entry][m].outcome.None?;
  }

  /** The promise does fail: in any tool turn with a waiting call whose id is its own and some other call
      still running, a result for the waiting call is recorded and then lost to a rejection. */
  lemma ResultThenRejectionLosesIt(k: Codec, c: Core, request: nat, j: nat, m: nat, text: string)
    requires Valid(c) && RunsTools(c, request)
    requires
      var rs := c.pending.value.results;
      && j < |rs| && m < |rs| && j != m
      && rs[j].approval == Pending && rs[j].outcome.None? && rs[m].outcome.None?
      && forall i :: 0 <= i < |rs| && i != j ==> rs[i].callId != rs[j].callId
    ensures
      var r := c.pending.value.results[j];
      var c1 := Step(k, c, ToolResult(request, r.callId, Ok(text))).0;
      var c2 := Step(k, c1, RejectToolCall(r.callId)).0;
      && RunsTools(c1, request) && j < |c1.pending.value.results|
      && c1.pending.value.results[j].outcome == Some(Ok(text))
      && RunsTools(c2, request) && j < |c2.pending.value.results|
      && c2.pending.value.results[j].outcome == Some(RejectionOf(r.name))
  {
    hide Step, Edited, FlightValid;
    var rs := c.pending.value.results;
    var e1 := ToolResult(request, rs[j].callId, Ok(text));
    FindUnique(Unresolved, rs, j);
    ToolStep(k, c, e1);
    StepKeeps(k, c, e1);
    var d1 := EditOf(k, c, e1);
    EditedWaits(k, c, d1, m);
    var c1 := Step(k, c, e1).0;
    var rs1 := c1.pending.value.results;
    FindUnique(Undecided, rs1, j);
    var e2 := RejectToolCall(rs[j].callId);
    ToolStep(k, c1, e2);
    var d2 := EditOf(k, c1, e2);
    EditedWaits(k, c1, d2, m);
  }

  lemma FindUnique(want: Want, rs: seq<Entry>, j: nat)
    requires j < |rs| && Matches(want, rs[j].callId, rs[j])
    requires forall i :: 0 <= i < |rs| && i != j ==> rs[i].callId != rs[j].callId
    ensures Find(want, rs[j].callId, rs) == j
  {
    var i := Find(want, rs[j].callId, rs);
    if i < j { MatchesId(want, rs[j].callId, rs[i]); }
  }

  lemma EditedWaits(k: Codec, c: Core, d: Edit, m: nat)
    requires d.Edit? && c.pending.Some? && c.pending.value.phase != Streaming && d.at < |c.pending.value.results|
    requires m < |c.pending.value.results| && m != d.at && c.pending.value.results[m].outcome.None?
    ensures
      var c' := Edited(k, c, d).0;
      && c'.pending.Some? && c'.pending.value.phase != Streaming && c'.pending.value.id == c.pending.value.id
      && c'.pending.value.results == c.pending.value.results[d.at := d.entry]
  {
    hide ApprovalOpen;
    assert c.pending.value.results[d.at := d.entry][m].outcome.None?;
  }
}
