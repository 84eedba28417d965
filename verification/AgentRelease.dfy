/** What an approval runs: where, over a whole run, the arguments of everything that reaches a tool come
    from, and that a call which lost a fragment never reaches one. */
module AgentRelease {
  import opened Options
  import opened Transcript
  import opened Invocations
  import opened Tallies
  import opened Agent
  import opened AgentInvariant
  import opened AgentSteps
  import opened AgentTranscript
  import opened AgentErasure
  import opened AgentSlots
  import opened AgentApproval

  // ---- at most once per committed call, over whole runs ----

  function CallWith(id: string): ToolCall -> bool { (call: ToolCall) => call.id == id }

  /** How many calls with this id the event commits to the conversation for the request. */
  function Committed(c: Core, e: Event, request: nat, id: string): nat {
    if e.Finish? && e.request == request && Streams(c, request) && e.reason == Some("tool_calls") then
      Tally(CallWith(id), FinalCalls(c.pending.value.slots))
    else 0
  }

  function CommittedCalls(k: Codec, c: Core, es: seq<Event>, request: nat, id: string): nat
    decreases |es|
  {
    if es == [] then 0
    else Committed(c, es[0], request, id) + CommittedCalls(k, Step(k, c, es[0]).0, es[1..], request, id)
  }

  lemma {:induction false} OpenAreCommitted(calls: seq<ToolCall>, rs: seq<Entry>, id: string)
    requires StandFor(calls, rs)
    ensures Tally(Opening(id), rs) <= Tally(CallWith(id), calls)
  {
    if rs != [] { OpenAreCommitted(calls[1..], rs[1..], id); }
  }

  lemma FinishChances(k: Codec, c: Core, e: Event, request: nat, id: string)
    requires Valid(c) && e.Finish?
    ensures Chances(Step(k, c, e).0, request, id) <= Chances(c, request, id) + Committed(c, e, request, id)
  {
    hide Tally, Dispatch, FinalCalls, AllResolved, ApprovalOpen, FlightValid;
    if Streams(c, e.request) && e.reason == Some("tool_calls") && c.pending.value.slots != map[] {
      var c0 := Counted(c, FinishesCommitted);
      var calls := FinalCalls(c.pending.value.slots);
      BatchStandsFor(k, c0, calls);
      OpenAreCommitted(calls, BatchOf(k, c0, calls).entries, id);
    }
  }

  lemma OtherChances(k: Codec, c: Core, e: Event, request: nat, id: string)
    requires Valid(c) && !e.Finish? && !ToolEvent(e)
    ensures Chances(Step(k, c, e).0, request, id) <= Chances(c, request, id)
  {
    hide Step, Valid, Tally;
    if c.pending.Some? && c.pending.value.phase != Streaming {
      QuietToolPhase(k, c, e, c.pending.value.id);
    } else {
      NoToolPhase(k, c, e);
    }
  }

  lemma StepWithin(k: Codec, c: Core, e: Event, request: nat, id: string)
    requires Valid(c)
    ensures Tally(Releasing(request, id), Step(k, c, e).1) + Chances(Step(k, c, e).0, request, id)
            <= Chances(c, request, id) + Committed(c, e, request, id)
  {
    hide Step, Valid, Tally, Chances, Committed;
    if ToolEvent(e) {
      ToolReleases(k, c, e, request, id);
    } else {
      NoReleases(k, c, e, request, id);
      if e.Finish? { FinishChances(k, c, e, request, id); } else { OtherChances(k, c, e, request, id); }
    }
  }

  lemma {:induction false} RunWithin(k: Codec, c: Core, es: seq<Event>, request: nat, id: string)
    requires Valid(c)
    ensures Tally(Releasing(request, id), Run(k, c, es).1)
            <= Chances(c, request, id) + CommittedCalls(k, c, es, request, id)
    decreases |es|
  {
    hide Step, Valid, Tally, Chances, Committed;
    if es == [] {
      NoRelease(request, id, []);
    } else {
      var (c1, first) := Step(k, c, es[0]);
      StepKeeps(k, c, es[0]);
      StepWithin(k, c, es[0], request, id);
      RunWithin(k, c1, es[1..], request, id);
      TallyAppend(Releasing(request, id), first, Run(k, c1, es[1..]).1);
    }
  }

  /** Over every run: for each request and id, no more patches and commands are released than calls with that
      id were committed for the request. */
  lemma ReleasesWithinCommitted(k: Codec, workspace: string, es: seq<Event>, request: nat, id: string)
    ensures
      var c0 := INITIAL.(workspace := workspace);
      Tally(Releasing(request, id), Run(k, c0, es).1) <= CommittedCalls(k, c0, es, request, id)
  {
    hide Run, Tally, CommittedCalls;
    RunWithin(k, INITIAL.(workspace := workspace), es, request, id);
  }

  // ---- what an entry may run ----

  /** A call that passed the finish: no fragment lost, arguments parsed, and the human will see what runs. */
  predicate Runnable(k: Codec, request: nat, tooLarge: set<string>, launched: seq<Action>, call: ToolCall,
                     preview: Option<CommandPreview>) {
    && call.id !in tooLarge
    && (call.name == "patch" ==>
          k.parsePatch(call.args).Ok? && PreviewPatch(request, call.id, k.parsePatch(call.args).value) in launched)
    && (call.name == "command" ==>
          k.parseCommand(call.args).Ok? && preview.Some? && preview.value.argv == k.parseCommand(call.args).value.argv)
  }

  /** The entry stands for the call, and if it waits, may yet wait, or was released, the call is runnable. */
  predicate EntryFrom(k: Codec, request: nat, tooLarge: set<string>, launched: seq<Action>, call: ToolCall, r: Entry) {
    && r.callId == call.id && r.name == call.name && r.args == call.args
    && (r.approval != NotRequired || r.outcome.None? ==>
          Runnable(k, request, tooLarge, launched, call, r.commandPreview))
  }

  predicate EntriesFrom(k: Codec, request: nat, tooLarge: set<string>, launched: seq<Action>, calls: seq<ToolCall>,
                        rs: seq<Entry>) {
    |rs| == |calls| && forall j :: 0 <= j < |rs| ==> EntryFrom(k, request, tooLarge, launched, calls[j], rs[j])
  }

  lemma RuleRunnable(k: Codec, ws: string, request: nat, tooLarge: set<string>, used: nat, call: ToolCall)
    ensures
      var v := Rule(k, ws, request, call.id in tooLarge, used, call);
      EntryFrom(k, request, tooLarge, v.actions, call, v.entry)
  {
  }

  lemma MoreLaunched(k: Codec, request: nat, tooLarge: set<string>, some: seq<Action>, all: seq<Action>, call: ToolCall,
                     r: Entry)
    requires EntryFrom(k, request, tooLarge, some, call, r) && forall a :: a in some ==> a in all
    ensures EntryFrom(k, request, tooLarge, all, call, r)
  {
  }

  lemma {:induction false} DispatchGrows(k: Codec, ws: string, request: nat, tooLarge: set<string>,
                                         calls: seq<ToolCall>, b: Batch)
    ensures forall a :: a in b.actions ==> a in Dispatch(k, ws, request, tooLarge, calls, b).actions
    decreases |calls|
  {
    hide Rule;
    if calls != [] {
      DispatchGrows(k, ws, request, tooLarge, calls[1..], DispatchOne(k, ws, request, tooLarge, calls[0], b));
    }
  }

  lemma {:induction false} DispatchRunnable(k: Codec, ws: string, request: nat, tooLarge: set<string>,
                                            calls: seq<ToolCall>, b: Batch, j: nat)
    requires j < |calls|
    ensures
      var b' := Dispatch(k, ws, request, tooLarge, calls, b);
      |b'.entries| == |b.entries| + |calls|
      && EntryFrom(k, request, tooLarge, b'.actions, calls[j], b'.entries[|b.entries| + j])
    decreases |calls|
  {
    hide Rule, EntryFrom, Started;
    var b1 := DispatchOne(k, ws, request, tooLarge, calls[0], b);
    var b' := Dispatch(k, ws, request, tooLarge, calls, b);
    if j == 0 {
      RuleRunnable(k, ws, request, tooLarge, b.used, calls[0]);
      DispatchShape(k, ws, request, tooLarge, calls[1..], b1);
      DispatchGrows(k, ws, request, tooLarge, calls[1..], b1);
      assert b'.entries[|b.entries|] == b'.entries[..|b1.entries|][|b.entries|];
      var v := Rule(k, ws, request, calls[0].id in tooLarge, b.used, calls[0]);
      MoreLaunched(k, request, tooLarge, v.actions, b'.actions, calls[0], v.entry);
    } else {
      assert calls[1..][j - 1] == calls[j];
      DispatchRunnable(k, ws, request, tooLarge, calls[1..], b1, j - 1);
    }
  }

  lemma EntryStays(k: Codec, request: nat, tooLarge: set<string>, launched: seq<Action>, call: ToolCall, r: Entry,
                   e: Event)
    requires ToolEvent(e) && Matches(WantOf(e), e.callId, r) && EntryFrom(k, request, tooLarge, launched, call, r)
    ensures EntryFrom(k, request, tooLarge, launched, call, EntryAfter(k, request, r, e).0)
  {
    hide Runnable, Extended;
  }

  // ---- where the entries of a running turn come from ----

  /** In the run `es` from `c0`, request `r` starts at `a` and finishes its stream for tools at `b`. */
  predicate Streamed(k: Codec, c0: Core, es: seq<Event>, r: nat, a: nat, b: nat) {
    && a <= b < |es| && es[b] == Finish(r, Some("tool_calls"))
    && JustStarted(Run(k, c0, es[..a]).0, r) && Streams(Run(k, c0, es[..b]).0, r)
  }

  /** The entries are those the finish at `b` dispatched. */
  predicate Dispatched(k: Codec, c0: Core, es: seq<Event>, r: nat, b: nat, rs: seq<Entry>)
    requires b < |es|
  {
    var s := Run(k, c0, es[..b]).0;
    && s.pending.Some?
    && EntriesFrom(k, r, TooLarge(s.pending.value.slots), Step(k, s, es[b]).1, FinalCalls(s.pending.value.slots), rs)
  }

  /** What is known of the flight after a run. */
  predicate OriginOk(k: Codec, c0: Core, es: seq<Event>, c: Core, a: nat, b: nat) {
    c.pending.Some? ==>
      var p := c.pending.value;
      if p.phase == Streaming then a <= |es| && JustStarted(Run(k, c0, es[..a]).0, p.id)
      else Streamed(k, c0, es, p.id, a, b) && Dispatched(k, c0, es, p.id, b, p.results)
  }

  lemma Prefixes(es: seq<Event>, e: Event, i: nat)
    requires i <= |es|
    ensures (es + [e])[..i] == es[..i]
    ensures i < |es| ==> (es + [e])[i] == es[i]
  {
  }

  lemma EditedFrom(k: Codec, request: nat, tooLarge: set<string>, launched: seq<Action>, calls: seq<ToolCall>,
                   rs: seq<Entry>, i: nat, r: Entry)
    requires EntriesFrom(k, request, tooLarge, launched, calls, rs) && i < |rs|
    requires EntryFrom(k, request, tooLarge, launched, calls[i], r)
    ensures EntriesFrom(k, request, tooLarge, launched, calls, rs[i := r])
  {
    hide EntryFrom;
  }

  /** A tool event keeps the origin of the turn it leaves running. */
  lemma ToolOrigin(k: Codec, c0: Core, es: seq<Event>, e: Event, a: nat, b: nat)
    requires Valid(Run(k, c0, es).0) && ToolEvent(e) && OriginOk(k, c0, es, Run(k, c0, es).0, a, b)
    requires
      var c := Run(k, c0, es).0;
      c.pending.Some? && c.pending.value.phase != Streaming && RunsTools(Step(k, c, e).0, c.pending.value.id)
    ensures OriginOk(k, c0, es + [e], Step(k, Run(k, c0, es).0, e).0, a, b)
  {
    hide Step, Run, EntryAfter, Matches, Edited, EntryFrom, FlightValid, EntriesFrom, TooLarge, FinalCalls;
    var c := Run(k, c0, es).0;
    var p := c.pending.value;
    Prefixes(es, e, a);
    Prefixes(es, e, b);
    ToolStep(k, c, e);
    var d := EditOf(k, c, e);
    if d.Edit? {
      EditedStays(k, c, d);
      var s := Run(k, c0, es[..b]).0;
      var slots, launched := s.pending.value.slots, Step(k, s, es[b]).1;
      EntryAt(k, p.id, TooLarge(slots), launched, FinalCalls(slots), p.results, d.at);
      EntryStays(k, p.id, TooLarge(slots), launched, FinalCalls(slots)[d.at], p.results[d.at], e);
      EditedFrom(k, p.id, TooLarge(slots), launched, FinalCalls(slots), p.results, d.at, d.entry);
    }
  }

  lemma EntryAt(k: Codec, request: nat, tooLarge: set<string>, launched: seq<Action>, calls: seq<ToolCall>,
                rs: seq<Entry>, i: nat)
    requires EntriesFrom(k, request, tooLarge, launched, calls, rs) && i < |rs|
    ensures |calls| == |rs| && EntryFrom(k, request, tooLarge, launched, calls[i], rs[i])
  {
  }

  /** A finish that leaves a tool turn is its origin. */
  lemma FinishOrigin(k: Codec, c: Core, e: Event)
    requires Valid(c) && e.Finish? && (c.pending.Some? ==> c.pending.value.phase == Streaming)
    requires Step(k, c, e).0.pending.Some? && Step(k, c, e).0.pending.value.phase != Streaming
    ensures
      var c' := Step(k, c, e).0;
      && Streams(c, e.request) && e.reason == Some("tool_calls") && c'.pending.value.id == e.request
      && EntriesFrom(k, e.request, TooLarge(c.pending.value.slots), Step(k, c, e).1, FinalCalls(c.pending.value.slots),
                     c'.pending.value.results)
  {
    hide Dispatch, FinalCalls, TooLarge, AllResolved, ApprovalOpen, FlightValid, EntryFrom;
    var slots := c.pending.value.slots;
    var calls := FinalCalls(slots);
    var c1 := Counted(c, FinishesCommitted);
    var b := Batch([], [], c1.callsThisTurn, c1.metrics);
    var b' := Dispatch(k, c.workspace, e.request, TooLarge(slots), calls, b);
    BatchCount(k, c1, calls);
    var actions := Step(k, c, e).1;
    forall j | 0 <= j < |calls|
      ensures EntryFrom(k, e.request, TooLarge(slots), actions, calls[j], b'.entries[j])
    {
      DispatchRunnable(k, c.workspace, e.request, TooLarge(slots), calls, b, j);
      MoreLaunched(k, e.request, TooLarge(slots), b'.actions, actions, calls[j], b'.entries[j]);
    }
  }

  lemma BatchCount(k: Codec, c: Core, calls: seq<ToolCall>)
    requires c.pending.Some?
    ensures |BatchOf(k, c, calls).entries| == |calls|
  {
    BatchStandsFor(k, c, calls);
  }

  /** A request that streams after a step streamed before it, or has just been started by it. */
  lemma StreamOrigin(k: Codec, c: Core, e: Event)
    requires Valid(c) && Step(k, c, e).0.pending.Some? && Step(k, c, e).0.pending.value.phase == Streaming
    ensures
      var id := Step(k, c, e).0.pending.value.id;
      Streams(c, id) || JustStarted(Step(k, c, e).0, id)
  {
    hide Step, Valid, StartIds;
    var c' := Step(k, c, e).0;
    var id := c'.pending.value.id;
    StepIds(k, c, e);
    if StartIds(Step(k, c, e).1) == [] {
      IdInFlight(c, id);
      StreamStep(k, c, e, id);
    } else {
      StartedFresh(k, c, e);
    }
  }

  lemma StartedFresh(k: Codec, c: Core, e: Event)
    requires Valid(c) && StartIds(Step(k, c, e).1) != []
    ensures Step(k, c, e).0.pending == Some(FreshFlight(c.nextId))
  {
    hide Dispatch, FinalCalls, AllResolved, ApprovalOpen, Merge, Overflows, FlightValid, StartIds, Step;
    if ToolEvent(e) { ToolStarts(k, c, e); } else if e.Finish? { FinishStarts(k, c, e); } else { OtherStarts(k, c, e); }
  }

  lemma ToolStarts(k: Codec, c: Core, e: Event)
    requires Valid(c) && ToolEvent(e) && StartIds(Step(k, c, e).1) != []
    ensures Step(k, c, e).0.pending == Some(FreshFlight(c.nextId))
  {
    hide Step, EntryAfter, ApprovalOpen, AllResolved, FlightValid, StartIds;
    ToolStep(k, c, e);
    QuietIds([]);
    TwoIds(Redraw, Redraw);
    var d := EditOf(k, c, e);
    if d.Edit? {
      EntryKeepsId(k, c.pending.value.id, c.pending.value.results[d.at], e);
      if d.action.Some? { TwoIds(d.action.value, Redraw); }
    }
  }

  lemma FinishStarts(k: Codec, c: Core, e: Event)
    requires Valid(c) && e.Finish? && StartIds(Step(k, c, e).1) != []
    ensures Step(k, c, e).0.pending == Some(FreshFlight(c.nextId))
  {
    hide Dispatch, FinalCalls, AllResolved, ApprovalOpen, StartIds, FlightValid;
    QuietIds([]);
    TwoIds(Redraw, Redraw);
    if Streams(c, e.request) && e.reason == Some("tool_calls") && c.pending.value.slots != map[] {
      var c0 := Counted(c, FinishesCommitted);
      var calls := FinalCalls(c.pending.value.slots);
      var b := BatchOf(k, c0, calls);
      BatchStandsFor(k, c0, calls);
      QuietIds(b.actions);
      if !AllResolved(b.entries) { StartIdsAppend(b.actions, [Redraw]); }
    }
  }

  lemma OtherStarts(k: Codec, c: Core, e: Event)
    requires Valid(c) && !ToolEvent(e) && !e.Finish? && StartIds(Step(k, c, e).1) != []
    ensures Step(k, c, e).0.pending == Some(FreshFlight(c.nextId))
  {
    hide Merge, Overflows;
    if !(e.UserMessage? && c.pending.None?) { QuietIds(Step(k, c, e).1); }
  }

  /** Over every run: where the flight in the air comes from. */
  lemma {:induction false} FlightOrigin(k: Codec, workspace: string, es: seq<Event>) returns (a: nat, b: nat)
    ensures
      var c0 := INITIAL.(workspace := workspace);
      OriginOk(k, c0, es, Run(k, c0, es).0, a, b)
    decreases |es|
  {
    var c0 := INITIAL.(workspace := workspace);
    a, b := 0, 0;
    RunNothing(k, c0);
    if es != [] {
      hide Step, Run, Valid, OriginOk;
      var before, e := es[..|es| - 1], es[|es| - 1];
      assert es == before + [e];
      a, b := FlightOrigin(k, workspace, before);
      RunKeeps(k, c0, before);
      RunSnoc(k, c0, before, e);
      a, b := StepOrigin(k, c0, before, e, a, b);
    }
  }

  lemma StepOrigin(k: Codec, c0: Core, es: seq<Event>, e: Event, a0: nat, b0: nat) returns (a: nat, b: nat)
    requires Valid(Run(k, c0, es).0) && OriginOk(k, c0, es, Run(k, c0, es).0, a0, b0)
    requires Run(k, c0, es + [e]).0 == Step(k, Run(k, c0, es).0, e).0
    ensures OriginOk(k, c0, es + [e], Step(k, Run(k, c0, es).0, e).0, a, b)
  {
    hide Step, Run, Valid, Dispatched, FreshFlight;
    a, b := a0, b0;
    var c := Run(k, c0, es).0;
    var c' := Step(k, c, e).0;
    if c'.pending.Some? {
      if c'.pending.value.phase == Streaming {
        StreamOrigin(k, c, e);
        if Streams(c, c'.pending.value.id) {
          Prefixes(es, e, a);
        } else {
          a := |es| + 1;
          assert (es + [e])[..a] == es + [e];
        }
      } else if c.pending.Some? && c.pending.value.phase != Streaming {
        SamePhase(k, c, e);
        if ToolEvent(e) {
          ToolOrigin(k, c0, es, e, a, b);
        } else {
          QuietToolPhase(k, c, e, c.pending.value.id);
          Prefixes(es, e, a);
          Prefixes(es, e, b);
          DispatchedLonger(k, c0, es, e, c.pending.value.id, b, c.pending.value.results);
        }
      } else if e.Finish? {
        FinishOrigin(k, c, e);
        b := |es|;
        Prefixes(es, e, a);
        Prefixes(es, e, b);
        DispatchedHere(k, c0, es, e, c'.pending.value.results);
      } else {
        NoToolPhase(k, c, e);
      }
    }
  }

  lemma DispatchedLonger(k: Codec, c0: Core, es: seq<Event>, e: Event, r: nat, b: nat, rs: seq<Entry>)
    requires b < |es| && Dispatched(k, c0, es, r, b, rs)
    ensures Dispatched(k, c0, es + [e], r, b, rs)
  {
    hide Step, Run, EntriesFrom;
    Prefixes(es, e, b);
  }

  lemma DispatchedHere(k: Codec, c0: Core, es: seq<Event>, e: Event, rs: seq<Entry>)
    requires
      var c := Run(k, c0, es).0;
      && e.Finish? && c.pending.Some?
      && EntriesFrom(k, e.request, TooLarge(c.pending.value.slots), Step(k, c, e).1,
                     FinalCalls(c.pending.value.slots), rs)
    ensures Dispatched(k, c0, es + [e], e.request, |es|, rs)
  {
    hide Step, Run, EntriesFrom;
    assert (es + [e])[..|es|] == es;
  }

  // ---- what reaches a tool ----

  /** The actions by which a call of the model reaches a tool, or the preview of one. */
  predicate Reaches(a: Action) { a.ExecuteTool? || a.PreviewPatch? || a.ApplyPatch? || a.ExecuteCommand? }

  function RequestIn(a: Action): nat
    requires Reaches(a)
  {
    a.request
  }

  /** The call that was streamed between `a` and `b` at this index lost nothing: its arguments are all the
      fragments of its index, in order, and no call of the turn with its id lost any. */
  predicate Whole(k: Codec, es: seq<Event>, r: nat, a: nat, b: nat, index: nat)
    requires a <= b <= |es|
  {
    var stream := es[a..b];
    var call := CallSpec(stream, r, index);
    && index in Indices(stream, r)
    && call.args == Joined(Fragments(stream, r, index))
    && forall i :: i in Indices(stream, r) && CallSpec(stream, r, i).id == call.id ==>
         Utf8Len(Joined(Fragments(stream, r, i))) <= ARGUMENTS_MAX_BYTES
  }

  /** The action carries the id of the call and the parse of its arguments. */
  predicate Carries(k: Codec, call: ToolCall, act: Action)
    requires Reaches(act)
  {
    act.callId == call.id &&
    if act.ExecuteTool? then k.parseReadOnly(call.name, call.args) == Ok(act.tool)
    else if act.ExecuteCommand? then call.name == "command" && k.parseCommand(call.args) == Ok(act.command)
    else call.name == "patch" && k.parsePatch(call.args) == Ok(act.patch)
  }

  /** Where an action comes from: a stream of its request, and a whole call of that stream. */
  predicate ComesFrom(k: Codec, c0: Core, es: seq<Event>, act: Action, a: nat, b: nat, index: nat)
    requires Reaches(act)
  {
    && Streamed(k, c0, es, RequestIn(act), a, b)
    && Whole(k, es, RequestIn(act), a, b, index)
    && Carries(k, CallSpec(es[a..b], RequestIn(act), index), act)
    && (act.ApplyPatch? ==>
          PreviewPatch(act.request, act.callId, act.patch) in Step(k, Run(k, c0, es[..b]).0, es[b]).1)
  }

  /** The slots at `b` are what was streamed since `a`. */
  lemma StreamedSlots(k: Codec, workspace: string, es: seq<Event>, r: nat, a: nat, b: nat)
    requires Streamed(k, INITIAL.(workspace := workspace), es, r, a, b)
    ensures
      var s := Run(k, INITIAL.(workspace := workspace), es[..b]).0;
      && Valid(s) && s.pending.Some? && s.pending.value.slots == SlotsSpec(es[a..b], r)
      && s.pending.value.slots.Keys == Indices(es[a..b], r)
  {
    hide Run, Valid, SlotSpec, Indices;
    var c0 := INITIAL.(workspace := workspace);
    RunKeeps(k, c0, es[..a]);
    RunKeeps(k, c0, es[..b]);
    assert es[..b] == es[..a] + es[a..b];
    RunSplit(k, c0, es[..a], es[a..b]);
    StreamAssembles(k, Run(k, c0, es[..a]).0, es[a..b], r);
  }

  /** A call with an id that lost nothing is whole. */
  lemma UncutIsWhole(k: Codec, es: seq<Event>, r: nat, a: nat, b: nat, slots: map<nat, Slot>, index: nat)
    requires a <= b <= |es| && slots == SlotsSpec(es[a..b], r) && index in slots
    requires CallId(index, slots[index]) !in TooLarge(slots)
    ensures Whole(k, es, r, a, b, index)
  {
    hide Fragments, Fields, Indices;
    var stream := es[a..b];
    var call := CallSpec(stream, r, index);
    forall i | i in Indices(stream, r) && CallSpec(stream, r, i).id == call.id
      ensures Utf8Len(Joined(Fragments(stream, r, i))) <= ARGUMENTS_MAX_BYTES
    {
      assert slots[i] == SlotSpec(stream, r, i) && CallId(i, slots[i]) == call.id;
      assert !slots[i].overLimit;
    }
    assert call.id == CallId(index, slots[index]);
    assert !slots[index].overLimit;
  }

  lemma CallAt(slots: map<nat, Slot>, j: nat)
    requires j < |FinalCalls(slots)|
    ensures
      var index := Ascending(slots.Keys)[j];
      |Ascending(slots.Keys)| == |FinalCalls(slots)| && index in slots
        && FinalCalls(slots)[j] == CallOf(index, slots[index])
  {
  }

  /** The human was shown what runs: the entry waiting for the decision holds the command's argv. */
  predicate ShownTo(c: Core, act: Action) {
    c.pending.Some? && exists j :: 0 <= j < |c.pending.value.results| && Showing(c.pending.value.results[j], act)
  }

  predicate Showing(r: Entry, act: Action) {
    && r.approval == Pending
    && (act.ExecuteCommand? ==>
          r.callId == act.callId && r.commandPreview.Some? && r.commandPreview.value.argv == act.command.argv)
    && (act.ApplyPatch? ==> r.callId == act.callId && r.previewContent == act.previewContent)
  }

  /** A released action is the parse of the arguments of the entry it was approved for. */
  lemma ApprovedCarries(k: Codec, request: nat, tooLarge: set<string>, launched: seq<Action>, call: ToolCall, r: Entry,
                        e: Event)
    requires ToolEvent(e) && Matches(WantOf(e), e.callId, r) && EntryFrom(k, request, tooLarge, launched, call, r)
    requires EntryAfter(k, request, r, e).1.Some?
    ensures
      var act := EntryAfter(k, request, r, e).1.value;
      && Reaches(act) && RequestIn(act) == request && Carries(k, call, act)
      && call.id !in tooLarge && Showing(r, act)
      && (act.ApplyPatch? ==> PreviewPatch(request, act.callId, act.patch) in launched)
  {
  }

  lemma ToolComesFrom(k: Codec, workspace: string, es: seq<Event>, e: Event, act: Action, a: nat, b: nat)
    requires
      var c0 := INITIAL.(workspace := workspace);
      OriginOk(k, c0, es, Run(k, c0, es).0, a, b) && act in Step(k, Run(k, c0, es).0, e).1
    requires ToolEvent(e) && Reaches(act)
    ensures
      var c0 := INITIAL.(workspace := workspace);
      && (exists index :: ComesFrom(k, c0, es + [e], act, a, b, index))
      && ShownTo(Run(k, c0, es).0, act)
  {
    hide Step, Run, EntryAfter, Matches, FlightValid, EntriesFrom, EntryFrom, TooLarge, FinalCalls, Whole, Carries,
      Showing;
    hide AllResolved, ApprovalOpen, CallOf;
    var c0 := INITIAL.(workspace := workspace);
    var c := Run(k, c0, es).0;
    RunKeeps(k, c0, es);
    ToolStep(k, c, e);
    var d := EditOf(k, c, e);
    var p := c.pending.value;
    var s := Run(k, c0, es[..b]).0;
    var slots, launched := s.pending.value.slots, Step(k, s, es[b]).1;
    EntryAt(k, p.id, TooLarge(slots), launched, FinalCalls(slots), p.results, d.at);
    ApprovedCarries(k, p.id, TooLarge(slots), launched, FinalCalls(slots)[d.at], p.results[d.at], e);
    var index := CallComes(k, workspace, es, e, p.id, a, b, d.at);
    assert ComesFrom(k, c0, es + [e], act, a, b, index) by {
      Prefixes(es, e, a);
      Prefixes(es, e, b);
    }
    assert Showing(p.results[d.at], act);
  }

  /** The j-th committed call, if its id lost nothing, is a whole call of the stream. */
  lemma CallComes(k: Codec, workspace: string, es: seq<Event>, e: Event, r: nat, a: nat, b: nat, j: nat)
    returns (index: nat)
    requires Streamed(k, INITIAL.(workspace := workspace), es, r, a, b)
    requires
      var slots := Run(k, INITIAL.(workspace := workspace), es[..b]).0.pending.value.slots;
      j < |FinalCalls(slots)| && FinalCalls(slots)[j].id !in TooLarge(slots)
    ensures
      var slots := Run(k, INITIAL.(workspace := workspace), es[..b]).0.pending.value.slots;
      Whole(k, es + [e], r, a, b, index) && FinalCalls(slots)[j] == CallSpec((es + [e])[a..b], r, index)
  {
    hide Run, Valid, FinalCalls, TooLarge, Whole, SlotSpec, Indices;
    var slots := Run(k, INITIAL.(workspace := workspace), es[..b]).0.pending.value.slots;
    StreamedSlots(k, workspace, es, r, a, b);
    CallAt(slots, j);
    index := Ascending(slots.Keys)[j];
    assert (es + [e])[a..b] == es[a..b];
    UncutIsWhole(k, es + [e], r, a, b, slots, index);
  }

  /** Only a finish for tools starts anything. */
  lemma FinishReaches(k: Codec, c: Core, e: Event, act: Action)
    requires e.Finish? && act in Step(k, c, e).1 && Reaches(act)
    ensures Streams(c, e.request) && e.reason == Some("tool_calls") && c.pending.value.slots != map[]
    ensures LaunchedBy(k, e.request, TooLarge(c.pending.value.slots), FinalCalls(c.pending.value.slots), act)
  {
    hide Dispatch, FinalCalls, AllResolved, ApprovalOpen, Launches, TooLarge;
    var slots := c.pending.value.slots;
    var c0 := Counted(c, FinishesCommitted);
    var b := Batch([], [], c0.callsThisTurn, c0.metrics);
    DispatchLaunches(k, c.workspace, e.request, TooLarge(slots), FinalCalls(slots), b, act);
  }

  lemma PlainReaches(k: Codec, c: Core, e: Event, act: Action)
    requires act in Step(k, c, e).1 && Reaches(act)
    ensures e.Finish? || ToolEvent(e)
  {
  }

  lemma FinishComesFrom(k: Codec, workspace: string, es: seq<Event>, e: Event, act: Action, a: nat)
    requires
      var c0 := INITIAL.(workspace := workspace);
      && OriginOk(k, c0, es, Run(k, c0, es).0, a, 0) && act in Step(k, Run(k, c0, es).0, e).1
    requires e.Finish? && Reaches(act)
    ensures exists index :: ComesFrom(k, INITIAL.(workspace := workspace), es + [e], act, a, |es|, index)
    ensures act.ExecuteTool? || act.PreviewPatch?
  {
    hide Step, Run, Launches, FinalCalls, TooLarge, Whole, CallOf, SlotSpec, Indices;
    var c0 := INITIAL.(workspace := workspace);
    var c := Run(k, c0, es).0;
    FinishReaches(k, c, e, act);
    var slots := c.pending.value.slots;
    var m :| 0 <= m < |FinalCalls(slots)| && Launches(k, e.request, TooLarge(slots), FinalCalls(slots)[m], act);
    LaunchCarries(k, e.request, TooLarge(slots), FinalCalls(slots)[m], act);
    var all := es + [e];
    assert all[..|es|] == es && all[..a] == es[..a] && all[|es|] == e;
    assert Streamed(k, c0, all, e.request, a, |es|);
    StreamedSlots(k, workspace, all, e.request, a, |es|);
    CallAt(slots, m);
    var index := Ascending(slots.Keys)[m];
    UncutIsWhole(k, all, e.request, a, |es|, slots, index) by { LaunchUncut(slots, m, index); }
    CallSpecIs(all[a..|es|], e.request, index);
    assert FinalCalls(slots)[m] == CallSpec(all[a..|es|], e.request, index);
    assert ComesFrom(k, c0, all, act, a, |es|, index);
  }

  lemma LaunchUncut(slots: map<nat, Slot>, m: nat, index: nat)
    requires m < |FinalCalls(slots)| && index in slots && FinalCalls(slots)[m] == CallOf(index, slots[index])
    ensures FinalCalls(slots)[m].id == CallId(index, slots[index])
  {
  }

  lemma LaunchCarries(k: Codec, request: nat, tooLarge: set<string>, call: ToolCall, act: Action)
    requires Launches(k, request, tooLarge, call, act)
    ensures Reaches(act) && RequestIn(act) == request && Carries(k, call, act) && call.id !in tooLarge
    ensures act.ExecuteTool? || act.PreviewPatch?
  {
  }

  /** Over every run, for everything that reaches a tool: it carries the parse of the arguments of a call that
      was streamed for its request; those arguments are all the fragments of the call's index, in order; and no
      call of the turn with that id lost a fragment. A patch applied is the patch that was previewed, with the
      snapshots the human was shown, and a command executed is the argv the human was shown. */
  lemma WhatRunsIsWhatWasAsked(k: Codec, workspace: string, es: seq<Event>, e: Event, act: Action)
    requires act in Step(k, Run(k, INITIAL.(workspace := workspace), es).0, e).1 && Reaches(act)
    ensures exists a, b, index :: ComesFrom(k, INITIAL.(workspace := workspace), es + [e], act, a, b, index)
    ensures act.ApplyPatch? || act.ExecuteCommand? ==> ShownTo(Run(k, INITIAL.(workspace := workspace), es).0, act)
  {
    hide Step, Run, ComesFrom, ShownTo, OriginOk;
    var c0 := INITIAL.(workspace := workspace);
    PlainReaches(k, Run(k, c0, es).0, e, act);
    var a, b := FlightOrigin(k, workspace, es);
    if ToolEvent(e) {
      ToolComesFrom(k, workspace, es, e, act, a, b);
    } else {
      StreamingOrigin(k, c0, es, e, act, a, b);
      FinishComesFrom(k, workspace, es, e, act, a);
    }
  }

  lemma StreamingOrigin(k: Codec, c0: Core, es: seq<Event>, e: Event, act: Action, a: nat, b: nat)
    requires e.Finish? && act in Step(k, Run(k, c0, es).0, e).1 && Reaches(act)
    requires OriginOk(k, c0, es, Run(k, c0, es).0, a, b)
    ensures OriginOk(k, c0, es, Run(k, c0, es).0, a, 0)
  {
    hide Step, Run;
    FinishReaches(k, Run(k, c0, es).0, e, act);
  }

  // ---- a call that lost a fragment never runs ----

  /** The finish of a streamed turn leaves a cut id no chance. */
  lemma CutHasNoChance(k: Codec, c: Core, request: nat, id: string)
    requires Valid(c) && Streams(c, request) && c.pending.value.slots != map[] && id in TooLarge(c.pending.value.slots)
    ensures
      var c' := Step(k, c, Finish(request, Some("tool_calls"))).0;
      Chances(c', request, id) == 0 && Settled(c', request)
  {
    hide Dispatch, FinalCalls, TooLarge, AllResolved, ApprovalOpen, Tally, FlightValid;
    var slots := c.pending.value.slots;
    var c0 := Counted(c, FinishesCommitted);
    var calls := FinalCalls(slots);
    var b := Batch([], [], c0.callsThisTurn, c0.metrics);
    var b' := BatchOf(k, c0, calls);
    BatchStandsFor(k, c0, calls);
    forall j | 0 <= j < |b'.entries| ensures !Open(id, b'.entries[j]) {
      if calls[j].id == id {
        DispatchRefuses(k, c.workspace, request, TooLarge(slots), calls, b, j);
        RefusedClosed(k, c, request, calls, j);
      }
    }
    TallyZero(Opening(id), b'.entries);
  }

  /** A refused entry never waits. */
  lemma RefusedClosed(k: Codec, c: Core, request: nat, calls: seq<ToolCall>, j: nat)
    requires c.pending.Some? && j < |calls| && calls[j].id in TooLarge(c.pending.value.slots)
    ensures
      var rs := BatchOf(k, Counted(c, FinishesCommitted), calls).entries;
      j < |rs| && rs[j].approval == NotRequired && rs[j].outcome.Some?
  {
    hide Dispatch, TooLarge, Started;
    var c0 := Counted(c, FinishesCommitted);
    var b := Batch([], [], c0.callsThisTurn, c0.metrics);
    DispatchRefuses(k, c.workspace, c.pending.value.id, TooLarge(c.pending.value.slots), calls, b, j);
    DispatchShape(k, c.workspace, c.pending.value.id, TooLarge(c.pending.value.slots), calls, b);
    StartedResolved(calls[j], BatchOf(k, c0, calls).entries[j]);
  }

  lemma StartedResolved(call: ToolCall, r: Entry)
    requires Started(call, r)
    ensures r.outcome.Some? ==> r.approval == NotRequired
  {
  }

  predicate Reaching(request: nat, id: string, a: Action) { Reaches(a) && a.request == request && a.callId == id }

  predicate NeverReached(request: nat, id: string, actions: seq<Action>) {
    forall a :: a in actions ==> !Reaching(request, id, a)
  }

  /** Once a request is past its stream, only approvals make its calls reach a tool. */
  lemma SettledReaches(k: Codec, c: Core, e: Event, request: nat, id: string, a: Action)
    requires Valid(c) && Settled(c, request) && a in Step(k, c, e).1 && Reaching(request, id, a)
    ensures Releases(request, id, a)
  {
    hide Step, Valid, Launches;
    PlainReaches(k, c, e, a);
    if e.Finish? {
      FinishReaches(k, c, e, a);
      var slots := c.pending.value.slots;
      var m :| 0 <= m < |FinalCalls(slots)| && Launches(k, e.request, TooLarge(slots), FinalCalls(slots)[m], a);
      LaunchCarries(k, e.request, TooLarge(slots), FinalCalls(slots)[m], a);
    } else {
      ToolReaches(k, c, e, a);
    }
  }

  lemma ToolReaches(k: Codec, c: Core, e: Event, a: Action)
    requires Valid(c) && ToolEvent(e) && a in Step(k, c, e).1 && Reaches(a)
    ensures a.ApplyPatch? || a.ExecuteCommand?
  {
    hide Step, EntryAfter, Matches, FlightValid, AllResolved, ApprovalOpen;
    ToolStep(k, c, e);
    var d := EditOf(k, c, e);
    if d.Edit? { EntryReleases(k, c.pending.value.id, c.pending.value.results[d.at], e, a.callId); }
  }

  lemma {:induction false} SettledNever(k: Codec, c: Core, es: seq<Event>, request: nat, id: string)
    requires Valid(c) && Settled(c, request) && Chances(c, request, id) == 0
    ensures NeverReached(request, id, Run(k, c, es).1)
    decreases |es|
  {
    hide Step, Valid, Tally, Chances, Settled, Reaching, Releases;
    if es != [] {
      var (c1, first) := Step(k, c, es[0]);
      StepKeeps(k, c, es[0]);
      StepReleases(k, c, es[0], request, id);
      SettledNever(k, c1, es[1..], request, id);
      forall a | a in first ensures !Reaching(request, id, a) {
        if Reaching(request, id, a) {
          SettledReaches(k, c, es[0], request, id, a);
          ReleaseTally(request, id, a, first);
        }
      }
    }
  }

  lemma ReleaseTally(request: nat, id: string, a: Action, actions: seq<Action>)
    requires a in actions && Releases(request, id, a)
    ensures Tally(Releasing(request, id), actions) >= 1
  {
    ReleaseCounts(a, actions);
  }

  /** A call that lost a fragment, and any call that shares its id, never reaches a tool: not at the finish of
      its turn and not in any continuation, whatever is approved. */
  lemma CutCallsNeverRun(k: Codec, c: Core, es: seq<Event>, request: nat, j: nat, rest: seq<Event>)
    requires Valid(c) && JustStarted(c, request) && Streams(Run(k, c, es).0, request)
    requires j < |Indices(es, request)|
    requires Utf8Len(Joined(Fragments(es, request, Ascending(Indices(es, request))[j]))) > ARGUMENTS_MAX_BYTES
    ensures
      var id := CallSpec(es, request, Ascending(Indices(es, request))[j]).id;
      NeverReached(request, id, Run(k, Run(k, c, es).0, [Finish(request, Some("tool_calls"))] + rest).1)
  {
    hide Run, Valid, Indices, Fragments, Ascending, Step, TooLarge, FinalCalls, CallSpec, Joined, Utf8Len, Chances,
      Settled;
    var c1 := Run(k, c, es).0;
    var e := Finish(request, Some("tool_calls"));
    RunKeeps(k, c, es);
    TurnCalls(k, c, es, request);
    var slots := c1.pending.value.slots;
    FinalCount(slots);
    var id := FinalCalls(slots)[j].id;
    CutHasNoChance(k, c1, request, id);
    StepKeeps(k, c1, e);
    SettledNever(k, Step(k, c1, e).0, rest, request, id);
    RunUnroll(k, c1, e, rest);
    forall a | a in Step(k, c1, e).1 ensures !Reaching(request, id, a) { FinishNever(k, c1, request, id, a); }
  }

  lemma FinishNever(k: Codec, c: Core, request: nat, id: string, a: Action)
    requires Streams(c, request) && c.pending.value.slots != map[] && id in TooLarge(c.pending.value.slots)
    requires a in Step(k, c, Finish(request, Some("tool_calls"))).1
    ensures !Reaching(request, id, a)
  {
    hide Step, TooLarge, Launches, FinalCalls;
    if Reaches(a) {
      FinishReaches(k, c, Finish(request, Some("tool_calls")), a);
      var slots := c.pending.value.slots;
      var m :| 0 <= m < |FinalCalls(slots)| && Launches(k, request, TooLarge(slots), FinalCalls(slots)[m], a);
      LaunchCarries(k, request, TooLarge(slots), FinalCalls(slots)[m], a);
    }
  }
}
