/** What the model is told of its calls: the tool messages of the next request carry the recorded outcomes. */
module AgentAnswers {
  import opened Options
  import opened Transcript
  import opened Invocations
  import opened Agent
  import opened AgentInvariant
  import opened AgentSteps
  import opened AgentTranscript
  import opened AgentErasure
  import opened AgentApproval
  import opened AgentCounters
  import opened AgentSlots

  /** The entries of the running turn after an event that edits one of them. */
  function EntriesAfter(k: Codec, c: Core, e: Event): seq<Entry> {
    if !ToolEvent(e) || EditOf(k, c, e).NoEdit? then []
    else
      var d := EditOf(k, c, e);
      c.pending.value.results[d.at := d.entry]
  }

  /** The event edits the last entry without an outcome, and gives it one. */
  predicate Completes(k: Codec, c: Core, e: Event) {
    ToolEvent(e) && EditOf(k, c, e).Edit? && EditOf(k, c, e).action.None? && AllResolved(EntriesAfter(k, c, e))
  }

  /** The `i`-th event completes the turn in flight at `c`. */
  predicate CompletedAt(k: Codec, c: Core, es: seq<Event>, request: nat, i: nat) {
    i < |es| && (var ci := Run(k, c, es[..i]).0; RunsTools(ci, request) && Completes(k, ci, es[i]))
  }

  /** The entries it leaves. */
  function FinalEntries(k: Codec, c: Core, es: seq<Event>, i: nat): seq<Entry>
    requires i < |es|
  {
    EntriesAfter(k, Run(k, c, es[..i]).0, es[i])
  }

  /** The messages from `n` on answer these entries, one each and in order: a result with its own text, an error
      with its rendering. */
  predicate AnsweredBy(k: Codec, ms: seq<Msg>, n: nat, rs: seq<Entry>) {
    n + |rs| <= |ms| && forall i :: 0 <= i < |rs| ==> Tells(k, ms[n + i], rs[i])
  }

  predicate Tells(k: Codec, m: Msg, r: Entry) {
    match r.outcome
    case None => false
    case Some(Ok(text)) => m == Tool(r.callId, text)
    case Some(Err(e)) => m == Tool(r.callId, k.errorJson(e))
  }

  predicate Answered(ms: seq<Msg>, n: nat) { n < |ms| && ms[n].Tool? }

  lemma AnsweredNow(k: Codec, ms: seq<Msg>, rs: seq<Entry>)
    requires AllResolved(rs)
    ensures AnsweredBy(k, ms + ToolMessages(k, rs), |ms|, rs)
  {
  }

  lemma AnsweredLater(k: Codec, a: seq<Msg>, b: seq<Msg>, n: nat, rs: seq<Entry>)
    requires AnsweredBy(k, a, n, rs) && Extends(a, b)
    ensures AnsweredBy(k, b, n, rs)
  {
    forall i | 0 <= i < |rs| ensures Tells(k, b[n + i], rs[i]) {
      assert Tells(k, a[n + i], rs[i]) && b[n + i] == b[..|a|][n + i];
    }
  }

  lemma AnswersStart(k: Codec, ms: seq<Msg>, n: nat, rs: seq<Entry>)
    requires AnsweredBy(k, ms, n, rs) && rs != []
    ensures Answered(ms, n)
  {
    assert Tells(k, ms[n + 0], rs[0]);
  }

  /** One step of a running tool turn: it goes on, is given up, or is answered with the entries it then has. */
  lemma StepTells(k: Codec, c: Core, e: Event, request: nat)
    requires Valid(c) && RunsTools(c, request)
    ensures
      var c' := Step(k, c, e).0;
      && (Completes(k, c, e) <==> !Active(c', request) && c'.pending.Some?)
      && (Active(c', request) ==>
            && RunsTools(c', request) && c'.conversation == c.conversation
            && AllAdvance(c.pending.value.results, c'.pending.value.results))
      && (c'.pending.None? ==> c'.conversation == c.conversation)
      && (Completes(k, c, e) ==>
            && c'.conversation == c.conversation + ToolMessages(k, EntriesAfter(k, c, e))
            && AllAdvance(c.pending.value.results, EntriesAfter(k, c, e)))
  {
    hide Step, Valid, AllAdvance;
    if ToolEvent(e) { ToolTells(k, c, e, request); }
    else { QuietToolPhase(k, c, e, request); }
    if Active(Step(k, c, e).0, request) {
      StepAdvances(k, c, e, request);
      ToolConversation(k, c, e, request);
    }
  }

  lemma ToolConversation(k: Codec, c: Core, e: Event, request: nat)
    requires Valid(c) && RunsTools(c, request) && Active(Step(k, c, e).0, request)
    ensures Step(k, c, e).0.conversation == c.conversation
  {
    hide Step, EntryAfter, Edited, FlightValid;
    if ToolEvent(e) {
      ToolStep(k, c, e);
      var d := EditOf(k, c, e);
      if d.Edit? {
        EditedStays(k, c, d);
        EditedConversation(k, c, d);
        EditedMoves(k, c, d);
      }
    } else {
      QuietToolPhase(k, c, e, request);
    }
  }

  /** Answers are written only by a step that starts the next request. */
  lemma EditedMoves(k: Codec, c: Core, d: Edit)
    requires d.Edit? && c.pending.Some? && c.pending.value.phase != Streaming && d.at < |c.pending.value.results|
    ensures Edited(k, c, d).0.pending.Some?
    ensures
      var rs := c.pending.value.results[d.at := d.entry];
      d.action.None? && AllResolved(rs) <==> Edited(k, c, d).0.pending.value.phase == Streaming
  {
    hide ApprovalOpen, AllResolved;
  }

  /** A tool event completes the turn exactly when it takes the request out of flight. */
  lemma ToolTells(k: Codec, c: Core, e: Event, request: nat)
    requires Valid(c) && RunsTools(c, request) && ToolEvent(e)
    ensures
      var c' := Step(k, c, e).0;
      && (Active(c', request) <==> !Completes(k, c, e)) && c'.pending.Some?
      && (Completes(k, c, e) ==>
            && c'.conversation == c.conversation + ToolMessages(k, EntriesAfter(k, c, e))
            && AllAdvance(c.pending.value.results, EntriesAfter(k, c, e)))
  {
    hide Step, EntryAfter, Matches, Edited, FlightValid, AllAdvance;
    ToolStep(k, c, e);
    var d := EditOf(k, c, e);
    if d.Edit? {
      EditedStays(k, c, d);
      EditedMoves(k, c, d);
      EditedConversation(k, c, d);
      EntryAdvances(k, c.pending.value.id, c.pending.value.results[d.at], e);
      UpdateAdvances(c.pending.value.results, d.at, d.entry);
    }
  }

  lemma UpdateWritesOnce(rs: seq<Entry>, i: nat, r: Entry)
    requires i < |rs| && (rs[i].outcome.Some? ==> r.outcome == rs[i].outcome)
    ensures WriteOnce(rs, rs[i := r])
  {
  }

  /** Without a race, completing the turn keeps what was recorded. */
  lemma CompletesOnce(k: Codec, c: Core, e: Event)
    requires Unraced(c) && !Races(k, c, e) && Completes(k, c, e)
    ensures WriteOnce(c.pending.value.results, EntriesAfter(k, c, e))
  {
    hide EntryAfter, Matches, WriteOnce;
    var d := EditOf(k, c, e);
    EntryOutcome(k, c.pending.value.id, c.pending.value.results[d.at], e);
    UpdateWritesOnce(c.pending.value.results, d.at, d.entry);
  }

  /** Once given up, the next message is a prompt. */
  lemma {:induction false} IdleThenPrompt(k: Codec, c: Core, es: seq<Event>)
    requires Valid(c) && c.pending.None?
    ensures
      var ms := Run(k, c, es).0.conversation;
      Extends(c.conversation, ms) && (|ms| > |c.conversation| ==> ms[|c.conversation|].User?)
    decreases |es|
  {
    hide Step, Valid;
    if es != [] {
      var c1 := Step(k, c, es[0]).0;
      StepKeeps(k, c, es[0]);
      StepTalk(k, c, es[0]);
      if c1.pending.None? && c1.conversation == c.conversation {
        IdleThenPrompt(k, c1, es[1..]);
      } else {
        RunExtends(k, c1, es[1..]);
        var ms := Run(k, c, es).0.conversation;
        assert ms[..|c1.conversation|] == c1.conversation;
        ExtendsTrans(c.conversation, c1.conversation, ms);
        IdleStep(k, c, es[0]);
        assert ms[|c.conversation|] == ms[..|c1.conversation|][|c.conversation|];
      }
    }
  }

  lemma IdleStep(k: Codec, c: Core, e: Event)
    requires Valid(c) && c.pending.None?
    ensures
      var c' := Step(k, c, e).0;
      (c'.pending.None? && c'.conversation == c.conversation)
      || (|c'.conversation| > |c.conversation| && c'.conversation[|c.conversation|].User?)
  {
    hide Step, Valid;
    StepTalk(k, c, e);
  }

  lemma {:induction false} RunExtends(k: Codec, c: Core, es: seq<Event>)
    requires Valid(c)
    ensures Extends(c.conversation, Run(k, c, es).0.conversation)
    decreases |es|
  {
    hide Step, Valid, Extends;
    if es == [] {
      AppendExtends(c.conversation, []);
      assert c.conversation + [] == c.conversation;
    } else {
      var c1 := Step(k, c, es[0]).0;
      StepKeeps(k, c, es[0]);
      StepTalk(k, c, es[0]);
      RunExtends(k, c1, es[1..]);
      ExtendsTrans(c.conversation, c1.conversation, Run(k, c, es).0.conversation);
    }
  }

  // ---- whole runs ----

  /** A completion seen from one event earlier. */
  lemma CompletedLater(k: Codec, c: Core, es: seq<Event>, request: nat, i: nat)
    requires es != []
    ensures CompletedAt(k, c, es, request, i + 1) <==> CompletedAt(k, Step(k, c, es[0]).0, es[1..], request, i)
    ensures i + 1 < |es| ==> FinalEntries(k, c, es, i + 1) == FinalEntries(k, Step(k, c, es[0]).0, es[1..], i)
  {
    hide Step, Completes, EntriesAfter;
    if i + 1 < |es| { assert es[..i + 1][0] == es[0] && es[..i + 1][1..] == es[1..][..i]; }
  }

  lemma CompletedFirst(k: Codec, c: Core, es: seq<Event>, request: nat)
    requires es != [] && RunsTools(c, request)
    ensures CompletedAt(k, c, es, request, 0) <==> Completes(k, c, es[0])
    ensures FinalEntries(k, c, es, 0) == EntriesAfter(k, c, es[0])
  {
    assert es[..0] == [];
  }

  lemma {:induction false} ActiveAllAlong(k: Codec, c: Core, es: seq<Event>, request: nat)
    requires Valid(c) && request < c.nextId && Active(Run(k, c, es).0, request)
    ensures Active(c, request)
    decreases |es|
  {
    hide Step, Valid;
    if es != [] {
      StepKeeps(k, c, es[0]);
      StepIdsGrow(k, c, es[0]);
      ActiveAllAlong(k, Step(k, c, es[0]).0, es[1..], request);
      ActiveBefore(k, c, es[0], request);
    }
  }

  /** The outcomes recorded by event `i` and before stand in the conversation for good. */
  predicate ToldAt(k: Codec, c: Core, es: seq<Event>, ms: seq<Msg>, i: nat)
    requires i < |es| && c.pending.Some?
  {
    var rs, final := c.pending.value.results, FinalEntries(k, c, es, i);
    && AnsweredBy(k, ms, |c.conversation|, final) && AllAdvance(rs, final)
    && (Unraced(c) && RaceFree(k, c, es) ==> WriteOnce(rs, final))
  }

  lemma CompletesResolved(k: Codec, c: Core, e: Event)
    requires Completes(k, c, e)
    ensures AllResolved(EntriesAfter(k, c, e)) && EntriesAfter(k, c, e) != []
  {
  }

  lemma {:induction false} CompletionIsTold(k: Codec, c: Core, es: seq<Event>, request: nat, i: nat)
    requires Valid(c) && RunsTools(c, request) && CompletedAt(k, c, es, request, i)
    ensures ToldAt(k, c, es, Run(k, c, es).0.conversation, i)
    decreases |es|
  {
    var c1, ms := Step(k, c, es[0]).0, Run(k, c, es).0.conversation;
    StepKeeps(k, c, es[0]);
    StepTells(k, c, es[0], request);
    CompletedFirst(k, c, es, request);
    if i == 0 {
      hide Step, Valid, AllAdvance, AnsweredBy, Completes, EntriesAfter, CompletedAt, WriteOnce, Unraced, Races;
      CompletesResolved(k, c, es[0]);
      AnsweredNow(k, c.conversation, EntriesAfter(k, c, es[0]));
      RunExtends(k, c1, es[1..]);
      AnsweredLater(k, c1.conversation, ms, |c.conversation|, EntriesAfter(k, c, es[0]));
      if Unraced(c) && RaceFree(k, c, es) { CompletesOnce(k, c, es[0]); }
    } else {
      StillActive(k, c, es, request, i);
      hide Step, Valid, AllAdvance, AnsweredBy, Completes, EntriesAfter, CompletedAt, WriteOnce, Unraced, Races;
      CompletedLater(k, c, es, request, i - 1);
      CompletionIsTold(k, c1, es[1..], request, i - 1);
      var rs, rs1 := c.pending.value.results, c1.pending.value.results;
      AdvanceTrans(rs, rs1, FinalEntries(k, c, es, i));
      if Unraced(c) && RaceFree(k, c, es) {
        StepWritesOnce(k, c, es[0], request);
        WriteOnceTrans(rs, rs1, FinalEntries(k, c, es, i));
      }
    }
  }

  lemma StillActive(k: Codec, c: Core, es: seq<Event>, request: nat, i: nat)
    requires Valid(c) && RunsTools(c, request) && 0 < i && CompletedAt(k, c, es, request, i)
    ensures Active(Step(k, c, es[0]).0, request)
  {
    hide Step, Completes;
    StepKeeps(k, c, es[0]);
    StepIdsGrow(k, c, es[0]);
    CompletedLater(k, c, es, request, i - 1);
    ActiveAllAlong(k, Step(k, c, es[0]).0, es[1..][..i - 1], request);
  }

  lemma {:induction false} AnswersComeFrom(k: Codec, c: Core, es: seq<Event>, request: nat) returns (i: nat)
    requires Valid(c) && RunsTools(c, request)
    ensures Answered(Run(k, c, es).0.conversation, |c.conversation|) ==> CompletedAt(k, c, es, request, i)
    decreases |es|
  {
    hide Step, Valid, AllAdvance, Completes, EntriesAfter, CompletedAt;
    i := 0;
    if es != [] {
      var c1 := Step(k, c, es[0]).0;
      StepKeeps(k, c, es[0]);
      StepTells(k, c, es[0], request);
      if Active(c1, request) {
        var more := AnswersComeFrom(k, c1, es[1..], request);
        i := more + 1;
        CompletedLater(k, c, es, request, more);
      } else if c1.pending.None? {
        IdleThenPrompt(k, c1, es[1..]);
      } else {
        CompletedFirst(k, c, es, request);
      }
    }
  }

  /** Over every run: the calls of a tool turn are answered in the conversation if and only if some event completes
      the turn. The answers then are, one for each entry and in order, the outcomes of the entries that event
      leaves, the last one included; and where no result lands on a waiting call, every outcome recorded earlier is
      among them unchanged. */
  lemma AnswersAreOutcomes(k: Codec, workspace: string, before: seq<Event>, es: seq<Event>, request: nat)
    requires RunsTools(Run(k, INITIAL.(workspace := workspace), before).0, request)
    ensures
      var c0 := INITIAL.(workspace := workspace);
      var c := Run(k, c0, before).0;
      var ms := Run(k, c, es).0.conversation;
      && (Answered(ms, |c.conversation|) <==> exists i :: CompletedAt(k, c, es, request, i))
      && (forall i :: CompletedAt(k, c, es, request, i) ==> ToldAt(k, c, es, ms, i))
      && (RaceFree(k, c0, before) ==> Unraced(c))
  {
    hide Step, Run, RaceFree, Races, ToldAt, Completes;
    var c0 := INITIAL.(workspace := workspace);
    var c := Run(k, c0, before).0;
    RunKeeps(k, c0, before);
    if RaceFree(k, c0, before) { RunUnraced(k, c0, before); }
    var j := AnswersComeFrom(k, c, es, request);
    forall i | CompletedAt(k, c, es, request, i)
      ensures ToldAt(k, c, es, Run(k, c, es).0.conversation, i)
      ensures Answered(Run(k, c, es).0.conversation, |c.conversation|)
    {
      CompletionIsTold(k, c, es, request, i);
      ToldStarts(k, c, es, Run(k, c, es).0.conversation, request, i);
    }
  }

  lemma ToldStarts(k: Codec, c: Core, es: seq<Event>, ms: seq<Msg>, request: nat, i: nat)
    requires c.pending.Some? && CompletedAt(k, c, es, request, i) && ToldAt(k, c, es, ms, i)
    ensures Answered(ms, |c.conversation|)
  {
    hide AllAdvance, WriteOnce;
    CompletesResolved(k, Run(k, c, es[..i]).0, es[i]);
    AnswersStart(k, ms, |c.conversation|, FinalEntries(k, c, es, i));
  }

  /** The calls of the request in flight, and what becomes of them when it finishes. */
  function Ruled(k: Codec, c: Core): seq<Entry>
    requires c.pending.Some?
  {
    BatchOf(k, Counted(c, FinishesCommitted), FinalCalls(c.pending.value.slots)).entries
  }

  lemma WaitingFinish(k: Codec, c: Core, request: nat)
    requires Streams(c, request) && c.pending.value.slots != map[] && !AllResolved(Ruled(k, c))
    ensures
      var c' := Step(k, c, Finish(request, Some("tool_calls"))).0;
      RunsTools(c', request) && c'.pending.value.results == Ruled(k, c)
  {
    hide Dispatch, FinalCalls, TooLarge, AllResolved, ApprovalOpen;
  }

  lemma RuledShape(k: Codec, c: Core)
    requires c.pending.Some? && AllResolved(Ruled(k, c))
    ensures
      var calls, rs := FinalCalls(c.pending.value.slots), Ruled(k, c);
      |rs| == |calls| && forall j :: 0 <= j < |rs| ==> rs[j].callId == calls[j].id && rs[j].outcome.value.Err?
  {
    var calls := FinalCalls(c.pending.value.slots);
    DispatchShape(k, c.workspace, c.pending.value.id, TooLarge(c.pending.value.slots), calls,
                  Batch([], [], c.callsThisTurn, Counted(c, FinishesCommitted).metrics));
    hide Dispatch, FinalCalls, TooLarge;
    forall j | 0 <= j < |calls| ensures Started(calls[j], Ruled(k, c)[j]) {
      assert Ruled(k, c)[0 + j] == Ruled(k, c)[j];
    }
  }

  /** A finish whose calls are all refused answers them at once: one error each, in call order, and for good. */
  lemma RefusalsAreTold(k: Codec, c: Core, request: nat, es: seq<Event>)
    requires Valid(c) && Streams(c, request) && c.pending.value.slots != map[] && AllResolved(Ruled(k, c))
    ensures
      var calls, rs := FinalCalls(c.pending.value.slots), Ruled(k, c);
      var ms := Run(k, c, [Finish(request, Some("tool_calls"))] + es).0.conversation;
      && |rs| == |calls| && (forall j :: 0 <= j < |rs| ==> rs[j].callId == calls[j].id && rs[j].outcome.value.Err?)
      && |ms| > |c.conversation| && ms[|c.conversation|] == Assistant(c.pending.value.response.content, calls)
      && AnsweredBy(k, ms, |c.conversation| + 1, rs)
  {
    hide Step, Run, Valid, FinalCalls, BatchOf, AnsweredBy, AllResolved;
    var e := Finish(request, Some("tool_calls"));
    var rs, c1 := Ruled(k, c), Step(k, c, e).0;
    var asked := c.conversation + [Assistant(c.pending.value.response.content, FinalCalls(c.pending.value.slots))];
    FinishParts(k, c, request);
    RuledShape(k, c);
    StepKeeps(k, c, e);
    RunCons(k, c, e, es);
    RunExtends(k, c1, es);
    var ms := Run(k, c, [e] + es).0.conversation;
    AnsweredNow(k, asked, rs);
    AnsweredLater(k, c1.conversation, ms, |asked|, rs);
    assert ms[|c.conversation|] == ms[..|c1.conversation|][|c.conversation|];
  }

  lemma RunCons(k: Codec, c: Core, e: Event, es: seq<Event>)
    ensures Run(k, c, [e] + es).0 == Run(k, Step(k, c, e).0, es).0
  {
    hide Step;
    assert ([e] + es)[0] == e && ([e] + es)[1..] == es;
  }

  // ---- an outcome that is lost ----

  function AskFor(index: nat, id: string, args: string): Event {
    ToolCallDelta(0, index, Some(id), Some("command"), Some(args))
  }

  /** A prompt, and a reply that asks for two commands. */
  function TwoCommands(args: string): seq<Event> {
    [UserMessage("go"), AskFor(0, "a", args), AskFor(1, "b", args), Finish(0, Some("tool_calls"))]
  }

  function WaitingCommand(id: string, args: string, command: CommandInvocation): Entry {
    NewEntry(ToolCall(id, "command", args)).(
      approval := Pending, commandPreview := Some(CommandPreview(command.argv, "")))
  }

  lemma TwoAscend()
    ensures Ascending({0, 1}) == [0, 1]
  {
    AscendingSorted({0, 1});
    var r := Ascending({0, 1});
    assert |{0, 1}| == 2 && 0 in r && 1 in r;
  }

  lemma TwoStream(k: Codec, args: string)
    requires Utf8Len(args) <= ARGUMENTS_MAX_BYTES
    ensures
      var c := Run(k, INITIAL, TwoCommands(args)[..3]).0;
      && Streams(c, 0) && c.callsThisTurn == 0 && c.workspace == ""
      && c.pending.value.slots == TwoSlots(args)
  {
    var es := TwoCommands(args)[..3];
    assert es[1..][1..] == [AskFor(1, "b", args)] && es[1..] == [AskFor(0, "a", args), AskFor(1, "b", args)];
    assert "" + args == args && Utf8Len("") == 0;
    var c1 := Step(k, INITIAL, es[0]).0;
    var c2 := Step(k, c1, es[1]).0;
    var c3 := Step(k, c2, es[2]).0;
    assert c2.pending.value.slots == map[0 := Slot(Some("a"), Some("command"), args, false)];
    assert Run(k, c3, []).0 == c3;
    assert Run(k, c2, [es[2]]).0 == c3;
    assert Run(k, c1, es[1..]).0 == c3;
  }

  function TwoSlots(args: string): map<nat, Slot> {
    map[0 := Slot(Some("a"), Some("command"), args, false), 1 := Slot(Some("b"), Some("command"), args, false)]
  }

  lemma TwoCalls(args: string)
    ensures FinalCalls(TwoSlots(args)) == [ToolCall("a", "command", args), ToolCall("b", "command", args)]
    ensures TooLarge(TwoSlots(args)) == {}
  {
    TwoAscend();
    assert TwoSlots(args).Keys == {0, 1};
  }

  lemma TwoEntries(k: Codec, args: string, calls: seq<ToolCall>, metrics: multiset<Counter>)
    requires k.parseCommand(args).Ok? && calls == [ToolCall("a", "command", args), ToolCall("b", "command", args)]
    ensures
      var command := k.parseCommand(args).value;
      Dispatch(k, "", 0, {}, calls, Batch([], [], 0, metrics)).entries ==
      [WaitingCommand("a", args, command), WaitingCommand("b", args, command)]
  {
    var b0 := Batch([], [], 0, metrics);
    var b1 := DispatchOne(k, "", 0, {}, calls[0], b0);
    var b2 := DispatchOne(k, "", 0, {}, calls[1], b1);
    assert calls[1..] == [calls[1]] && calls[1..][1..] == [];
    assert Dispatch(k, "", 0, {}, calls[1..], b1) == b2;
  }

  lemma TwoFinish(k: Codec, c: Core, args: string)
    requires Streams(c, 0) && c.callsThisTurn == 0 && c.workspace == "" && k.parseCommand(args).Ok?
    requires c.pending.value.slots == TwoSlots(args)
    ensures
      var c' := Step(k, c, Finish(0, Some("tool_calls"))).0;
      var command := k.parseCommand(args).value;
      RunsTools(c', 0)
      && c'.pending.value.results == [WaitingCommand("a", args, command), WaitingCommand("b", args, command)]
  {
    TwoRuled(k, c, args);
    WaitingIs("a", args, k.parseCommand(args).value);
    assert Ruled(k, c)[0].outcome.None?;
    hide Ruled, TwoSlots, WaitingCommand, Step;
    WaitingFinish(k, c, 0);
  }

  lemma TwoRuled(k: Codec, c: Core, args: string)
    requires Streams(c, 0) && c.callsThisTurn == 0 && c.workspace == "" && k.parseCommand(args).Ok?
    requires c.pending.value.slots == TwoSlots(args)
    ensures
      var command := k.parseCommand(args).value;
      Ruled(k, c) == [WaitingCommand("a", args, command), WaitingCommand("b", args, command)]
    ensures c.pending.value.slots != map[]
  {
    assert 0 in TwoSlots(args);
    hide Dispatch, FinalCalls, TooLarge, TwoSlots, WaitingCommand;
    TwoCalls(args);
    TwoEntries(k, args, FinalCalls(TwoSlots(args)), Counted(c, FinishesCommitted).metrics);
  }

  lemma TwoParts(args: string)
    ensures |TwoCommands(args)| == 4
    ensures TwoCommands(args) == TwoCommands(args)[..3] + [Finish(0, Some("tool_calls"))]
  {
  }

  lemma InitialIsValid()
    ensures Valid(INITIAL)
  {
  }

  lemma WaitingIs(id: string, args: string, command: CommandInvocation)
    ensures
      var r := WaitingCommand(id, args, command);
      r.callId == id && r.name == "command" && r.approval == Pending && r.outcome.None?
  {
  }

  /** The lost outcome is reached from the start: two commands wait, a result for the first is recorded, and its
      rejection replaces it. */
  lemma LostOutcomeIsReached(k: Codec, args: string, text: string)
    requires Utf8Len(args) <= ARGUMENTS_MAX_BYTES && k.parseCommand(args).Ok?
    ensures
      var c := Run(k, INITIAL, TwoCommands(args)).0;
      var c1 := Step(k, c, ToolResult(0, "a", Ok(text))).0;
      var c2 := Step(k, c1, RejectToolCall("a")).0;
      var command := k.parseCommand(args).value;
      && RunsTools(c, 0) && RunsTools(c1, 0) && RunsTools(c2, 0)
      && c.pending.value.results == [WaitingCommand("a", args, command), WaitingCommand("b", args, command)]
      && c1.pending.value.results != [] && c1.pending.value.results[0].outcome == Some(Ok(text))
      && c2.pending.value.results != [] && c2.pending.value.results[0].outcome == Some(RejectionOf("command"))
  {
    hide Step, Run, Valid, TwoCommands, WaitingCommand, INITIAL, RejectionOf, Utf8Len;
    var es, command := TwoCommands(args), k.parseCommand(args).value;
    TwoParts(args);
    TwoStream(k, args);
    TwoFinish(k, Run(k, INITIAL, es[..3]).0, args);
    InitialIsValid();
    RunKeeps(k, INITIAL, es);
    RunSnoc(k, INITIAL, es[..3], Finish(0, Some("tool_calls")));
    WaitingIs("a", args, command);
    WaitingIs("b", args, command);
    ResultThenRejectionLosesIt(k, Run(k, INITIAL, es).0, 0, 0, 1, text);
  }
}
