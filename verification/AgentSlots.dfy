/** What streaming assembles: content and tool calls as plain concatenations of the fragments received,
    and which of those calls may run. */
module AgentSlots {
  import opened Options
  import opened Transcript
  import opened Invocations
  import opened Agent
  import opened AgentInvariant
  import opened AgentSteps
  import opened AgentTranscript
  import opened AgentErasure

  // ---- the stream, by request and index ----

  function Joined(parts: seq<string>): string {
    if parts == [] then "" else Joined(parts[..|parts| - 1]) + parts[|parts| - 1]
  }

  /** The longest prefix of the fragments that fits the limit. */
  function Kept(parts: seq<string>): seq<string> {
    if parts == [] || Utf8Len(Joined(parts)) <= ARGUMENTS_MAX_BYTES then parts else Kept(parts[..|parts| - 1])
  }

  predicate IsDelta(e: Event, request: nat, index: nat) {
    e.ToolCallDelta? && e.request == request && e.index == index
  }

  /** The values of a stream of optional parts. */
  function Values<T>(parts: seq<Option<T>>): seq<T> {
    if parts == [] then []
    else
      var last := parts[|parts| - 1];
      Values(parts[..|parts| - 1]) + if last.Some? then [last.value] else []
  }

  function FirstValue<T>(parts: seq<Option<T>>): Option<T> {
    if parts == [] then None
    else
      var first := FirstValue(parts[..|parts| - 1]);
      if first.Some? then first else parts[|parts| - 1]
  }

  datatype Field = IdField | NameField | FragmentField | TextField

  /** One field of the events of a request, in arrival order; for tool calls, of one index. */
  function FieldOf(f: Field, e: Event, request: nat, index: nat): seq<Option<string>> {
    if f == TextField then
      if e.ContentDelta? && e.request == request then [Some(e.text)] else []
    else if !IsDelta(e, request, index) then []
    else [if f == IdField then e.id else if f == NameField then e.name else e.fragment]
  }

  function Fields(f: Field, es: seq<Event>, request: nat, index: nat): seq<Option<string>> {
    if es == [] then []
    else Fields(f, es[..|es| - 1], request, index) + FieldOf(f, es[|es| - 1], request, index)
  }

  /** The fragments of a call, and the indices seen. */
  function Fragments(es: seq<Event>, request: nat, index: nat): seq<string> {
    Values(Fields(FragmentField, es, request, index))
  }

  function Indices(es: seq<Event>, request: nat): set<nat> {
    set i | 0 <= i < |es| && es[i].ToolCallDelta? && es[i].request == request :: es[i].index
  }

  /** What a slot should hold: the first id and name given, and as many whole fragments as fit. */
  function SlotSpec(es: seq<Event>, request: nat, index: nat): Slot {
    var parts := Fragments(es, request, index);
    Slot(FirstValue(Fields(IdField, es, request, index)),
         FirstValue(Fields(NameField, es, request, index)),
         Joined(Kept(parts)),
         Utf8Len(Joined(parts)) > ARGUMENTS_MAX_BYTES)
  }

  function SlotsSpec(es: seq<Event>, request: nat): map<nat, Slot> {
    map i | i in Indices(es, request) :: SlotSpec(es, request, i)
  }

  function TextSpec(es: seq<Event>, request: nat): string { Joined(Values(Fields(TextField, es, request, 0))) }

  // ---- lengths ----

  lemma {:induction false} Utf8LenAppend(a: string, b: string)
    ensures Utf8Len(a + b) == Utf8Len(a) + Utf8Len(b)
  {
    if a == "" {
      assert a + b == b;
    } else {
      assert (a + b)[0] == a[0] && (a + b)[1..] == a[1..] + b;
      Utf8LenAppend(a[1..], b);
    }
  }

  lemma JoinedSnoc(parts: seq<string>, p: string)
    ensures Joined(parts + [p]) == Joined(parts) + p
    ensures Utf8Len(Joined(parts + [p])) == Utf8Len(Joined(parts)) + Utf8Len(p)
  {
    assert (parts + [p])[..|parts|] == parts;
    Utf8LenAppend(Joined(parts), p);
  }

  lemma KeptSnoc(parts: seq<string>, p: string)
    ensures Kept(parts + [p]) ==
      if Utf8Len(Joined(parts)) + Utf8Len(p) <= ARGUMENTS_MAX_BYTES then parts + [p] else Kept(parts)
  {
    JoinedSnoc(parts, p);
    assert (parts + [p])[..|parts|] == parts;
  }

  /** `Kept` is the longest prefix that fits: it fits, and one more fragment would not. */
  lemma {:induction false} KeptIsLongest(parts: seq<string>)
    ensures
      var n := |Kept(parts)|;
      && n <= |parts| && Kept(parts) == parts[..n]
      && Utf8Len(Joined(Kept(parts))) <= ARGUMENTS_MAX_BYTES
      && (n < |parts| ==> Utf8Len(Joined(parts[..n + 1])) > ARGUMENTS_MAX_BYTES)
  {
    hide Utf8Len, Joined, Kept;
    KeptUnroll(parts);
    if parts != [] && Utf8Len(Joined(parts)) > ARGUMENTS_MAX_BYTES {
      var rest := parts[..|parts| - 1];
      KeptIsLongest(rest);
      var n := |Kept(rest)|;
      assert rest[..n] == parts[..n];
      if n < |rest| { assert rest[..n + 1] == parts[..n + 1]; } else { assert parts[..n + 1] == parts; }
    } else {
      assert parts[..|parts|] == parts;
    }
  }

  lemma KeptUnroll(parts: seq<string>)
    ensures Kept(parts) ==
      if parts == [] || Utf8Len(Joined(parts)) <= ARGUMENTS_MAX_BYTES then parts else Kept(parts[..|parts| - 1])
    ensures parts == [] ==> Utf8Len(Joined(parts)) == 0
  {
  }

  // ---- one delta ----

  lemma FieldsSnoc(f: Field, es: seq<Event>, e: Event, request: nat, index: nat)
    ensures Fields(f, es + [e], request, index) == Fields(f, es, request, index) + FieldOf(f, e, request, index)
  {
    assert (es + [e])[..|es|] == es;
  }

  lemma ValuesSnoc<T>(parts: seq<Option<T>>, p: Option<T>)
    ensures Values(parts + [p]) == Values(parts) + if p.Some? then [p.value] else []
    ensures FirstValue(parts + [p]) == FirstOf(FirstValue(parts), p)
  {
    assert (parts + [p])[..|parts|] == parts;
  }

  /** An event of another index or kind leaves a slot's specification alone. */
  lemma SlotSpecOther(es: seq<Event>, e: Event, request: nat, index: nat)
    requires !IsDelta(e, request, index)
    ensures SlotSpec(es + [e], request, index) == SlotSpec(es, request, index)
  {
    hide Kept, Joined, Values, FirstValue, Fields;
    FieldsSnoc(IdField, es, e, request, index);
    FieldsSnoc(NameField, es, e, request, index);
    FieldsSnoc(FragmentField, es, e, request, index);
    forall f: Field | f != TextField ensures Fields(f, es + [e], request, index) == Fields(f, es, request, index) {
      FieldsSnoc(f, es, e, request, index);
      assert Fields(f, es, request, index) + [] == Fields(f, es, request, index);
    }
  }

  lemma NoDeltasNoSlot(es: seq<Event>, request: nat, index: nat)
    requires index !in Indices(es, request)
    ensures SlotSpec(es, request, index) == EMPTY_SLOT
  {
    forall f: Field | f != TextField ensures Fields(f, es, request, index) == [] {
      NoDeltasNoField(f, es, request, index);
    }
  }

  lemma {:induction false} NoDeltasNoField(f: Field, es: seq<Event>, request: nat, index: nat)
    requires index !in Indices(es, request) && f != TextField
    ensures Fields(f, es, request, index) == []
  {
    if es != [] {
      var n := |es| - 1;
      assert es[n].ToolCallDelta? && es[n].request == request ==> es[n].index in Indices(es, request);
      assert forall i :: 0 <= i < n ==> es[..n][i] == es[i];
      NoDeltasNoField(f, es[..n], request, index);
    }
  }

  lemma MergeFragment(slot: Slot, parts: seq<string>, p: string)
    requires slot.args == Joined(Kept(parts)) && slot.overLimit == (Utf8Len(Joined(parts)) > ARGUMENTS_MAX_BYTES)
    ensures
      var s := Merge(slot, None, None, Some(p));
      && s.args == Joined(Kept(parts + [p]))
      && s.overLimit == (Utf8Len(Joined(parts + [p])) > ARGUMENTS_MAX_BYTES)
  {
    hide Utf8Len;
    JoinedSnoc(parts, p);
    KeptSnoc(parts, p);
  }

  lemma MergeIsSpec(es: seq<Event>, e: Event, request: nat, index: nat)
    requires IsDelta(e, request, index)
    ensures SlotSpec(es + [e], request, index) == Merge(SlotSpec(es, request, index), e.id, e.name, e.fragment)
  {
    hide Kept, Joined, Values, FirstValue, Fields, Utf8Len;
    FieldsSnoc(IdField, es, e, request, index);
    FieldsSnoc(NameField, es, e, request, index);
    FieldsSnoc(FragmentField, es, e, request, index);
    ValuesSnoc(Fields(IdField, es, request, index), e.id);
    ValuesSnoc(Fields(NameField, es, request, index), e.name);
    ValuesSnoc(Fields(FragmentField, es, request, index), e.fragment);
    var parts := Fragments(es, request, index);
    if e.fragment.Some? { MergeFragment(SlotSpec(es, request, index), parts, e.fragment.value); }
    else { assert parts + [] == parts; }
  }

  lemma IndicesSnoc(es: seq<Event>, e: Event, request: nat)
    ensures Indices(es + [e], request) ==
      Indices(es, request) + if e.ToolCallDelta? && e.request == request then {e.index} else {}
  {
    var es' := es + [e];
    forall x ensures x in Indices(es', request) <==>
      x in Indices(es, request) || (e.ToolCallDelta? && e.request == request && x == e.index)
    {
      if x in Indices(es, request) {
        var i :| 0 <= i < |es| && es[i].ToolCallDelta? && es[i].request == request && es[i].index == x;
        assert es'[i] == es[i];
      }
      if e.ToolCallDelta? && e.request == request && x == e.index { assert es'[|es|] == e; }
    }
  }

  /** What one event does to slots that agree with their specification. */
  lemma SlotsSnoc(es: seq<Event>, e: Event, request: nat)
    ensures SlotsSpec(es + [e], request) ==
      if e.ToolCallDelta? && e.request == request then
        SlotsSpec(es, request)[e.index := Merge(SlotAt(SlotsSpec(es, request), e.index), e.id, e.name, e.fragment)]
      else SlotsSpec(es, request)
  {
    hide SlotSpec, Merge, Indices;
    IndicesSnoc(es, e, request);
    forall i | i in Indices(es, request) && !IsDelta(e, request, i)
      ensures SlotSpec(es + [e], request, i) == SlotSpec(es, request, i)
    {
      SlotSpecOther(es, e, request, i);
    }
    if e.ToolCallDelta? && e.request == request {
      MergeIsSpec(es, e, request, e.index);
      if e.index !in Indices(es, request) { NoDeltasNoSlot(es, request, e.index); }
    }
  }

  lemma TextSnoc(es: seq<Event>, e: Event, request: nat)
    ensures TextSpec(es + [e], request) ==
      TextSpec(es, request) + if e.ContentDelta? && e.request == request then e.text else ""
  {
    hide Values, Joined, Fields, Utf8Len;
    var parts := Fields(TextField, es, request, 0);
    FieldsSnoc(TextField, es, e, request, 0);
    if e.ContentDelta? && e.request == request {
      ValuesSnoc(parts, Some(e.text));
      JoinedSnoc(Values(parts), e.text);
    } else {
      assert parts + [] == parts;
    }
  }

  // ---- a whole stream ----

  /** A flight that streams after a step streamed before it, and the step did one of three things. */
  lemma StreamStep(k: Codec, c: Core, e: Event, request: nat)
    requires Valid(c) && request < c.nextId && Streams(Step(k, c, e).0, request)
    ensures Streams(c, request)
    ensures
      var p, p' := c.pending.value, Step(k, c, e).0.pending.value;
      && p'.slots == (if e.ToolCallDelta? && e.request == request
                      then p.slots[e.index := Merge(SlotAt(p.slots, e.index), e.id, e.name, e.fragment)] else p.slots)
      && p'.response.content == p.response.content + (if e.ContentDelta? && e.request == request then e.text else "")
      && Step(k, c, e).0.conversation == c.conversation
  {
    hide Merge, AllResolved, ApprovalOpen, FlightValid, StartIds;
    if ToolEvent(e) { ToolStreams(k, c, e, request); }
    else if e.Finish? { FinishStreams(k, c, e, request); }
  }

  lemma ToolStreams(k: Codec, c: Core, e: Event, request: nat)
    requires Valid(c) && request < c.nextId && ToolEvent(e) && Streams(Step(k, c, e).0, request)
    ensures Step(k, c, e).0 == c.(metrics := Step(k, c, e).0.metrics)
  {
    hide Step, AllResolved, ApprovalOpen, FlightValid, EntryAfter;
    ToolStep(k, c, e);
  }

  lemma FinishStreams(k: Codec, c: Core, e: Event, request: nat)
    requires Valid(c) && request < c.nextId && e.Finish? && Streams(Step(k, c, e).0, request)
    ensures Step(k, c, e).0 == c.(metrics := Step(k, c, e).0.metrics)
  {
    hide AllResolved, ApprovalOpen, FlightValid, Dispatch, FinalCalls;
  }

  predicate JustStarted(c: Core, request: nat) {
    c.pending == Some(FreshFlight(request))
  }

  /** Whatever events arrive while a request streams: its buffered content is the concatenation of its
      texts, and its slots hold exactly what the fragments of each index add up to. */
  lemma {:induction false} StreamAssembles(k: Codec, c: Core, es: seq<Event>, request: nat)
    requires Valid(c) && JustStarted(c, request) && Streams(Run(k, c, es).0, request)
    ensures
      var c' := Run(k, c, es).0;
      && c'.pending.value.response.content == TextSpec(es, request)
      && c'.pending.value.slots == SlotsSpec(es, request)
      && c'.conversation == c.conversation
    decreases |es|
  {
    hide Step, Valid, Merge, SlotsSpec, TextSpec, Run;
    if es == [] {
      StreamsNothing(k, c, request);
    } else {
      var before, e := es[..|es| - 1], es[|es| - 1];
      assert es == before + [e];
      RunSnoc(k, c, before, e);
      RunKeeps(k, c, before);
      ValidStarted(c, request);
      RunIdsGrow(k, c, before);
      var c1 := Run(k, c, before).0;
      StreamStep(k, c1, e, request);
      StreamAssembles(k, c, before, request);
      SlotsSnoc(before, e, request);
      TextSnoc(before, e, request);
    }
  }

  lemma ValidStarted(c: Core, request: nat)
    requires Valid(c) && JustStarted(c, request)
    ensures request < c.nextId
  {
  }

  lemma RunIdsGrow(k: Codec, c: Core, es: seq<Event>)
    requires Valid(c)
    ensures c.nextId <= Run(k, c, es).0.nextId
  {
    hide Run;
    IdsAreConsecutive(k, c, es);
  }

  lemma StreamsNothing(k: Codec, c: Core, request: nat)
    requires JustStarted(c, request)
    ensures Run(k, c, []).0 == c
    ensures TextSpec([], request) == "" && SlotsSpec([], request) == map[]
    ensures c.pending.value.response.content == "" && c.pending.value.slots == map[]
  {
  }

  /** The same texts and, index by index, the same deltas, however they interleave. */
  ghost predicate SameStreams(es1: seq<Event>, es2: seq<Event>, request: nat) {
    && Indices(es1, request) == Indices(es2, request)
    && forall f: Field, i: nat :: Fields(f, es1, request, i) == Fields(f, es2, request, i)
  }

  lemma SameSpecs(es1: seq<Event>, es2: seq<Event>, request: nat)
    requires SameStreams(es1, es2, request)
    ensures SlotsSpec(es1, request) == SlotsSpec(es2, request) && TextSpec(es1, request) == TextSpec(es2, request)
  {
    hide Fields, Values, Joined, Kept, FirstValue, Indices;
    assert Fields(TextField, es1, request, 0) == Fields(TextField, es2, request, 0);
    forall i | i in Indices(es1, request) ensures SlotSpec(es1, request, i) == SlotSpec(es2, request, i) {
      assert Fields(IdField, es1, request, i) == Fields(IdField, es2, request, i);
      assert Fields(NameField, es1, request, i) == Fields(NameField, es2, request, i);
      assert Fields(FragmentField, es1, request, i) == Fields(FragmentField, es2, request, i);
    }
  }

  /** Only the order within an index matters to the buffered turn. */
  lemma InterleavingIsIrrelevant(k: Codec, c: Core, es1: seq<Event>, es2: seq<Event>, request: nat)
    requires Valid(c) && JustStarted(c, request)
    requires Streams(Run(k, c, es1).0, request) && Streams(Run(k, c, es2).0, request)
    requires SameStreams(es1, es2, request)
    ensures Run(k, c, es1).0.pending.value.slots == Run(k, c, es2).0.pending.value.slots
    ensures Run(k, c, es1).0.pending.value.response.content == Run(k, c, es2).0.pending.value.response.content
  {
    hide Run, Valid, SameStreams, SlotsSpec, TextSpec;
    StreamAssembles(k, c, es1, request);
    StreamAssembles(k, c, es2, request);
    SameSpecs(es1, es2, request);
  }

  // ---- the order of the committed calls ----

  /** `Ascending` lists each element once, in increasing order. */
  lemma {:induction false} AscendingSorted(s: set<nat>)
    ensures forall i, j :: 0 <= i < j < |s| ==> Ascending(s)[i] < Ascending(s)[j]
    ensures forall x :: x in s <==> x in Ascending(s)
  {
    if s != {} {
      var m := Least(s);
      AscendingSorted(s - {m});
      var rest := Ascending(s - {m});
      assert Ascending(s) == [m] + rest;
      forall i, j | 0 <= i < j < |s| ensures Ascending(s)[i] < Ascending(s)[j] {
        assert rest[j - 1] in rest;
        if i > 0 { assert rest[i - 1] < rest[j - 1]; }
      }
    }
  }

  // ---- what may run ----

  /** The call of an index, as committed. */
  function CallSpec(es: seq<Event>, request: nat, index: nat): ToolCall {
    var slot := SlotSpec(es, request, index);
    ToolCall(if slot.id.Some? then slot.id.value else "__missing_id__" + Decimal(index),
             if slot.name.Some? then slot.name.value else "", slot.args)
  }

  lemma CallSpecIs(es: seq<Event>, request: nat, index: nat)
    ensures CallSpec(es, request, index) == CallOf(index, SlotSpec(es, request, index))
  {
  }

  /** The number that decimal digits stand for. */
  function ValueOf(digits: string): nat {
    if digits == "" then 0
    else
      var d := digits[|digits| - 1];
      10 * ValueOf(digits[..|digits| - 1]) + if '0' <= d <= '9' then (d - '0') as nat else 0
  }

  /** An index is written in decimal digits, without a leading zero. */
  lemma {:induction false} DecimalReads(n: nat)
    ensures
      var s := Decimal(n);
      && s != "" && (forall d :: d in s ==> '0' <= d <= '9') && ValueOf(s) == n && (s[0] == '0' ==> s == "0")
      && (n > 0 ==> s[0] != '0')
  {
    if n < 10 {
      assert Decimal(n)[..0] == "";
    } else {
      DecimalReads(n / 10);
      var s := Decimal(n / 10);
      assert Decimal(n)[..|s|] == s;
    }
  }

  /** A finished tool turn commits one assistant message: the texts, and one call per index seen, in
      increasing index order, with the kept fragments as arguments. */
  lemma TurnCommitted(k: Codec, c: Core, es: seq<Event>, request: nat)
    requires Valid(c) && JustStarted(c, request) && Streams(Run(k, c, es).0, request)
    requires Indices(es, request) != {}
    ensures
      var c' := Step(k, Run(k, c, es).0, Finish(request, Some("tool_calls"))).0;
      var n := |c.conversation|;
      && |c'.conversation| > n && c'.conversation[..n] == c.conversation
      && c'.conversation[n].Assistant? && c'.conversation[n].content == TextSpec(es, request)
      && var calls := c'.conversation[n].calls;
      && |calls| == |Indices(es, request)|
      && forall j :: 0 <= j < |calls| ==> calls[j] == CallSpec(es, request, Ascending(Indices(es, request))[j])
  {
    hide Run, Valid, Indices, SlotSpec, TextSpec, Ascending, CallSpec, CallOf, Step, FinalCalls;
    StreamAssembles(k, c, es, request);
    var c1 := Run(k, c, es).0;
    AscendingSorted(Indices(es, request));
    assert c1.pending.value.slots.Keys == Indices(es, request);
    FinishCommits(k, c1, request);
    FinalCallsAre(c1.pending.value.slots);
    forall i | i in Indices(es, request)
      ensures CallSpec(es, request, i) == CallOf(i, c1.pending.value.slots[i])
    {
      CallSpecIs(es, request, i);
    }
  }

  lemma FinishCommits(k: Codec, c: Core, request: nat)
    requires Streams(c, request) && c.pending.value.slots != map[]
    ensures
      var p := c.pending.value;
      var ms := Step(k, c, Finish(request, Some("tool_calls"))).0.conversation;
      && |ms| > |c.conversation| && ms[..|c.conversation|] == c.conversation
      && ms[|c.conversation|] == Assistant(p.response.content, FinalCalls(p.slots))
  {
    hide Dispatch, AllResolved, ApprovalOpen, FinalCalls, TooLarge;
  }

  lemma FinalCallsAre(slots: map<nat, Slot>)
    ensures
      var order := Ascending(slots.Keys);
      |FinalCalls(slots)| == |order|
      && forall j :: 0 <= j < |order| ==> order[j] in slots && FinalCalls(slots)[j] == CallOf(order[j], slots[order[j]])
  {
    hide CallOf;
  }

  /** No slot ever exceeds the limit. */
  lemma SlotsBounded(k: Codec, c: Core, es: seq<Event>, request: nat, index: nat)
    requires Valid(c) && JustStarted(c, request) && Streams(Run(k, c, es).0, request)
    requires index in Run(k, c, es).0.pending.value.slots
    ensures Utf8Len(Run(k, c, es).0.pending.value.slots[index].args) <= ARGUMENTS_MAX_BYTES
  {
    hide Run, Valid, Kept;
    StreamAssembles(k, c, es, request);
    KeptIsLongest(Fragments(es, request, index));
  }

  /** The call starts: it lost no fragment and its arguments parse. */
  predicate Launches(k: Codec, request: nat, tooLarge: set<string>, call: ToolCall, a: Action) {
    && call.id !in tooLarge
    && if a.ExecuteTool? then
         a.request == request && a.callId == call.id && k.parseReadOnly(call.name, call.args) == Ok(a.tool)
       else
         a.PreviewPatch? && a.request == request && a.callId == call.id && call.name == "patch"
         && k.parsePatch(call.args) == Ok(a.patch)
  }

  lemma RuleLaunches(k: Codec, ws: string, request: nat, tooLarge: set<string>, used: nat, call: ToolCall)
    ensures
      var v := Rule(k, ws, request, call.id in tooLarge, used, call);
      && (forall i :: 0 <= i < |v.actions| ==> Launches(k, request, tooLarge, call, v.actions[i]))
      && (call.id in tooLarge ==> v.entry.outcome == Some(Err(ArgumentsTooLarge)))
  {
  }

  predicate LaunchedBy(k: Codec, request: nat, tooLarge: set<string>, calls: seq<ToolCall>, a: Action) {
    exists j :: 0 <= j < |calls| && Launches(k, request, tooLarge, calls[j], a)
  }

  /** Everything a dispatch emits is the launch of one of its calls. */
  lemma {:induction false} DispatchLaunches(k: Codec, ws: string, request: nat, tooLarge: set<string>,
                                            calls: seq<ToolCall>, b: Batch, a: Action)
    requires a in Dispatch(k, ws, request, tooLarge, calls, b).actions
    ensures a in b.actions || LaunchedBy(k, request, tooLarge, calls, a)
    decreases |calls|
  {
    hide Rule, Launches;
    if calls != [] {
      RuleLaunches(k, ws, request, tooLarge, b.used, calls[0]);
      DispatchLaunches(k, ws, request, tooLarge, calls[1..], DispatchOne(k, ws, request, tooLarge, calls[0], b), a);
      if LaunchedBy(k, request, tooLarge, calls[1..], a) {
        var j :| 0 <= j < |calls[1..]| && Launches(k, request, tooLarge, calls[1..][j], a);
        assert Launches(k, request, tooLarge, calls[j + 1], a);
      } else if a !in b.actions {
        assert Launches(k, request, tooLarge, calls[0], a);
      }
    }
  }

  lemma {:induction false} DispatchRefuses(k: Codec, ws: string, request: nat, tooLarge: set<string>,
                                           calls: seq<ToolCall>, b: Batch, j: nat)
    requires j < |calls| && calls[j].id in tooLarge
    ensures
      var b' := Dispatch(k, ws, request, tooLarge, calls, b);
      && |b'.entries| == |b.entries| + |calls|
      && b'.entries[|b.entries| + j].outcome == Some(Err(ArgumentsTooLarge))
      && b'.entries[|b.entries| + j].callId == calls[j].id
    decreases |calls|
  {
    hide Rule, Started;
    var b1 := DispatchOne(k, ws, request, tooLarge, calls[0], b);
    var b' := Dispatch(k, ws, request, tooLarge, calls, b);
    if j == 0 {
      RuleLaunches(k, ws, request, tooLarge, b.used, calls[0]);
      RuleStarts(k, ws, request, calls[0].id in tooLarge, b.used, calls[0]);
      StartedId(calls[0], b1.entries[|b.entries|]);
      DispatchShape(k, ws, request, tooLarge, calls[1..], b1);
      assert b'.entries[|b.entries|] == b'.entries[..|b1.entries|][|b.entries|];
    } else {
      assert calls[1..][j - 1] == calls[j];
      DispatchRefuses(k, ws, request, tooLarge, calls[1..], b1, j - 1);
    }
  }

  /** The finishing step of a streamed tool turn, on what was streamed. */
  lemma FinishParts(k: Codec, c: Core, request: nat)
    requires Streams(c, request) && c.pending.value.slots != map[]
    ensures
      var c0 := Counted(c, FinishesCommitted);
      var calls := FinalCalls(c.pending.value.slots);
      var b := BatchOf(k, c0, calls);
      var (c', actions) := Step(k, c, Finish(request, Some("tool_calls")));
      && (forall a | a in actions && (a.ExecuteTool? || a.PreviewPatch?) :: a in b.actions)
      && (if AllResolved(b.entries) then
            c'.conversation == c.conversation + [Assistant(c.pending.value.response.content, calls)] +
              ToolMessages(k, b.entries)
          else c'.pending.Some? && c'.pending.value.results == b.entries)
  {
    hide Dispatch, FinalCalls, ApprovalOpen, AllResolved;
  }

  /** A call that may run lost nothing: its arguments are all the fragments of its index, in order. */
  predicate RunsWhole(k: Codec, es: seq<Event>, request: nat, a: Action, index: nat) {
    var parts := Fragments(es, request, index);
    var call := CallSpec(es, request, index);
    && index in Indices(es, request)
    && Utf8Len(Joined(parts)) <= ARGUMENTS_MAX_BYTES
    && call.args == Joined(parts)
    && Launches(k, request, {}, call, a)
  }

  /** Whatever a finished turn starts, it starts on complete arguments. */
  lemma DispatchedArgumentsAreWhole(k: Codec, c: Core, es: seq<Event>, request: nat, a: Action)
    requires Valid(c) && JustStarted(c, request) && Streams(Run(k, c, es).0, request)
    requires Indices(es, request) != {}
    requires a in Step(k, Run(k, c, es).0, Finish(request, Some("tool_calls"))).1
    requires a.ExecuteTool? || a.PreviewPatch?
    ensures exists index :: RunsWhole(k, es, request, a, index)
  {
    hide Run, Valid, Indices, SlotSpec, TextSpec, Ascending, Dispatch, AllResolved, Launches, Step;
    StreamAssembles(k, c, es, request);
    var c1 := Run(k, c, es).0;
    var slots := c1.pending.value.slots;
    assert slots.Keys == Indices(es, request);
    AscendingSorted(slots.Keys);
    FinishParts(k, c1, request);
    var calls := FinalCalls(slots);
    DispatchLaunches(k, c1.workspace, request, TooLarge(slots), calls,
                     Batch([], [], c1.callsThisTurn, Counted(c1, FinishesCommitted).metrics), a);
    var j :| 0 <= j < |calls| && Launches(k, request, TooLarge(slots), calls[j], a);
    var i := Ascending(slots.Keys)[j];
    assert calls[j] == CallOf(i, slots[i]) == CallSpec(es, request, i);
    LaunchedIsWhole(k, es, request, slots, a, i);
    assert RunsWhole(k, es, request, a, i);
  }

  lemma LaunchedIsWhole(k: Codec, es: seq<Event>, request: nat, slots: map<nat, Slot>, a: Action, i: nat)
    requires slots == SlotsSpec(es, request) && i in slots
    requires Launches(k, request, TooLarge(slots), CallSpec(es, request, i), a)
    ensures RunsWhole(k, es, request, a, i)
  {
    hide Fragments, Fields, Indices;
    assert CallSpec(es, request, i).id == CallId(i, slots[i]);
    assert !slots[i].overLimit;
  }

  /** The calls of a streamed turn, as committed and as judged. */
  lemma TurnCalls(k: Codec, c: Core, es: seq<Event>, request: nat)
    requires Valid(c) && JustStarted(c, request) && Streams(Run(k, c, es).0, request)
    ensures
      var slots := Run(k, c, es).0.pending.value.slots;
      && Run(k, c, es).0.conversation == c.conversation
      && slots.Keys == Indices(es, request)
      && forall j :: 0 <= j < |slots| ==>
           var i := Ascending(slots.Keys)[j];
           && FinalCalls(slots)[j] == CallSpec(es, request, i)
           && (Utf8Len(Joined(Fragments(es, request, i))) > ARGUMENTS_MAX_BYTES ==>
                 FinalCalls(slots)[j].id in TooLarge(slots))
  {
    hide Run, Valid, Indices, Fragments, TextSpec, Ascending, Fields, Kept;
    StreamAssembles(k, c, es, request);
    var slots := Run(k, c, es).0.pending.value.slots;
    assert slots.Keys == Indices(es, request);
    forall j | 0 <= j < |slots|
      && Utf8Len(Joined(Fragments(es, request, Ascending(slots.Keys)[j]))) > ARGUMENTS_MAX_BYTES
      ensures FinalCalls(slots)[j].id in TooLarge(slots)
    {
      var i := Ascending(slots.Keys)[j];
      assert slots[i].overLimit && CallId(i, slots[i]) in TooLarge(slots);
    }
  }

  /** No launch carries an id that lost a fragment. */
  lemma NoLaunchOf(k: Codec, c: Core, request: nat, id: string, a: Action)
    requires Streams(c, request) && c.pending.value.slots != map[] && id in TooLarge(c.pending.value.slots)
    requires a in Step(k, c, Finish(request, Some("tool_calls"))).1 && (a.ExecuteTool? || a.PreviewPatch?)
    ensures a.callId != id
  {
    hide Dispatch, Launches, Step, FinalCalls, TooLarge, AllResolved;
    FinishParts(k, c, request);
    var slots := c.pending.value.slots;
    var calls := FinalCalls(slots);
    DispatchLaunches(k, c.workspace, request, TooLarge(slots), calls,
                     Batch([], [], c.callsThisTurn, Counted(c, FinishesCommitted).metrics), a);
    var m :| 0 <= m < |calls| && Launches(k, request, TooLarge(slots), calls[m], a);
    LaunchKeepsId(k, request, TooLarge(slots), calls[m], a);
  }

  /** The j-th call after message `n` has been answered with the size error, in the conversation or in
      the turn still running. */
  predicate SizeError(k: Codec, c: Core, n: nat, j: nat, id: string) {
    || (n + 1 + j < |c.conversation| && c.conversation[n + 1 + j] == Tool(id, k.errorJson(ArgumentsTooLarge)))
    || (c.pending.Some? && j < |c.pending.value.results|
        && c.pending.value.results[j].callId == id
        && c.pending.value.results[j].outcome == Some(Err(ArgumentsTooLarge)))
  }

  lemma RefusedInPlace(k: Codec, c: Core, request: nat, j: nat)
    requires Streams(c, request) && c.pending.value.slots != map[]
    requires j < |c.pending.value.slots| && FinalCalls(c.pending.value.slots)[j].id in TooLarge(c.pending.value.slots)
    ensures SizeError(k, Step(k, c, Finish(request, Some("tool_calls"))).0, |c.conversation|, j,
                      FinalCalls(c.pending.value.slots)[j].id)
  {
    hide Dispatch, Step, FinalCalls, TooLarge, AllResolved;
    FinishParts(k, c, request);
    var slots := c.pending.value.slots;
    FinalCount(slots);
    var calls := FinalCalls(slots);
    var b := Batch([], [], c.callsThisTurn, Counted(c, FinishesCommitted).metrics);
    DispatchRefuses(k, c.workspace, request, TooLarge(slots), calls, b, j);
    var entries := BatchOf(k, Counted(c, FinishesCommitted), calls).entries;
    if AllResolved(entries) {
      assert ToolMessages(k, entries)[j] == Tool(calls[j].id, k.errorJson(ArgumentsTooLarge));
    }
  }

  lemma FinalCount(slots: map<nat, Slot>)
    ensures |FinalCalls(slots)| == |slots|
  {
  }

  /** A call that lost a fragment is answered with an error on the spot and never started, nor is any
      call that shares its id. */
  lemma CutCallsAreRefused(k: Codec, c: Core, es: seq<Event>, request: nat, j: nat)
    requires Valid(c) && JustStarted(c, request) && Streams(Run(k, c, es).0, request)
    requires j < |Indices(es, request)|
    requires Utf8Len(Joined(Fragments(es, request, Ascending(Indices(es, request))[j]))) > ARGUMENTS_MAX_BYTES
    ensures
      var call := CallSpec(es, request, Ascending(Indices(es, request))[j]);
      var (c', actions) := Step(k, Run(k, c, es).0, Finish(request, Some("tool_calls")));
      && SizeError(k, c', |c.conversation|, j, call.id)
      && (forall a | a in actions && (a.ExecuteTool? || a.PreviewPatch?) :: a.callId != call.id)
  {
    hide Run, Valid, Indices, Fragments, Ascending, Step, TooLarge, FinalCalls, SizeError, CallSpec, Joined, Utf8Len;
    TurnCalls(k, c, es, request);
    var c1 := Run(k, c, es).0;
    var slots := c1.pending.value.slots;
    FinalCount(slots);
    RefusedInPlace(k, c1, request, j);
    forall a | a in Step(k, c1, Finish(request, Some("tool_calls"))).1 && (a.ExecuteTool? || a.PreviewPatch?)
      ensures a.callId != FinalCalls(slots)[j].id
    {
      NoLaunchOf(k, c1, request, FinalCalls(slots)[j].id, a);
    }
  }

  lemma LaunchKeepsId(k: Codec, request: nat, tooLarge: set<string>, call: ToolCall, a: Action)
    requires Launches(k, request, tooLarge, call, a)
    ensures (a.ExecuteTool? || a.PreviewPatch?) && a.callId == call.id && a.callId !in tooLarge
  {
  }

  // ---- deltas of different indices ----

  /** What a delta does to the state, and to the counters. */
  function Merged(c: Core, d: Event): Core
    requires d.ToolCallDelta?
  {
    if !Streams(c, d.request) then c
    else
      var p := c.pending.value;
      c.(pending := Some(p.(slots := p.slots[d.index := Merge(SlotAt(p.slots, d.index), d.id, d.name, d.fragment)])),
         status := StreamingReply)
  }

  function Cost(c: Core, d: Event): multiset<Counter>
    requires d.ToolCallDelta?
  {
    if !Streams(c, d.request) then multiset{ToolCallDeltasDroppedAsStale}
    else if d.fragment.Some? && Overflows(SlotAt(c.pending.value.slots, d.index), d.fragment.value) then
      multiset{ToolCallArgumentsFragmentsDroppedOverLimit} + multiset{ToolCallDeltasAppended}
    else multiset{ToolCallDeltasAppended}
  }

  function AfterDelta(c: Core, d: Event): Core
    requires d.ToolCallDelta?
  {
    Merged(c, d).(metrics := c.metrics + Cost(c, d))
  }

  lemma DeltaStep(k: Codec, c: Core, d: Event)
    requires d.ToolCallDelta?
    ensures Step(k, c, d) == (AfterDelta(c, d), if Streams(c, d.request) then [Redraw] else [])
  {
    hide Merge, Overflows;
    var m, n := ToolCallArgumentsFragmentsDroppedOverLimit, ToolCallDeltasAppended;
    assert (c.metrics + multiset{m}) + multiset{n} == c.metrics + (multiset{m} + multiset{n});
  }

  lemma StillStreams(c: Core, d: Event, request: nat)
    requires d.ToolCallDelta?
    ensures Streams(AfterDelta(c, d), request) == Streams(c, request)
  {
    hide Merge, Overflows;
  }

  lemma Commuted(m: multiset<Counter>, a: multiset<Counter>, b: multiset<Counter>)
    ensures m + a + b == m + b + a
  {
  }

  lemma MergesCommute(c: Core, d: Event, e: Event)
    requires d.ToolCallDelta? && e.ToolCallDelta? && d.index != e.index
    ensures Merged(Merged(c, d), e) == Merged(Merged(c, e), d)
  {
    hide Merge;
    if Streams(c, d.request) && Streams(c, e.request) {
      assert Merged(Merged(c, d), e).pending.value.slots == Merged(Merged(c, e), d).pending.value.slots;
    }
  }

  lemma CostApart(c: Core, d: Event, e: Event)
    requires d.ToolCallDelta? && e.ToolCallDelta? && d.index != e.index
    ensures Cost(AfterDelta(c, d), e) == Cost(c, e)
  {
    hide Merge, Overflows;
  }

  lemma MergedApart(c: Core, e: Event, m: multiset<Counter>)
    requires e.ToolCallDelta?
    ensures Merged(c.(metrics := m), e) == Merged(c, e).(metrics := m)
  {
    hide Merge;
  }

  lemma AfterDeltasCommute(c: Core, d: Event, e: Event)
    requires d.ToolCallDelta? && e.ToolCallDelta? && d.index != e.index
    ensures AfterDelta(AfterDelta(c, d), e) == AfterDelta(AfterDelta(c, e), d)
  {
    hide Merged, Cost;
    MergesCommute(c, d, e);
    CostApart(c, d, e);
    CostApart(c, e, d);
    MergedApart(Merged(c, d), e, c.metrics + Cost(c, d));
    MergedApart(Merged(c, e), d, c.metrics + Cost(c, e));
    Commuted(c.metrics, Cost(c, d), Cost(c, e));
  }

  /** Two deltas of different indices commute, in every state. */
  lemma DeltasCommute(k: Codec, c: Core, d: Event, e: Event)
    requires d.ToolCallDelta? && e.ToolCallDelta? && d.index != e.index
    ensures Step(k, Step(k, c, d).0, e).0 == Step(k, Step(k, c, e).0, d).0
    ensures Step(k, Step(k, c, d).0, e).1 == Step(k, c, e).1 && Step(k, Step(k, c, e).0, d).1 == Step(k, c, d).1
  {
    hide Step, AfterDelta, Streams;
    DeltaStep(k, c, d);
    DeltaStep(k, c, e);
    DeltaStep(k, AfterDelta(c, d), e);
    DeltaStep(k, AfterDelta(c, e), d);
    StillStreams(c, d, e.request);
    StillStreams(c, e, d.request);
    AfterDeltasCommute(c, d, e);
  }
}
