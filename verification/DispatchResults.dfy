/** What becomes of each call of a turn, by its position: answered and with which text, parked, or left alone.
    Nothing here mentions how the dispatcher classifies a call or what effect it gives it. */
module DispatchResults {
  import opened Options
  import opened Transcript
  import opened TranscriptRepair
  import opened SessionLog
  import opened Tell
  import opened TellLaws
  import Gate

  /** The calls of a turn, with the gate as they find it. */
  datatype Batch = Batch(k: Site, cfg: Config, w: World, turn: nat, calls: seq<ToolCall>, gate: Gate.Counts)

  /** The gate when call `i` reaches it. */
  function GateAt(b: Batch, i: nat): Gate.Counts {
    if i == 0 then b.gate else Gate.Admit(b.cfg.limits, GateAt(b, i - 1), b.w.now(b.turn, i - 1)).0
  }

  function DecisionOn(b: Batch, i: nat): Gate.Decision {
    Gate.Admit(b.cfg.limits, GateAt(b, i), b.w.now(b.turn, i)).1
  }

  /** A tool there is, called with arguments that can be judged. */
  predicate Judged(b: Batch, i: nat)
    requires i < |b.calls|
  {
    b.calls[i].name in {"list", "read", "search", "patch"}
    || (b.calls[i].name == "command" && b.k.commandParses(b.calls[i].args))
  }

  /** The call is admitted and must wait for the human. */
  predicate Wants(b: Batch, i: nat)
    requires i < |b.calls|
  {
    DecisionOn(b, i).Proceed? && Judged(b, i) && b.w.verdict(b.turn, i).NeedsApproval?
  }

  /** An earlier call waits. */
  predicate Suspended(b: Batch, i: nat)
    requires i <= |b.calls|
  {
    exists j :: 0 <= j < i && Wants(b, j)
  }

  /** It is parked; but once the turn is suspended, only patches and commands are. */
  predicate Parks(b: Batch, i: nat)
    requires i < |b.calls|
  {
    Wants(b, i) && (Suspended(b, i) ==> b.calls[i].name == "patch" || b.calls[i].name == "command")
  }

  /** Its answer within the turn, if it gets one: the gate's error at once, else, until the turn is suspended, the
      text it was judged with or the error that fits. */
  function Told(b: Batch, i: nat): Option<string>
    requires i < |b.calls|
  {
    match DecisionOn(b, i)
    case TurnLimitExceeded => Some("turn_tool_call_limit_exceeded")
    case RateLimitExceeded => Some("tool_call_rate_exceeded")
    case SessionExhausted => None
    case Proceed =>
      if Suspended(b, i) || Wants(b, i) then None
      else if Judged(b, i) then Some(b.w.verdict(b.turn, i).content)
      else if b.calls[i].name == "command" then Some("command_args")
      else Some("unknown_tool")
  }

  /** The verdict is acted on. */
  predicate ByVerdict(b: Batch, i: nat)
    requires i < |b.calls|
  {
    DecisionOn(b, i).Proceed? && !Suspended(b, i) && !Wants(b, i) && Judged(b, i)
  }

  /** The tool was run: as judged, and never a command a rule denied. */
  predicate RanAt(b: Batch, i: nat)
    requires i < |b.calls|
  {
    ByVerdict(b, i) && b.w.verdict(b.turn, i).ran &&
    (b.calls[i].name == "command" ==> b.w.verdict(b.turn, i).decision != Some(false))
  }

  /** The decision of a permission rule on a command, which is recorded. */
  function Ruling(b: Batch, i: nat): Option<bool>
    requires i < |b.calls|
  {
    if ByVerdict(b, i) && b.calls[i].name == "command" then b.w.verdict(b.turn, i).decision else None
  }

  function KindOf(name: string): ToolKind {
    if name == "patch" then PatchTool else if name == "command" then CommandTool
    else if name == "list" || name == "read" || name == "search" then ReadOnlyTool else UnknownTool
  }

  // ---- the turn up to call `n` ----

  function Answers(b: Batch, n: nat): seq<Msg>
    requires n <= |b.calls|
  {
    if n == 0 then []
    else
      var t := Told(b, n - 1);
      Answers(b, n - 1) + if t.Some? then [Tool(b.calls[n - 1].id, t.value)] else []
  }

  function ParkedUpTo(b: Batch, n: nat): seq<Pending>
    requires n <= |b.calls|
  {
    if n == 0 then []
    else
      var call := b.calls[n - 1];
      ParkedUpTo(b, n - 1) +
      if Parks(b, n - 1) then [Pending(call.id, KindOf(call.name), call.name, call.args)] else []
  }

  function Events(b: Batch, n: nat): seq<Event>
    requires n <= |b.calls|
  {
    if n == 0 then []
    else
      var id := b.calls[n - 1].id;
      Events(b, n - 1) + (if RanAt(b, n - 1) then [Ran(id)] else [])
      + if Told(b, n - 1).Some? then [Answered(id)] else []
  }

  /** What is recorded: the ruling on a command, then the answer. */
  function Recorded(b: Batch, n: nat): seq<Record>
    requires n <= |b.calls|
  {
    if n == 0 then []
    else
      var id, t, ruling := b.calls[n - 1].id, Told(b, n - 1), Ruling(b, n - 1);
      Recorded(b, n - 1) + (if ruling.Some? then [ToolApproval(id, ruling.value, false)] else [])
      + if t.Some? then [Message(Tool(id, t.value))] else []
  }

  /** The dispatcher after `n` calls. */
  predicate After(b: Batch, st: St, n: nat, d: Dispatched)
    requires n <= |b.calls|
  {
    && d.gate == GateAt(b, n) && !d.exhausted && d.parked == ParkedUpTo(b, n) && Stands(b, st, n, d.st)
  }

  predicate Stands(b: Batch, st: St, n: nat, st': St)
    requires n <= |b.calls|
  {
    && st'.messages == st.messages + Answers(b, n) && st'.hist == st.hist + Events(b, n)
    && (st.attached ==> Recs(st'.log) == Recs(st.log) + Recorded(b, n))
    && st'.attached == st.attached && st'.sent == st.sent && st'.called == st.called && st'.pending == st.pending
  }

  lemma {:induction false} ParkedWhenSuspended(b: Batch, n: nat)
    requires n <= |b.calls|
    ensures ParkedUpTo(b, n) != [] <==> Suspended(b, n)
  {
    hide DecisionOn, Judged;
    if n > 0 {
      ParkedWhenSuspended(b, n - 1);
      assert Suspended(b, n) <==> Suspended(b, n - 1) || Wants(b, n - 1);
    }
  }

  /** The effect of an admitted call, in these terms. */
  lemma EffectMeans(b: Batch, i: nat)
    requires i < |b.calls| && DecisionOn(b, i).Proceed?
    ensures
      var e := EffectOf(b.k, b.calls[i], b.w.verdict(b.turn, i), Suspended(b, i));
      && (e.Park? <==> Parks(b, i)) && (e.Park? ==> e.kind == KindOf(b.calls[i].name))
      && (e.Respond? <==> Told(b, i).Some?)
      && (e.Respond? ==> e.content == Told(b, i).value && e.ran == RanAt(b, i) && e.decision == Ruling(b, i))
  {
    hide Suspended;
  }

  lemma AnswerStands(b: Batch, st: St, n: nat, st0: St, st1: St)
    requires n < |b.calls| && Stands(b, st, n, st0)
    requires Told(b, n).Some?
    requires
      var id, ruling := b.calls[n].id, Ruling(b, n);
      var ruled := if ruling.Some? then Append(b.k, st0, ToolApproval(id, ruling.value, false)) else st0;
      var ran := if RanAt(b, n) then ruled.(hist := ruled.hist + [Ran(id)]) else ruled;
      st1 == AppendTool(b.k, ran, id, Told(b, n).value)
    ensures Stands(b, st, n + 1, st1)
  {
    hide Told, Ruling, RanAt, Recs;
    var id, ruling := b.calls[n].id, Ruling(b, n);
    var ruled := if ruling.Some? then Append(b.k, st0, ToolApproval(id, ruling.value, false)) else st0;
    if ruling.Some? { RecsPush(st0.log, Stamped(b.k.clock(st0.stamps), ToolApproval(id, ruling.value, false))); }
    RecsPush(ruled.log, Stamped(b.k.clock(ruled.stamps), Message(Tool(id, Told(b, n).value))));
  }

  lemma SilentStands(b: Batch, st: St, n: nat, st0: St)
    requires n < |b.calls| && Stands(b, st, n, st0) && Told(b, n).None? && Ruling(b, n).None? && !RanAt(b, n)
    ensures Stands(b, st, n + 1, st0)
  {
    hide Told, Ruling, RanAt, Recs;
    assert Answers(b, n) + [] == Answers(b, n) && Events(b, n) + [] + [] == Events(b, n);
    assert Recorded(b, n) + [] + [] == Recorded(b, n);
  }

  lemma NotByVerdict(b: Batch, n: nat)
    requires n < |b.calls|
    ensures !DecisionOn(b, n).Proceed? || Told(b, n).None? ==> Ruling(b, n).None? && !RanAt(b, n)
    ensures !DecisionOn(b, n).Proceed? ==> !Parks(b, n)
  {
    hide DecisionOn, Suspended;
  }

  lemma OneCall(b: Batch, st: St, n: nat, d: Dispatched)
    requires n < |b.calls| && After(b, st, n, d) && !DecisionOn(b, n).SessionExhausted?
    ensures After(b, st, n + 1, DispatchOne(b.k, d, b.cfg, b.w, b.turn, b.calls[n], n))
  {
    hide EffectOf, Gate.Admit, Stands, Told, Ruling, RanAt, Parks, AppendTool;
    ParkedWhenSuspended(b, n);
    NotByVerdict(b, n);
    assert ParkedUpTo(b, n) + [] == ParkedUpTo(b, n);
    var d1 := DispatchOne(b.k, d, b.cfg, b.w, b.turn, b.calls[n], n);
    if DecisionOn(b, n).Proceed? {
      EffectMeans(b, n);
      if Told(b, n).Some? { AnswerStands(b, st, n, d.st, d1.st); } else { SilentStands(b, st, n, d.st); }
    } else {
      GateSays(b, n);
      AnswerStands(b, st, n, d.st, d1.st);
    }
  }

  lemma GateSays(b: Batch, n: nat)
    requires n < |b.calls|
    ensures DecisionOn(b, n).TurnLimitExceeded? ==> Told(b, n) == Some(TURN_LIMIT_ERROR)
    ensures DecisionOn(b, n).RateLimitExceeded? ==> Told(b, n) == Some(RATE_ERROR)
  {
    hide DecisionOn, Suspended;
  }

  /** The first call that finds the session exhausted, or the number of calls. */
  predicate StopsAt(b: Batch, n: nat) {
    && n <= |b.calls| && (forall i :: 0 <= i < n ==> !DecisionOn(b, i).SessionExhausted?)
    && (n < |b.calls| ==> DecisionOn(b, n).SessionExhausted?)
  }

  lemma {:induction false} DispatchAlong(b: Batch, st: St, i: nat, d: Dispatched, n: nat)
    requires i <= n && StopsAt(b, n) && After(b, st, i, d)
    ensures
      var d' := DispatchFrom(b.k, d, b.cfg, b.w, b.turn, b.calls, i);
      && d'.exhausted == (n < |b.calls|) && d'.parked == ParkedUpTo(b, n) && Stands(b, st, n, d'.st)
      && (n == |b.calls| ==> d'.gate == GateAt(b, n))
    decreases n - i
  {
    hide Stands, ParkedUpTo, Gate.Admit;
    if i < |b.calls| {
      DispatchUnroll(b.k, d, b.cfg, b.w, b.turn, b.calls, i);
      if i < n {
        OneCall(b, st, i, d);
        hide After, DispatchOne, DecisionOn;
        DispatchAlong(b, st, i + 1, DispatchOne(b.k, d, b.cfg, b.w, b.turn, b.calls[i], i), n);
      } else {
        var d1 := DispatchOne(b.k, d, b.cfg, b.w, b.turn, b.calls[i], i);
        assert d1.exhausted && d1.st == d.st && d1.parked == d.parked;
        assert DispatchFrom(b.k, d1, b.cfg, b.w, b.turn, b.calls, i + 1) == d1;
      }
    }
  }

  /** A whole turn, from any state: the answers, the parked calls, the tools run and the records, call by call up to
      the one that finds the session exhausted. */
  lemma DispatchMeans(b: Batch, st: St, n: nat)
    requires StopsAt(b, n)
    ensures
      var d := DispatchFrom(b.k, Dispatched(st, b.gate, [], false), b.cfg, b.w, b.turn, b.calls, 0);
      && d.exhausted == (n < |b.calls|) && d.parked == ParkedUpTo(b, n) && Stands(b, st, n, d.st)
      && (n == |b.calls| ==> d.gate == GateAt(b, n))
  {
    var d := Dispatched(st, b.gate, [], false);
    assert Stands(b, st, 0, st) by {
      assert st.messages + [] == st.messages && st.hist + [] == st.hist && Recs(st.log) + [] == Recs(st.log);
    }
    hide Stands;
    DispatchAlong(b, st, 0, d, n);
  }

  lemma {:induction false} SomeStop(b: Batch, i: nat) returns (n: nat)
    requires i <= |b.calls| && forall j :: 0 <= j < i ==> !DecisionOn(b, j).SessionExhausted?
    ensures StopsAt(b, n)
    decreases |b.calls| - i
  {
    hide DecisionOn;
    n := i;
    if i < |b.calls| && !DecisionOn(b, i).SessionExhausted? { n := SomeStop(b, i + 1); }
  }

  // ---- a turn that is answered in full ----

  lemma GoesOnBefore(b: Batch, i: nat, n: nat)
    requires i < n <= |b.calls| && !Suspended(b, n)
    ensures !Suspended(b, i) && !Wants(b, i)
  {
    hide Wants;
  }

  lemma {:induction false} AllToldUpTo(b: Batch, n: nat)
    requires n <= |b.calls| && !Suspended(b, n)
    requires forall i :: 0 <= i < n ==> !DecisionOn(b, i).SessionExhausted?
    ensures |Answers(b, n)| == n
    ensures forall i :: 0 <= i < n ==> Told(b, i).Some? && Answers(b, n)[i] == Tool(b.calls[i].id, Told(b, i).value)
  {
    hide DecisionOn, Judged;
    if n > 0 {
      GoesOnBefore(b, n - 1, n);
      AllToldUpTo(b, n - 1);
    }
  }

  /** The text a call is answered with, in a turn where nothing waits. */
  predicate AnswerFits(b: Batch, i: nat, text: string)
    requires i < |b.calls|
  {
    var call, v := b.calls[i], b.w.verdict(b.turn, i);
    match DecisionOn(b, i)
    case TurnLimitExceeded => text == "turn_tool_call_limit_exceeded"
    case RateLimitExceeded => text == "tool_call_rate_exceeded"
    case SessionExhausted => false
    case Proceed =>
      if call.name in {"list", "read", "search", "patch"} || (call.name == "command" && b.k.commandParses(call.args))
      then v.Answer? && text == v.content
      else text == if call.name == "command" then "command_args" else "unknown_tool"
  }

  lemma ToldFits(b: Batch, i: nat)
    requires i < |b.calls| && !Suspended(b, i) && !Wants(b, i) && !DecisionOn(b, i).SessionExhausted?
    ensures Told(b, i).Some? && AnswerFits(b, i, Told(b, i).value)
  {
    hide DecisionOn, Suspended;
  }

  /** If the turn parks nothing and does not exhaust the session, the i-th message after the list as it was answers
      the i-th call: with the text it was judged with if the gate admits it and it is a list, read, search, patch or
      parsing command; else with the error that fits. */
  lemma AnsweredInPlace(b: Batch, st: St)
    requires
      var d := DispatchFrom(b.k, Dispatched(st, b.gate, [], false), b.cfg, b.w, b.turn, b.calls, 0);
      d.parked == [] && !d.exhausted
    ensures
      var d := DispatchFrom(b.k, Dispatched(st, b.gate, [], false), b.cfg, b.w, b.turn, b.calls, 0);
      && |d.st.messages| == |st.messages| + |b.calls| && st.messages <= d.st.messages
      && forall i :: 0 <= i < |b.calls| ==>
           var m := d.st.messages[|st.messages| + i];
           m.Tool? && m.id == b.calls[i].id && AnswerFits(b, i, m.content)
  {
    hide DispatchFrom, Answers, ParkedUpTo, DecisionOn, Wants, Suspended, AnswerFits, Told;
    var n := SomeStop(b, 0);
    DispatchMeans(b, st, n);
    ParkedWhenSuspended(b, n);
    AllToldUpTo(b, n);
    forall i | 0 <= i < |b.calls| ensures Told(b, i).Some? && AnswerFits(b, i, Told(b, i).value) {
      GoesOnBefore(b, i, n);
      ToldFits(b, i);
    }
  }
}
