/** What `repair_messages` guarantees: its output is a fixed point, it is a legal transcript exactly
    when ids are distinct and answers follow their calls, it cancels exactly the unanswered calls, and
    repairing a healed log gives the list that was sent. */
module RepairLaws {
  import opened Transcript
  import opened TranscriptRepair

  // ---- properties of the input a caller can check ----

  /** Every tool result comes after an assistant message that makes its call. */
  predicate AnswersFollowCalls(ms: seq<Msg>) {
    forall i :: 0 <= i < |ms| && ms[i].Tool? ==> exists j :: 0 <= j < i && ms[i].id in IdsOf(ms[j])
  }

  function MentionsOf(ms: seq<Msg>): set<string> {
    if ms == [] then {} else Mentions(ms[0]) + MentionsOf(ms[1..])
  }

  function ToolIds(ms: seq<Msg>): seq<string> {
    if ms == [] then [] else (if ms[0].Tool? then [ms[0].id] else []) + ToolIds(ms[1..])
  }

  predicate Disjoint(ids: seq<string>, placed: set<string>) {
    forall id :: id in ids ==> id !in placed
  }

  // ---- shape of the output ----

  lemma {:induction false} ToolIdsAppend(a: seq<Msg>, b: seq<Msg>)
    ensures ToolIds(a + b) == ToolIds(a) + ToolIds(b)
  {
    if a == [] { assert a + b == b; }
    else { assert (a + b)[1..] == a[1..] + b; ToolIdsAppend(a[1..], b); }
  }

  lemma {:induction false} ToolIdsOfAnswers(all: seq<Msg>, ids: seq<string>)
    ensures ToolIds(AnswersFor(all, ids)) == ids
    ensures NonTool(AnswersFor(all, ids)) == []
  {
    if ids != [] {
      AnswerIs(all, ids[0]);
      assert ([Answer(all, ids[0])] + AnswersFor(all, ids[1..]))[1..] == AnswersFor(all, ids[1..]);
      ToolIdsOfAnswers(all, ids[1..]);
    }
  }

  lemma EmitShape(all: seq<Msg>, m: Msg, placed: set<string>)
    ensures
      var out := Emit(all, m, placed).msgs;
      && NonTool(out) == NonTool([m])
      && Distinct(ToolIds(out)) && Disjoint(ToolIds(out), placed)
      && (forall id :: id in ToolIds(out) ==> id in Mentions(m))
  {
    if m.Assistant? {
      var ids := Fresh(m.calls, placed);
      FreshIs(m.calls, placed);
      ToolIdsOfAnswers(all, ids);
      assert ([m] + AnswersFor(all, ids))[1..] == AnswersFor(all, ids);
    }
  }

  /** The non-tool messages survive in order, and every id is answered at most once, on every input. */
  lemma {:induction false} RepairKeepsSkeleton(all: seq<Msg>, rest: seq<Msg>, placed: set<string>)
    ensures
      var out := RepairFrom(all, rest, placed).msgs;
      && NonTool(out) == NonTool(rest)
      && Distinct(ToolIds(out)) && Disjoint(ToolIds(out), placed)
    decreases |rest|
  {
    if rest != [] {
      var step := Emit(all, rest[0], placed).msgs;
      var placed' := placed + Mentions(rest[0]);
      var tail := RepairFrom(all, rest[1..], placed').msgs;
      EmitShape(all, rest[0], placed);
      RepairKeepsSkeleton(all, rest[1..], placed');
      NonToolAppend(step, tail);
      NonToolAppend([rest[0]], rest[1..]);
      assert rest == [rest[0]] + rest[1..];
      ToolIdsAppend(step, tail);
      DistinctAppend(ToolIds(step), ToolIds(tail));
    }
  }

  // ---- closed output, exactly when ----

  /** The same condition, read along the list with the ids placed so far. */
  predicate Closable(rest: seq<Msg>, placed: set<string>)
    decreases |rest|
  {
    rest == [] ||
    match rest[0]
    case Assistant(_, calls) =>
      Distinct(Ids(calls)) && Disjoint(Ids(calls), placed) && Closable(rest[1..], placed + IdSet(calls))
    case Tool(id, _) => id in placed && Closable(rest[1..], placed)
    case _ => Closable(rest[1..], placed)
  }

  lemma AnswersToAreIds(all: seq<Msg>, calls: seq<ToolCall>)
    ensures AnswersTo(calls, AnswersFor(all, Ids(calls)))
  {
    forall i | 0 <= i < |calls| { AnswerIs(all, calls[i].id); }
  }

  lemma {:induction false} ToolPrefixIds(calls: seq<ToolCall>, ms: seq<Msg>)
    requires AnswersTo(calls, ms)
    ensures Ids(calls) <= ToolIds(ms)
  {
    if calls != [] {
      assert AnswersTo(calls[1..], ms[1..]);
      ToolPrefixIds(calls[1..], ms[1..]);
      assert Ids(calls) == [calls[0].id] + Ids(calls[1..]);
    }
  }

  lemma {:induction false} RepairClosedAlong(all: seq<Msg>, rest: seq<Msg>, placed: set<string>)
    ensures Closed(RepairFrom(all, rest, placed).msgs) <==> Closable(rest, placed)
    decreases |rest|
  {
    if rest != [] {
      RepairClosedAlong(all, rest[1..], placed + Mentions(rest[0]));
      if rest[0].Assistant? { AssistantClosedStep(all, rest, placed); }
      else { OtherClosedStep(all, rest, placed); }
    }
  }

  lemma OtherClosedStep(all: seq<Msg>, rest: seq<Msg>, placed: set<string>)
    requires rest != [] && !rest[0].Assistant?
    requires Closed(RepairFrom(all, rest[1..], placed + Mentions(rest[0])).msgs) <==>
             Closable(rest[1..], placed + Mentions(rest[0]))
    ensures Closed(RepairFrom(all, rest, placed).msgs) <==> Closable(rest, placed)
  {
    var m := rest[0];
    var tail := RepairFrom(all, rest[1..], placed + Mentions(m)).msgs;
    assert [] + tail == tail && ([m] + tail)[0] == m && ([m] + tail)[1..] == tail;
    assert !m.Tool? || m.id in placed ==> placed + Mentions(m) == placed;
  }

  lemma AssistantClosedStep(all: seq<Msg>, rest: seq<Msg>, placed: set<string>)
    requires rest != [] && rest[0].Assistant?
    requires Closed(RepairFrom(all, rest[1..], placed + Mentions(rest[0])).msgs) <==>
             Closable(rest[1..], placed + Mentions(rest[0]))
    ensures Closed(RepairFrom(all, rest, placed).msgs) <==> Closable(rest, placed)
  {
    var answers := AnswersFor(all, Fresh(rest[0].calls, placed));
    var tail := RepairFrom(all, rest[1..], placed + Mentions(rest[0])).msgs;
    AnswerIdsAreFresh(all, rest, placed);
    ConcatAssoc([rest[0]], answers, tail);
    TurnClosed(all, rest[0], tail, placed);
  }

  lemma TurnClosed(all: seq<Msg>, m: Msg, tail: seq<Msg>, placed: set<string>)
    requires m.Assistant?
    requires
      var out := AnswersFor(all, Fresh(m.calls, placed)) + tail;
      Distinct(ToolIds(out)) && Disjoint(ToolIds(out), placed)
    ensures Closed([m] + AnswersFor(all, Fresh(m.calls, placed)) + tail) <==>
            Distinct(Ids(m.calls)) && Disjoint(Ids(m.calls), placed) && Closed(tail)
  {
    if Distinct(Ids(m.calls)) && Disjoint(Ids(m.calls), placed) {
      FreshWhenDistinct(m.calls, placed);
      AnswersToAreIds(all, m.calls);
    }
    ClosedTurn(m, AnswersFor(all, Fresh(m.calls, placed)), tail, placed);
  }

  lemma RepairAssistant(all: seq<Msg>, rest: seq<Msg>, placed: set<string>)
    requires rest != [] && rest[0].Assistant?
    ensures RepairFrom(all, rest, placed).msgs ==
            [rest[0]] + (AnswersFor(all, Fresh(rest[0].calls, placed)) +
                         RepairFrom(all, rest[1..], placed + Mentions(rest[0])).msgs)
  {
    ConcatAssoc([rest[0]], AnswersFor(all, Fresh(rest[0].calls, placed)),
                RepairFrom(all, rest[1..], placed + Mentions(rest[0])).msgs);
  }

  lemma AnswerIdsAreFresh(all: seq<Msg>, rest: seq<Msg>, placed: set<string>)
    requires rest != [] && rest[0].Assistant?
    ensures
      var out := AnswersFor(all, Fresh(rest[0].calls, placed)) +
                 RepairFrom(all, rest[1..], placed + Mentions(rest[0])).msgs;
      Distinct(ToolIds(out)) && Disjoint(ToolIds(out), placed)
  {
    hide RepairFrom, ToolIds, AnswersFor, Fresh;
    RepairKeepsSkeleton(all, rest, placed);
    RepairAssistant(all, rest, placed);
    ToolIdsAfter(rest[0], AnswersFor(all, Fresh(rest[0].calls, placed)) +
                          RepairFrom(all, rest[1..], placed + Mentions(rest[0])).msgs);
  }

  lemma ToolIdsAfter(m: Msg, out: seq<Msg>)
    requires !m.Tool?
    ensures ToolIds([m] + out) == ToolIds(out)
  {
    assert ([m] + out)[1..] == out && [] + ToolIds(out) == ToolIds(out);
  }

  lemma ClosedTurn(m: Msg, answers: seq<Msg>, tail: seq<Msg>, placed: set<string>)
    requires m.Assistant?
    requires Distinct(ToolIds(answers + tail)) && Disjoint(ToolIds(answers + tail), placed)
    requires Distinct(Ids(m.calls)) && Disjoint(Ids(m.calls), placed) ==>
             |answers| == |m.calls| && AnswersTo(m.calls, answers)
    ensures Closed([m] + answers + tail) <==>
            Distinct(Ids(m.calls)) && Disjoint(Ids(m.calls), placed) && Closed(tail)
  {
    var out := [m] + answers + tail;
    assert out[0] == m && out[1..] == answers + tail;
    AnsweredMeansFresh(m.calls, answers + tail, placed);
    if |answers| == |m.calls| { assert out[1 + |m.calls|..] == tail; }
  }

  lemma FreshWhenDistinct(calls: seq<ToolCall>, placed: set<string>)
    requires Distinct(Ids(calls)) && Disjoint(Ids(calls), placed)
    ensures Fresh(calls, placed) == Ids(calls)
  {
    forall c | c in calls ensures c.id !in placed {
      var i :| 0 <= i < |calls| && calls[i] == c;
      assert Ids(calls)[i] == c.id;
    }
    FreshAll(calls, placed);
  }

  /** Answers with fresh, pairwise distinct ids can only answer such calls. */
  lemma AnsweredMeansFresh(calls: seq<ToolCall>, out: seq<Msg>, placed: set<string>)
    requires Distinct(ToolIds(out)) && Disjoint(ToolIds(out), placed)
    ensures AnswersTo(calls, out) ==> Distinct(Ids(calls)) && Disjoint(Ids(calls), placed)
  {
    if AnswersTo(calls, out) {
      ToolPrefixIds(calls, out);
      assert forall i :: 0 <= i < |calls| ==> Ids(calls)[i] == ToolIds(out)[i];
    }
  }

  lemma {:induction false} ClosableMeans(ms: seq<Msg>, placed: set<string>)
    ensures Closable(ms, placed) <==>
      && Distinct(CallIds(ms)) && Disjoint(CallIds(ms), placed)
      && (forall i :: 0 <= i < |ms| && ms[i].Tool? ==>
            ms[i].id in placed || exists j :: 0 <= j < i && ms[i].id in IdsOf(ms[j]))
    decreases |ms|
  {
    if ms != [] {
      var rest := ms[1..];
      var calls := if ms[0].Assistant? then ms[0].calls else [];
      var placed' := placed + IdSet(calls);
      assert placed' == placed || ms[0].Assistant?;
      ClosableMeans(rest, placed');
      DistinctAppend(IdsOf(ms[0]), CallIds(rest));
      IdsAreIdSet(calls);
      FollowStep(ms, placed, placed');
    }
  }

  lemma IdsAreIdSet(calls: seq<ToolCall>)
    ensures forall id :: id in Ids(calls) <==> id in IdSet(calls)
  {
    forall c | c in calls ensures c.id in Ids(calls) {
      var i :| 0 <= i < |calls| && calls[i] == c;
      assert Ids(calls)[i] == c.id;
    }
  }

  ghost predicate Follows(ms: seq<Msg>, i: int, placed: set<string>)
    requires 0 <= i < |ms|
  {
    ms[i].Tool? ==> ms[i].id in placed || exists j :: 0 <= j < i && ms[i].id in IdsOf(ms[j])
  }

  lemma FollowStep(ms: seq<Msg>, placed: set<string>, placed': set<string>)
    requires ms != []
    requires placed' == placed + (set id | id in IdsOf(ms[0]))
    ensures (forall i :: 0 <= i < |ms| ==> Follows(ms, i, placed)) <==>
      (ms[0].Tool? ==> ms[0].id in placed) && forall i :: 0 <= i < |ms| - 1 ==> Follows(ms[1..], i, placed')
  {
    var rest := ms[1..];
    forall i | 0 <= i < |ms| - 1 ensures Follows(rest, i, placed') <==> Follows(ms, i + 1, placed) {
      if rest[i].Tool? {
        if j :| 0 <= j < i && rest[i].id in IdsOf(rest[j]) { assert ms[j + 1] == rest[j]; }
        if j :| 0 <= j < i + 1 && ms[i + 1].id in IdsOf(ms[j]) { assert j > 0 ==> rest[j - 1] == ms[j]; }
      }
    }
    if forall i :: 0 <= i < |ms| ==> Follows(ms, i, placed) {
      assert Follows(ms, 0, placed);
      assert forall i :: 0 <= i < |ms| - 1 ==> Follows(ms, i + 1, placed) ==> Follows(rest, i, placed');
    }
    if (ms[0].Tool? ==> ms[0].id in placed) && forall i :: 0 <= i < |ms| - 1 ==> Follows(rest, i, placed') {
      forall i | 0 <= i < |ms| ensures Follows(ms, i, placed) {
        if i > 0 { assert Follows(rest, i - 1, placed'); }
      }
    }
  }

  /** On every input: the repaired list is a legal transcript if and only if no call id is used
      twice and no tool result comes before its call. */
  lemma RepairClosedIff(ms: seq<Msg>)
    ensures Closed(Repair(ms).msgs) <==> Distinct(CallIds(ms)) && AnswersFollowCalls(ms)
  {
    RepairClosedAlong(ms, ms, {});
    ClosableMeans(ms, {});
  }

  // ---- fixed points ----

  /** Every call not placed yet is answered right after its assistant message, and a tool message
      elsewhere carries an id seen nowhere before it. */
  predicate Settled(ms: seq<Msg>, placed: set<string>)
    decreases |ms|
  {
    ms == [] ||
    match ms[0]
    case Assistant(_, calls) =>
      var ids := Fresh(calls, placed);
      |ids| < |ms| && HaveIds(ms[1..1 + |ids|], ids) && Settled(ms[1 + |ids|..], placed + IdSet(calls))
    case Tool(id, _) => id !in placed && Settled(ms[1..], placed + {id})
    case _ => Settled(ms[1..], placed)
  }

  predicate HaveIds(tools: seq<Msg>, ids: seq<string>) {
    |tools| == |ids| && forall i :: 0 <= i < |ids| ==> tools[i].Tool? && tools[i].id == ids[i]
  }

  lemma SettledTurn(m: Msg, tools: seq<Msg>, rest: seq<Msg>, placed: set<string>)
    requires m.Assistant? && HaveIds(tools, Fresh(m.calls, placed))
    ensures Settled([m] + tools + rest, placed) <==> Settled(rest, placed + IdSet(m.calls))
  {
    var ms := [m] + tools + rest;
    assert ms[0] == m && ms[1..1 + |tools|] == tools && ms[1 + |tools|..] == rest;
  }

  lemma {:induction false} RepairSettles(all: seq<Msg>, rest: seq<Msg>, placed: set<string>)
    ensures Settled(RepairFrom(all, rest, placed).msgs, placed)
    decreases |rest|
  {
    if rest != [] {
      var m := rest[0];
      var tail := RepairFrom(all, rest[1..], placed + Mentions(m)).msgs;
      RepairSettles(all, rest[1..], placed + Mentions(m));
      if m.Assistant? {
        var ids := Fresh(m.calls, placed);
        forall i | 0 <= i < |ids| { AnswerIs(all, ids[i]); }
        SettledTurn(m, AnswersFor(all, ids), tail, placed);
      } else {
        assert ([m] + tail)[0] == m && ([m] + tail)[1..] == tail && [] + tail == tail;
        assert m.Tool? && m.id in placed ==> placed + Mentions(m) == placed;
        assert !m.Tool? ==> placed + Mentions(m) == placed;
      }
    }
  }

  lemma {:induction false} SkipPlaced(all: seq<Msg>, tools: seq<Msg>, rest: seq<Msg>, placed: set<string>)
    requires forall m :: m in tools ==> m.Tool? && m.id in placed
    ensures RepairFrom(all, tools + rest, placed) == RepairFrom(all, rest, placed)
  {
    if tools == [] {
      assert tools + rest == rest;
    } else {
      assert (tools + rest)[0] == tools[0] && (tools + rest)[1..] == tools[1..] + rest;
      assert tools[0] in tools && placed + Mentions(tools[0]) == placed;
      SkipPlaced(all, tools[1..], rest, placed);
    }
  }

  lemma {:induction false} AnswersOfTools(tools: seq<Msg>, ids: seq<string>, id: string)
    requires HaveIds(tools, ids) && Distinct(ids)
    ensures id !in ids ==> Answers(tools, id) == []
    ensures forall i :: 0 <= i < |ids| && ids[i] == id ==> Answers(tools, id) == [tools[i]]
  {
    if tools != [] {
      AnswersOfTools(tools[1..], ids[1..], id);
      if id == ids[0] { assert id !in ids[1..]; }
    }
  }

  lemma {:induction false} AnswersForAre(all: seq<Msg>, tools: seq<Msg>, ids: seq<string>)
    requires HaveIds(tools, ids)
    requires forall i :: 0 <= i < |ids| ==> Answers(all, ids[i]) != [] && Answers(all, ids[i])[0] == tools[i]
    ensures AnswersFor(all, ids) == tools && Missing(all, ids) == []
  {
    if ids != [] {
      AnswersForAre(all, tools[1..], ids[1..]);
      assert tools == [tools[0]] + tools[1..];
    }
  }

  lemma RepairFromCons(all: seq<Msg>, m: Msg, rest: seq<Msg>, placed: set<string>)
    ensures RepairFrom(all, [m] + rest, placed) ==
            Join(Emit(all, m, placed), RepairFrom(all, rest, placed + Mentions(m)))
  {
    assert ([m] + rest)[1..] == rest;
  }

  lemma SkipTurn(all: seq<Msg>, calls: seq<ToolCall>, tools: seq<Msg>, rest: seq<Msg>, placed: set<string>)
    requires HaveIds(tools, Fresh(calls, placed))
    ensures RepairFrom(all, tools + rest, placed + IdSet(calls)) == RepairFrom(all, rest, placed + IdSet(calls))
  {
    FreshIs(calls, placed);
    forall t | t in tools ensures t.Tool? && t.id in placed + IdSet(calls) {
      var i :| 0 <= i < |tools| && tools[i] == t;
      assert Fresh(calls, placed)[i] in Fresh(calls, placed);
    }
    SkipPlaced(all, tools, rest, placed + IdSet(calls));
  }

  lemma TurnIsFixed(all: seq<Msg>, m: Msg, tools: seq<Msg>, rest: seq<Msg>, placed: set<string>)
    requires m.Assistant? && HaveIds(tools, Fresh(m.calls, placed))
    requires AnswersFor(all, Fresh(m.calls, placed)) == tools && Missing(all, Fresh(m.calls, placed)) == []
    requires RepairFrom(all, rest, placed + IdSet(m.calls)) == Repaired(rest, [])
    ensures RepairFrom(all, [m] + tools + rest, placed) == Repaired([m] + tools + rest, [])
  {
    hide RepairFrom, Fresh, AnswersFor, Missing;
    SkipTurn(all, m.calls, tools, rest, placed);
    RepairFromCons(all, m, tools + rest, placed);
    assert [m] + tools + rest == [m] + (tools + rest);
  }

  lemma TurnAnswers(m: Msg, tools: seq<Msg>, rest: seq<Msg>, ids: seq<string>)
    requires !m.Tool? && HaveIds(tools, ids) && Distinct(ids)
    ensures forall id :: id !in ids ==> Answers([m] + tools + rest, id) == Answers(rest, id)
    ensures forall i :: 0 <= i < |ids| ==> Answers([m] + tools + rest, ids[i]) != [] &&
                                           Answers([m] + tools + rest, ids[i])[0] == tools[i]
  {
    var ms := [m] + tools + rest;
    assert ms[0] == m && ms[1..] == tools + rest;
    forall id ensures Answers(ms, id) == Answers(tools, id) + Answers(rest, id) { AnswersAppend(tools, rest, id); }
    forall id | id !in ids ensures Answers(ms, id) == Answers(rest, id) {
      AnswersOfTools(tools, ids, id);
      assert [] + Answers(rest, id) == Answers(rest, id);
    }
    forall i | 0 <= i < |ids| ensures Answers(tools, ids[i]) == [tools[i]] { AnswersOfTools(tools, ids, ids[i]); }
  }

  /** A settled list is repaired to itself, whatever list `all` it ends. */
  lemma {:induction false} SettledIsFixed(all: seq<Msg>, ms: seq<Msg>, placed: set<string>)
    requires Settled(ms, placed)
    requires forall id :: id !in placed ==> Answers(all, id) == Answers(ms, id)
    ensures RepairFrom(all, ms, placed) == Repaired(ms, [])
    decreases |ms|
  {
    if ms == [] { return; }
    var m := ms[0];
    if m.Assistant? {
      var ids := Fresh(m.calls, placed);
      var tools, rest := ms[1..1 + |ids|], ms[1 + |ids|..];
      assert ms == [m] + tools + rest;
      FreshIs(m.calls, placed);
      TurnAnswers(m, tools, rest, ids);
      AnswersForAre(all, tools, ids);
      SettledIsFixed(all, rest, placed + IdSet(m.calls));
      TurnIsFixed(all, m, tools, rest, placed);
    } else {
      assert ms == [m] + ms[1..];
      assert !m.Tool? ==> placed + Mentions(m) == placed;
      SettledIsFixed(all, ms[1..], placed + Mentions(m));
    }
  }

  /** On every input: a second pass changes nothing and cancels nothing. */
  lemma RepairIdempotent(ms: seq<Msg>)
    ensures Repair(Repair(ms).msgs) == Repaired(Repair(ms).msgs, [])
  {
    RepairSettles(ms, ms, {});
    SettledIsFixed(Repair(ms).msgs, Repair(ms).msgs, {});
  }

  lemma {:induction false} ClosedIsSettled(ms: seq<Msg>, placed: set<string>)
    requires Closed(ms) && Distinct(CallIds(ms)) && Disjoint(CallIds(ms), placed)
    ensures Settled(ms, placed)
    decreases |ms|
  {
    if ms == [] { return; }
    var n := if ms[0].Assistant? then 1 + |ms[0].calls| else 1;
    var turn, rest := ms[..n], ms[n..];
    assert ms == turn + rest;
    CallIdsAppend(turn, rest);
    DistinctAppend(CallIds(turn), CallIds(rest));
    if ms[0].Assistant? {
      var calls := ms[0].calls;
      assert turn == [ms[0]] + turn[1..];
      CallIdsOfTools(turn[1..]);
      assert CallIds(turn) == Ids(calls);
      FreshWhenDistinct(calls, placed);
      IdsAreIdSet(calls);
      ClosedIsSettled(rest, placed + IdSet(calls));
      SettledTurn(ms[0], turn[1..], rest, placed);
    } else {
      ClosedIsSettled(rest, placed);
    }
  }

  lemma {:induction false} CallIdsOfTools(tools: seq<Msg>)
    requires forall m :: m in tools ==> m.Tool?
    ensures CallIds(tools) == []
  {
    if tools != [] { assert tools[0] in tools; CallIdsOfTools(tools[1..]); }
  }

  /** A legal transcript is left alone exactly when no call id is used twice. */
  lemma ClosedIsFixedIff(ms: seq<Msg>)
    requires Closed(ms)
    ensures Repair(ms) == Repaired(ms, []) <==> Distinct(CallIds(ms))
  {
    if Distinct(CallIds(ms)) {
      ClosedIsSettled(ms, {});
      SettledIsFixed(ms, ms, {});
    }
    RepairClosedIff(ms);
  }

  // ---- which calls are cancelled ----

  lemma {:induction false} OrphansAlong(all: seq<Msg>, rest: seq<Msg>, placed: set<string>)
    requires forall m :: m in rest ==> m in all
    ensures
      var lost := RepairFrom(all, rest, placed).orphans;
      && Distinct(lost)
      && forall o :: o in lost <==>
           o.content == CANCELLED && o.id in CallIds(rest) && o.id !in placed && !Answered(all, o.id)
    decreases |rest|
  {
    if rest == [] { return; }
    var m := rest[0];
    var placed' := placed + Mentions(m);
    OrphansAlong(all, rest[1..], placed');
    var first := Emit(all, m, placed).orphans;
    var later := RepairFrom(all, rest[1..], placed').orphans;
    if m.Assistant? {
      FreshIs(m.calls, placed);
      MissingIs(all, Fresh(m.calls, placed));
      IdsAreIdSet(m.calls);
    } else if m.Tool? {
      assert Answered(all, m.id);
    }
    DistinctAppend(first, later);
  }

  /** On every input: the cancelled calls are exactly those with no recorded result, each once. */
  lemma OrphansAreUnanswered(ms: seq<Msg>)
    ensures Distinct(Repair(ms).orphans)
    ensures forall o :: o in Repair(ms).orphans <==>
      o.content == CANCELLED && o.id in CallIds(ms) && !Answered(ms, o.id)
  {
    OrphansAlong(ms, ms, {});
  }

  // ---- healing: the log keeps the late answers, the repaired list is the same ----

  lemma {:induction false} RepairFromSplit(all: seq<Msg>, a: seq<Msg>, b: seq<Msg>, placed: set<string>)
    ensures RepairFrom(all, a + b, placed) ==
            Join(RepairFrom(all, a, placed), RepairFrom(all, b, placed + MentionsOf(a)))
    decreases |a|
  {
    if a == [] {
      assert a + b == b && placed + MentionsOf(a) == placed;
      var r := RepairFrom(all, b, placed);
      assert [] + r.msgs == r.msgs && [] + r.orphans == r.orphans;
    } else {
      assert (a + b)[0] == a[0] && (a + b)[1..] == a[1..] + b;
      var placed' := placed + Mentions(a[0]);
      assert placed' + MentionsOf(a[1..]) == placed + MentionsOf(a);
      RepairFromSplit(all, a[1..], b, placed');
      JoinAssoc(Emit(all, a[0], placed), RepairFrom(all, a[1..], placed'),
                RepairFrom(all, b, placed + MentionsOf(a)));
    }
  }

  lemma {:induction false} AnswersForAgree(all: seq<Msg>, all': seq<Msg>, ids: seq<string>)
    requires forall id :: id in ids ==> Answers(all', id) != [] && Answers(all', id)[0] == Answer(all, id)
    ensures AnswersFor(all', ids) == AnswersFor(all, ids) && Missing(all', ids) == []
  {
    if ids != [] { AnswersForAgree(all, all', ids[1..]); }
  }

  /** With every call answered as before, the same messages come out and nothing is cancelled. */
  lemma {:induction false} RepairFromAgree(all: seq<Msg>, all': seq<Msg>, rest: seq<Msg>, placed: set<string>)
    requires forall id :: id in CallIds(rest) ==> Answers(all', id) != [] && Answers(all', id)[0] == Answer(all, id)
    ensures RepairFrom(all', rest, placed) == Repaired(RepairFrom(all, rest, placed).msgs, [])
    decreases |rest|
  {
    if rest == [] { return; }
    RepairFromAgree(all, all', rest[1..], placed + Mentions(rest[0]));
    if rest[0].Assistant? {
      FreshIs(rest[0].calls, placed);
      IdsAreIdSet(rest[0].calls);
      AnswersForAgree(all, all', Fresh(rest[0].calls, placed));
    }
  }

  /** The ids of `s` are new with respect to `ms`. */
  predicate NewTo(s: seq<Msg>, ms: seq<Msg>) {
    Disjoint(CallIds(s), MentionsOf(ms))
  }

  lemma {:induction false} MentionsAre(ms: seq<Msg>)
    ensures forall id :: id in CallIds(ms) ==> id in MentionsOf(ms)
    ensures forall id :: Answered(ms, id) ==> id in MentionsOf(ms)
    ensures forall id :: id in MentionsOf(ms) ==> id in CallIds(ms) || Answered(ms, id)
  {
    if ms != [] {
      MentionsAre(ms[1..]);
      if ms[0].Assistant? { IdsAreIdSet(ms[0].calls); }
      assert ms == [ms[0]] + ms[1..];
      assert ms[0].Tool? ==> Answered(ms, ms[0].id);
      forall id | Answered(ms[1..], id) ensures Answered(ms, id) {
        var m :| m in ms[1..] && m.Tool? && m.id == id;
        assert m in ms;
      }
    }
  }

  lemma SyntheticAnswers(lost: seq<Orphan>, id: string)
    requires forall o :: o in lost ==> o.content == CANCELLED
    requires Orphan(id, CANCELLED) in lost
    ensures Answers(Synthetic(lost), id) != [] && Answers(Synthetic(lost), id)[0] == Tool(id, CANCELLED)
  {
    var synth := Synthetic(lost);
    var i :| 0 <= i < |lost| && lost[i] == Orphan(id, CANCELLED);
    assert synth[i] == Tool(id, CANCELLED) && synth[i] in synth;
    AnswersAre(synth, id);
    var first := Answers(synth, id)[0];
    assert first in Answers(synth, id);
    var k :| 0 <= k < |synth| && synth[k] == first;
    assert lost[k] in lost;
  }

  /** After the cancellations are appended, every call of `ms` has an answer: the recorded one, or
      the cancellation. */
  lemma HealedAnswers(ms: seq<Msg>, later: seq<Msg>, id: string)
    requires id in CallIds(ms)
    ensures
      var log := ms + Synthetic(Repair(ms).orphans) + later;
      Answers(log, id) != [] && Answers(log, id)[0] == Answer(ms, id)
  {
    var lost := Repair(ms).orphans;
    AnswersAppend(ms + Synthetic(lost), later, id);
    AnswersAppend(ms, Synthetic(lost), id);
    if Answers(ms, id) == [] {
      AnswersAre(ms, id);
      OrphansAreUnanswered(ms);
      assert Orphan(id, CANCELLED) in lost;
      SyntheticAnswers(lost, id);
    }
  }

  /** On every history: repairing the healed log, with any legal turns of fresh calls after it,
      gives the list that was sent followed by those turns, and cancels nothing more. */
  lemma RepairHealedLog(ms: seq<Msg>, s: seq<Msg>)
    requires Closed(s) && Distinct(CallIds(s)) && NewTo(s, ms)
    ensures Repair(ms + Synthetic(Repair(ms).orphans) + s) == Repaired(Repair(ms).msgs + s, [])
  {
    var synth := Synthetic(Repair(ms).orphans);
    var log := ms + synth + s;
    var placed := {} + MentionsOf(ms);
    assert log == ms + (synth + s);
    RepairFromSplit(log, ms, synth + s, {});
    forall id | id in CallIds(ms) { HealedAnswers(ms, s, id); }
    RepairFromAgree(ms, log, ms, {});
    MentionsAre(ms);
    OrphansAreUnanswered(ms);
    forall m | m in synth ensures m.Tool? && m.id in placed {
      var i :| 0 <= i < |synth| && synth[i] == m;
      assert Repair(ms).orphans[i] in Repair(ms).orphans;
    }
    SkipPlaced(log, synth, s, placed);
    ClosedIsSettled(s, placed);
    forall m | m in ms + synth && m.Tool? ensures m.id in placed {
      assert m in ms ==> Answered(ms, m.id);
    }
    forall id | id !in placed ensures Answers(log, id) == Answers(s, id) {
      AnswersAppend(ms + synth, s, id);
      AnswersAre(ms + synth, id);
    }
    SettledIsFixed(log, s, placed);
  }

  /** The log itself, before any suffix: repairing it again cancels nothing. */
  lemma RepairHealed(ms: seq<Msg>)
    ensures Repair(ms + Synthetic(Repair(ms).orphans)) == Repaired(Repair(ms).msgs, [])
  {
    RepairHealedLog(ms, []);
    var log := ms + Synthetic(Repair(ms).orphans);
    assert log + [] == log && Repair(ms).msgs + [] == Repair(ms).msgs;
  }

  /** The id assumption is needed: when a turn reuses a call id, repair drops its answer and a
      legal transcript becomes an illegal one. */
  lemma ReusedIdBreaksTranscript(call: ToolCall, first: string, second: string)
    ensures
      var a := Assistant("", [call]);
      var ms := [a, Tool(call.id, first), a, Tool(call.id, second)];
      Closed(ms) && Repair(ms).msgs == [a, Tool(call.id, first), a] && !Closed(Repair(ms).msgs)
  {
    var a := Assistant("", [call]);
    var t1, t2 := Tool(call.id, first), Tool(call.id, second);
    var ms := [a, t1, a, t2];
    assert AnswersTo([call], [t1]) && AnswersTo([call], [t2]) && Closed([]);
    assert [a, t2][1..] == [t2] && [a, t2][2..] == [] && Closed([a, t2]);
    assert ms[1..] == [t1, a, t2] && ms[2..] == [a, t2] && Closed(ms);
    var used := {} + IdSet([call]);
    assert used == {call.id} && used + Mentions(t1) == used && used + Mentions(a) == used;
    assert Answers(ms, call.id) == [t1] + Answers([a, t2], call.id);
    assert Fresh([call], used) == [] && Fresh([call], {}) == [call.id];
    assert RepairFrom(ms, [t2], used) == Repaired([], []);
    assert Emit(ms, a, used).msgs == [a];
    assert RepairFrom(ms, [a, t2], used).msgs == [a];
    assert [t1, a, t2][1..] == [a, t2];
    assert RepairFrom(ms, [t1, a, t2], used).msgs == [a];
    assert Emit(ms, a, {}).msgs == [a, t1];
    assert !Closed([a]) by { assert [a][1..] == []; }
    assert [a, t1, a][1..] == [t1, a] && [a, t1, a][2..] == [a];
  }

  // ---- which answers are kept ----

  /** The first answer recorded for its id. */
  predicate FirstAnswer(ms: seq<Msg>, t: Msg) {
    exists i :: 0 <= i < |ms| && ms[i] == t && t.Tool? && forall j :: 0 <= j < i ==> !(ms[j].Tool? && ms[j].id == t.id)
  }

  /** A tool message of the repaired list: the first answer recorded for its id, or, if there is none, the
      cancellation. */
  predicate RightAnswer(ms: seq<Msg>, t: Msg) {
    t.Tool? ==> FirstAnswer(ms, t) || (!Answered(ms, t.id) && t.content == CANCELLED)
  }

  lemma {:induction false} AnswersHead(ms: seq<Msg>, id: string)
    ensures Answers(ms, id) == [] <==> !Answered(ms, id)
    ensures Answers(ms, id) != [] ==> FirstAnswer(ms, Answers(ms, id)[0]) && Answers(ms, id)[0].id == id
  {
    if ms != [] {
      var rest := ms[1..];
      assert ms == [ms[0]] + rest;
      AnswersHead(rest, id);
      if ms[0].Tool? && ms[0].id == id {
        assert FirstAnswer(ms, ms[0]);
      } else if Answers(rest, id) != [] {
        var t := Answers(rest, id)[0];
        var i :| 0 <= i < |rest| && rest[i] == t && forall j :: 0 <= j < i ==> !(rest[j].Tool? && rest[j].id == t.id);
        assert ms[i + 1] == t;
      }
    }
  }

  lemma EmitRight(all: seq<Msg>, before: seq<Msg>, m: Msg, rest: seq<Msg>)
    requires all == before + [m] + rest
    ensures forall t :: t in Emit(all, m, MentionsOf(before)).msgs ==> RightAnswer(all, t)
  {
    var placed := MentionsOf(before);
    MentionsAre(before);
    match m
    case Assistant(_, calls) =>
      var ids := Fresh(calls, placed);
      forall t | t in AnswersFor(all, ids) ensures RightAnswer(all, t) {
        var i :| 0 <= i < |ids| && AnswersFor(all, ids)[i] == t;
        AnswersHead(all, ids[i]);
      }
    case Tool(id, _) =>
      if id !in placed {
        assert all[|before|] == m;
        forall j | 0 <= j < |before| ensures !(all[j].Tool? && all[j].id == id) {
          if before[j].Tool? && before[j].id == id { assert before[j] in before && Answered(before, id); }
        }
        assert FirstAnswer(all, m);
      }
    case _ =>
  }

  lemma {:induction false} RepairRight(all: seq<Msg>, before: seq<Msg>, rest: seq<Msg>)
    requires all == before + rest
    ensures forall t :: t in RepairFrom(all, rest, MentionsOf(before)).msgs ==> RightAnswer(all, t)
    decreases |rest|
  {
    hide RightAnswer, Emit;
    if rest != [] {
      var m := rest[0];
      assert all == before + [m] + rest[1..];
      EmitRight(all, before, m, rest[1..]);
      MentionsSnoc(before, m);
      RepairRight(all, before + [m], rest[1..]);
    }
  }

  lemma {:induction false} MentionsSnoc(ms: seq<Msg>, m: Msg)
    ensures MentionsOf(ms + [m]) == MentionsOf(ms) + Mentions(m)
  {
    if ms == [] {
      assert [m][1..] == [] && ms + [m] == [m];
    } else {
      assert (ms + [m])[0] == ms[0] && (ms + [m])[1..] == ms[1..] + [m];
      MentionsSnoc(ms[1..], m);
    }
  }

  /** On every input, each result in the repaired list is the first one recorded for its id, with its content, or the
      cancellation of a call without any. */
  lemma RepairedAnswersAreFirst(ms: seq<Msg>)
    ensures forall t :: t in Repair(ms).msgs ==> RightAnswer(ms, t)
  {
    assert [] + ms == ms && MentionsOf([]) == {};
    RepairRight(ms, [], ms);
  }
}
