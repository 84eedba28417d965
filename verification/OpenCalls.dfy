/** The shape of a recorded conversation: after each assistant message its calls are open, every tool
    result closes one open call, and nothing else is recorded until all are closed. Results may be out
    of call order. */
module OpenCalls {
  import opened Transcript
  import opened TranscriptRepair
  import opened RepairLaws

  function OpenStep(m: Msg, open: set<string>): set<string> {
    match m
    case Assistant(_, calls) => IdSet(calls)
    case Tool(id, _) => open - {id}
    case _ => {}
  }

  predicate StepOk(m: Msg, open: set<string>) {
    match m
    case Assistant(_, calls) => open == {} && Distinct(Ids(calls))
    case Tool(id, _) => id in open
    case _ => open == {}
  }

  predicate Grouped(ms: seq<Msg>, open: set<string>) {
    ms == [] || (StepOk(ms[0], open) && Grouped(ms[1..], OpenStep(ms[0], open)))
  }

  function OpenAfter(ms: seq<Msg>, open: set<string>): set<string> {
    if ms == [] then open else OpenAfter(ms[1..], OpenStep(ms[0], open))
  }

  lemma {:induction false} GroupedAppend(a: seq<Msg>, b: seq<Msg>, open: set<string>)
    ensures Grouped(a + b, open) <==> Grouped(a, open) && Grouped(b, OpenAfter(a, open))
    ensures OpenAfter(a + b, open) == OpenAfter(b, OpenAfter(a, open))
  {
    if a == [] { assert a + b == b; }
    else {
      assert (a + b)[0] == a[0] && (a + b)[1..] == a[1..] + b;
      GroupedAppend(a[1..], b, OpenStep(a[0], open));
    }
  }

  lemma GroupedPush(ms: seq<Msg>, m: Msg)
    requires Grouped(ms, {}) && StepOk(m, OpenAfter(ms, {}))
    ensures Grouped(ms + [m], {}) && OpenAfter(ms + [m], {}) == OpenStep(m, OpenAfter(ms, {}))
  {
    GroupedAppend(ms, [m], {});
  }

  /** A tail that starts where a turn starts is grouped, and leaves the same calls open. */
  lemma GroupedTail(a: seq<Msg>, b: seq<Msg>)
    requires Grouped(a + b, {}) && b != [] && !b[0].Tool?
    ensures Grouped(b, {}) && OpenAfter(b, {}) == OpenAfter(a + b, {})
  {
    GroupedAppend(a, b, {});
  }

  /** With distinct ids, the open calls are exactly the unanswered ones, and answers follow calls. */
  lemma {:induction false} OpenAreUnanswered(ms: seq<Msg>, open: set<string>)
    requires Grouped(ms, open) && Distinct(CallIds(ms)) && Disjoint(CallIds(ms), open)
    ensures forall id :: id in OpenAfter(ms, open) <==> (id in open || id in CallIds(ms)) && !Answered(ms, id)
  {
    if ms != [] {
      var m, rest := ms[0], ms[1..];
      var open' := OpenStep(m, open);
      DistinctAppend(IdsOf(m), CallIds(rest));
      if m.Assistant? { IdsAreIdSet(m.calls); }
      OpenAreUnanswered(rest, open');
      forall id ensures Answered(ms, id) <==> (m.Tool? && m.id == id) || Answered(rest, id) {
        AnsweredCons(ms, id);
      }
    }
  }

  lemma AnsweredCons(ms: seq<Msg>, id: string)
    requires ms != []
    ensures Answered(ms, id) <==> (ms[0].Tool? && ms[0].id == id) || Answered(ms[1..], id)
  {
    assert ms == [ms[0]] + ms[1..];
    if Answered(ms[1..], id) {
      var t :| t in ms[1..] && t.Tool? && t.id == id;
      assert t in ms;
    }
  }

  lemma {:induction false} GroupedFollow(ms: seq<Msg>, open: set<string>, i: nat)
    requires Grouped(ms, open) && i < |ms| && ms[i].Tool?
    ensures ms[i].id in open || exists j :: 0 <= j < i && ms[i].id in IdsOf(ms[j])
  {
    if i > 0 {
      GroupedFollow(ms[1..], OpenStep(ms[0], open), i - 1);
      if ms[i].id in OpenStep(ms[0], open) {
        if ms[0].Assistant? { IdsAreIdSet(ms[0].calls); assert ms[i].id in IdsOf(ms[0]); }
      } else {
        var j :| 0 <= j < i - 1 && ms[1..][i - 1].id in IdsOf(ms[1..][j]);
        assert ms[i].id in IdsOf(ms[j + 1]);
      }
    }
  }

  lemma GroupedAnswersFollow(ms: seq<Msg>)
    requires Grouped(ms, {})
    ensures AnswersFollowCalls(ms)
    ensures forall id :: id in MentionsOf(ms) <==> id in CallIds(ms)
  {
    forall i | 0 <= i < |ms| && ms[i].Tool? ensures exists j :: 0 <= j < i && ms[i].id in IdsOf(ms[j]) {
      GroupedFollow(ms, {}, i);
    }
    MentionsAre(ms);
    forall id | Answered(ms, id) ensures id in CallIds(ms) {
      var t :| t in ms && t.Tool? && t.id == id;
      var i :| 0 <= i < |ms| && ms[i] == t;
      var j :| 0 <= j < i && ms[i].id in IdsOf(ms[j]);
      CallIdsMember(ms, j, id);
    }
  }

  function OrphanIds(lost: seq<Orphan>): set<string> {
    if lost == [] then {} else {lost[0].id} + OrphanIds(lost[1..])
  }

  predicate NoRepeat(lost: seq<Orphan>) {
    lost == [] || (lost[0].id !in OrphanIds(lost[1..]) && NoRepeat(lost[1..]))
  }

  lemma {:induction false} OrphanIdsAre(lost: seq<Orphan>)
    requires forall o :: o in lost ==> o.content == CANCELLED
    ensures forall id :: id in OrphanIds(lost) <==> Orphan(id, CANCELLED) in lost
    ensures Distinct(lost) ==> NoRepeat(lost)
  {
    if lost != [] {
      assert lost == [lost[0]] + lost[1..] && lost[0] == Orphan(lost[0].id, CANCELLED);
      OrphanIdsAre(lost[1..]);
      DistinctAppend([lost[0]], lost[1..]);
      assert lost[0] in [lost[0]];
    }
  }

  /** Closing each open call once leaves none open. */
  lemma {:induction false} CloseAll(lost: seq<Orphan>)
    requires NoRepeat(lost)
    ensures Grouped(Synthetic(lost), OrphanIds(lost)) && OpenAfter(Synthetic(lost), OrphanIds(lost)) == {}
  {
    if lost != [] {
      var ms := Synthetic(lost);
      assert ms[0] == Tool(lost[0].id, lost[0].content) && ms[1..] == Synthetic(lost[1..]);
      assert OrphanIds(lost) - {lost[0].id} == OrphanIds(lost[1..]);
      CloseAll(lost[1..]);
    }
  }

  /** Repair cancels exactly the open calls of a recorded conversation, so healing it closes every turn. */
  lemma HealCloses(ms: seq<Msg>)
    requires Grouped(ms, {}) && Distinct(CallIds(ms))
    ensures
      var lost := Repair(ms).orphans;
      && OrphanIds(lost) == OpenAfter(ms, {}) && NoRepeat(lost)
      && Grouped(ms + Synthetic(lost), {}) && OpenAfter(ms + Synthetic(lost), {}) == {}
  {
    var lost := Repair(ms).orphans;
    OrphansAreUnanswered(ms);
    OrphanIdsAre(lost);
    OpenAreUnanswered(ms, {});
    CloseAll(lost);
    GroupedAppend(ms, Synthetic(lost), {});
  }
}
