/** `repair_messages`: every assistant message is followed by its answers, cancelled calls get a
    synthetic answer, and misplaced or duplicate tool results are dropped. */
module TranscriptRepair {
  import opened Transcript

  datatype Orphan = Orphan(id: string, content: string)

  datatype Repaired = Repaired(msgs: seq<Msg>, orphans: seq<Orphan>)

  const CANCELLED := "unanswered_tool_call: this tool call was left unapproved and is cancelled before continuing"

  /** The tool results recorded for `id`, oldest first. */
  function Answers(ms: seq<Msg>, id: string): seq<Msg> {
    if ms == [] then []
    else (if ms[0].Tool? && ms[0].id == id then [ms[0]] else []) + Answers(ms[1..], id)
  }

  predicate Answered(ms: seq<Msg>, id: string) {
    exists m :: m in ms && m.Tool? && m.id == id
  }

  /** What a call gets: its oldest recorded result, or a cancellation. */
  function Answer(all: seq<Msg>, id: string): Msg {
    var recorded := Answers(all, id);
    if recorded == [] then Tool(id, CANCELLED) else recorded[0]
  }

  /** The ids of `calls` that still need an answer, each once, in call order. */
  function Fresh(calls: seq<ToolCall>, placed: set<string>): seq<string> {
    if calls == [] then []
    else if calls[0].id in placed then Fresh(calls[1..], placed)
    else [calls[0].id] + Fresh(calls[1..], placed + {calls[0].id})
  }

  function AnswersFor(all: seq<Msg>, ids: seq<string>): (ms: seq<Msg>)
    ensures |ms| == |ids|
    ensures forall i :: 0 <= i < |ids| ==> ms[i] == Answer(all, ids[i])
  {
    if ids == [] then [] else [Answer(all, ids[0])] + AnswersFor(all, ids[1..])
  }

  function Missing(all: seq<Msg>, ids: seq<string>): seq<Orphan> {
    if ids == [] then []
    else (if Answers(all, ids[0]) == [] then [Orphan(ids[0], CANCELLED)] else [])
         + Missing(all, ids[1..])
  }

  function Join(a: Repaired, b: Repaired): Repaired {
    Repaired(a.msgs + b.msgs, a.orphans + b.orphans)
  }

  function IdSet(calls: seq<ToolCall>): set<string> {
    set c | c in calls :: c.id
  }

  /** What message `m` of the list `all` contributes; `placed` are the ids already answered. */
  function Emit(all: seq<Msg>, m: Msg, placed: set<string>): Repaired {
    match m
    case Assistant(_, calls) =>
      var ids := Fresh(calls, placed);
      Repaired([m] + AnswersFor(all, ids), Missing(all, ids))
    case Tool(id, _) => Repaired(if id in placed then [] else [m], [])
    case _ => Repaired([m], [])
  }

  /** The ids that `m` calls or answers. */
  function Mentions(m: Msg): set<string> {
    match m
    case Assistant(_, calls) => IdSet(calls)
    case Tool(id, _) => {id}
    case _ => {}
  }

  function RepairFrom(all: seq<Msg>, rest: seq<Msg>, placed: set<string>): Repaired
    decreases |rest|
  {
    if rest == [] then Repaired([], [])
    else Join(Emit(all, rest[0], placed), RepairFrom(all, rest[1..], placed + Mentions(rest[0])))
  }

  function Repair(ms: seq<Msg>): Repaired {
    RepairFrom(ms, ms, {})
  }

  /** The cancellations as tool messages: what repair appends to the log. */
  function Synthetic(orphans: seq<Orphan>): (ms: seq<Msg>)
    ensures |ms| == |orphans|
    ensures forall i :: 0 <= i < |ms| ==> ms[i] == Tool(orphans[i].id, orphans[i].content)
  {
    seq(|orphans|, i requires 0 <= i < |orphans| => Tool(orphans[i].id, orphans[i].content))
  }

  // ---- the method: a queue per call id, popped as the answers are placed ----

  function Queue(queues: map<string, seq<Msg>>, id: string): seq<Msg> {
    if id in queues then queues[id] else []
  }

  /** The queues hold every recorded answer of the ids not yet placed. */
  ghost predicate Tracks(queues: map<string, seq<Msg>>, ms: seq<Msg>, placed: set<string>) {
    forall id {:trigger Queue(queues, id)} :: id !in placed ==> Queue(queues, id) == Answers(ms, id)
  }

  lemma TracksPush(queues: map<string, seq<Msg>>, ms: seq<Msg>, m: Msg)
    requires Tracks(queues, ms, {})
    ensures Tracks(if m.Tool? then queues[m.id := Queue(queues, m.id) + [m]] else queues, ms + [m], {})
  {
    var after := if m.Tool? then queues[m.id := Queue(queues, m.id) + [m]] else queues;
    forall id ensures Queue(after, id) == Answers(ms + [m], id) {
      assert Queue(queues, id) == Answers(ms, id);
      AnswersPush(ms, m, id);
    }
  }

  method RepairMessages(messages: seq<Msg>) returns (repaired: seq<Msg>, orphans: seq<Orphan>)
    ensures Repaired(repaired, orphans) == Repair(messages)
  {
    var queues := IndexAnswers(messages);
    repaired, orphans := [], [];
    var placed: set<string> := {};
    for i := 0 to |messages|
      invariant Tracks(queues, messages, placed)
      invariant Repair(messages) ==
                Join(Repaired(repaired, orphans), RepairFrom(messages, messages[i..], placed))
    {
      var msg := messages[i];
      assert messages[i..][0] == msg && messages[i..][1..] == messages[i + 1..];
      ghost var done := Repaired(repaired, orphans);
      ghost var step := Emit(messages, msg, placed);
      JoinAssoc(done, step, RepairFrom(messages, messages[i + 1..], placed + Mentions(msg)));
      if msg.Assistant? {
        var tools, lost;
        tools, lost, queues, placed := PlaceAnswers(messages, msg.calls, queues, placed);
        repaired := repaired + ([msg] + tools);
        orphans := orphans + lost;
      } else if msg.Tool? && msg.id in placed {
        assert placed + Mentions(msg) == placed;
      } else {
        placed := placed + Mentions(msg);
        repaired := repaired + [msg];
      }
      assert Repaired(repaired, orphans) == Join(done, step);
    }
  }

  /** The first loop of `repair_messages`: a queue of recorded answers per call id. */
  method IndexAnswers(messages: seq<Msg>) returns (queues: map<string, seq<Msg>>)
    ensures Tracks(queues, messages, {})
  {
    queues := map[];
    for i := 0 to |messages|
      invariant Tracks(queues, messages[..i], {})
    {
      var msg := messages[i];
      assert messages[..i + 1] == messages[..i] + [msg];
      TracksPush(queues, messages[..i], msg);
      if msg.Tool? {
        queues := queues[msg.id := Queue(queues, msg.id) + [msg]];
      }
    }
    assert messages[..|messages|] == messages;
  }

  /** The inner loop of `repair_messages`: one answer for every call not yet placed. */
  method PlaceAnswers(ghost all: seq<Msg>, calls: seq<ToolCall>, queues0: map<string, seq<Msg>>, placed0: set<string>)
    returns (tools: seq<Msg>, lost: seq<Orphan>, queues: map<string, seq<Msg>>, placed: set<string>)
    requires Tracks(queues0, all, placed0)
    ensures Tracks(queues, all, placed)
    ensures placed == placed0 + IdSet(calls)
    ensures tools == AnswersFor(all, Fresh(calls, placed0))
    ensures lost == Missing(all, Fresh(calls, placed0))
  {
    tools, lost, queues, placed := [], [], queues0, placed0;
    for j := 0 to |calls|
      invariant Tracks(queues, all, placed)
      invariant placed == placed0 + IdSet(calls[..j])
      invariant Placing(all, calls, placed0) == Join(Repaired(tools, lost), Placing(all, calls[j..], placed))
    {
      var id := calls[j].id;
      PlaceStep(all, calls, j, placed, Repaired(tools, lost));
      if id in placed { continue; }
      var queue := Queue(queues, id);
      if queue != [] {
        ghost var before := queues;
        queues := queues[id := queue[1..]];
        assert forall other :: other != id ==> Queue(queues, other) == Queue(before, other);
        tools := tools + [queue[0]];
      } else {
        lost := lost + [Orphan(id, CANCELLED)];
        tools := tools + [Tool(id, CANCELLED)];
      }
      placed := placed + {id};
    }
    assert calls[..|calls|] == calls;
  }

  ghost function Placing(all: seq<Msg>, calls: seq<ToolCall>, placed: set<string>): Repaired {
    Repaired(AnswersFor(all, Fresh(calls, placed)), Missing(all, Fresh(calls, placed)))
  }

  lemma PlaceStep(all: seq<Msg>, calls: seq<ToolCall>, j: nat, placed: set<string>, done: Repaired)
    requires j < |calls|
    ensures
      var id := calls[j].id;
      IdSet(calls[..j + 1]) == IdSet(calls[..j]) + {id} &&
      Join(done, Placing(all, calls[j..], placed)) ==
      if id in placed then Join(done, Placing(all, calls[j + 1..], placed))
      else Join(Repaired(done.msgs + [Answer(all, id)],
                         if Answers(all, id) == [] then done.orphans + [Orphan(id, CANCELLED)] else done.orphans),
                Placing(all, calls[j + 1..], placed + {id}))
  {
    assert calls[..j + 1] == calls[..j] + [calls[j]];
    assert calls[j..][1..] == calls[j + 1..];
    PlacingStep(all, calls[j..], placed, done);
  }

  lemma PlacingStep(all: seq<Msg>, calls: seq<ToolCall>, placed: set<string>, done: Repaired)
    requires calls != []
    ensures
      var id := calls[0].id;
      Join(done, Placing(all, calls, placed)) ==
      if id in placed then Join(done, Placing(all, calls[1..], placed))
      else Join(Repaired(done.msgs + [Answer(all, id)],
                         if Answers(all, id) == [] then done.orphans + [Orphan(id, CANCELLED)] else done.orphans),
                Placing(all, calls[1..], placed + {id}))
  {
    var id := calls[0].id;
    FreshStep(all, calls, placed);
    if id !in placed {
      var lost := if Answers(all, id) == [] then [Orphan(id, CANCELLED)] else [];
      var later := Placing(all, calls[1..], placed + {id});
      hide Fresh, AnswersFor, Missing, Answers, Placing;
      assert Placing(all, calls, placed) == Join(Repaired([Answer(all, id)], lost), later);
      JoinAssoc(done, Repaired([Answer(all, id)], lost), later);
      assert done.orphans + [] == done.orphans;
    }
  }

  lemma JoinAssoc(a: Repaired, b: Repaired, c: Repaired)
    ensures Join(a, Join(b, c)) == Join(Join(a, b), c)
  {
    assert a.msgs + (b.msgs + c.msgs) == a.msgs + b.msgs + c.msgs;
    assert a.orphans + (b.orphans + c.orphans) == a.orphans + b.orphans + c.orphans;
  }

  // ---- facts about the pieces ----

  lemma {:induction false} AnswersAppend(a: seq<Msg>, b: seq<Msg>, id: string)
    ensures Answers(a + b, id) == Answers(a, id) + Answers(b, id)
  {
    if a == [] {
      assert a + b == b;
    } else {
      assert (a + b)[1..] == a[1..] + b;
      AnswersAppend(a[1..], b, id);
    }
  }

  lemma {:induction false} AnswersAre(ms: seq<Msg>, id: string)
    ensures Answers(ms, id) != [] <==> Answered(ms, id)
    ensures forall m :: m in Answers(ms, id) ==> m.Tool? && m.id == id && m in ms
  {
    if ms != [] { AnswersAre(ms[1..], id); }
  }

  lemma AnswerIs(all: seq<Msg>, id: string)
    ensures Answer(all, id).Tool? && Answer(all, id).id == id
  {
    AnswersAre(all, id);
  }

  lemma AnswersPush(ms: seq<Msg>, m: Msg, id: string)
    ensures Answers(ms + [m], id) == (if m.Tool? && m.id == id then Answers(ms, id) + [m] else Answers(ms, id))
  {
    AnswersAppend(ms, [m], id);
  }

  lemma FreshStep(all: seq<Msg>, calls: seq<ToolCall>, placed: set<string>)
    requires calls != []
    ensures
      var id, rest := calls[0].id, calls[1..];
      if id in placed then Fresh(calls, placed) == Fresh(rest, placed)
      else Placing(all, calls, placed) ==
           Join(Repaired([Answer(all, id)], if Answers(all, id) == [] then [Orphan(id, CANCELLED)] else []),
                Placing(all, rest, placed + {id}))
  {
    var later := Fresh(calls[1..], placed + {calls[0].id});
    assert ([calls[0].id] + later)[1..] == later;
  }

  lemma {:induction false} FreshIs(calls: seq<ToolCall>, placed: set<string>)
    ensures Distinct(Fresh(calls, placed))
    ensures forall id :: id in Fresh(calls, placed) <==> id in IdSet(calls) && id !in placed
  {
    if calls != [] {
      assert calls == [calls[0]] + calls[1..];
      assert IdSet(calls) == {calls[0].id} + IdSet(calls[1..]);
      if calls[0].id in placed { FreshIs(calls[1..], placed); }
      else { FreshIs(calls[1..], placed + {calls[0].id}); }
    }
  }

  lemma {:induction false} FreshAll(calls: seq<ToolCall>, placed: set<string>)
    requires Distinct(Ids(calls)) && forall c :: c in calls ==> c.id !in placed
    ensures Fresh(calls, placed) == Ids(calls)
  {
    if calls != [] {
      var ids := Ids(calls);
      assert ids == [calls[0].id] + Ids(calls[1..]);
      assert Distinct(Ids(calls[1..])) by { assert Ids(calls[1..]) == ids[1..]; }
      forall c | c in calls[1..] ensures c.id != calls[0].id {
        var i :| 0 <= i < |calls[1..]| && calls[1..][i] == c;
        assert ids[0] != ids[i + 1];
      }
      FreshAll(calls[1..], placed + {calls[0].id});
    }
  }

  lemma {:induction false} MissingIs(all: seq<Msg>, ids: seq<string>)
    requires Distinct(ids)
    ensures Distinct(Missing(all, ids))
    ensures forall o :: o in Missing(all, ids) <==> o.content == CANCELLED && o.id in ids && !Answered(all, o.id)
  {
    if ids != [] {
      AnswersAre(all, ids[0]);
      MissingIs(all, ids[1..]);
    }
  }
}
