/** How a turn ends and what it leaves, for every reply: the reason, the messages, the records and the calls left
    waiting. Nothing here mentions how the loop or the dispatcher is written. */
module TurnResults {
  import opened Options
  import opened Transcript
  import opened SessionLog
  import opened Tell
  import opened TurnLaws
  import opened DispatchResults
  import opened Prune
  import Gate

  /** The calls of a reply, with the gate at the start of the turn. */
  function CallsOf(k: Site, l: Loop, cfg: Config, w: World): Batch
    requires w.reply(l.turn).Reply?
  {
    Batch(k, cfg, w, l.turn, w.reply(l.turn).calls, Gate.Counts(0, l.gate.recent, l.gate.session))
  }

  /** A reply as it is recorded: the message, and the usage if it came with one. */
  function ReplyRecords(content: string, calls: seq<ToolCall>, usage: Option<Option<nat>>): seq<Record> {
    [Message(Assistant(content, calls))] + if usage.Some? then [TokenUsage(usage.value)] else []
  }

  /** From `a` to `b`: these messages, events and records were added, the list was sent once, and `pending` is as
      given. */
  predicate Added(a: St, b: St, base: seq<Msg>, ms: seq<Msg>, events: seq<Event>, recs: seq<Record>,
                  pending: Option<seq<Pending>>) {
    && b.messages == a.messages + ms && b.hist == a.hist + events && b.pending == pending
    && b.sent == a.sent + [Sent(a.messages, a.log, base, a.attached)]
    && (a.attached ==> Recs(b.log) == Recs(a.log) + recs)
  }

  /** The turn, in full. `n` is the number of its calls before one finds the session exhausted. */
  predicate TurnIs(k: Site, l: Loop, cfg: Config, w: World, byApprove: bool, base: seq<Msg>, n: nat, t: TurnResult)
    requires w.reply(l.turn).Reply? ==> n <= |w.reply(l.turn).calls|
  {
    match w.reply(l.turn)
    case TransportFault =>
      t.Ended? && t.reason == TransportError && Added(l.st, t.end, base, [], [], [], l.st.pending)
    case HttpFault =>
      t.Ended? && t.reason == Failed && Added(l.st, t.end, base, [], [], [], l.st.pending)
    case Reply(content, calls, usage) =>
      var b, a, recs := CallsOf(k, l, cfg, w), Assistant(content, calls), ReplyRecords(content, calls, usage);
      if calls == [] then
        if byApprove && Blank(content) && !l.retried then
          var nudge := User(RESUME_NUDGE_PROMPT);
          && t.Again? && t.next.retried && t.next.turn == l.turn + 1 && t.next.gate == b.gate
          && Added(l.st, t.next.st, base, [a, nudge], [], recs + [Message(nudge)], l.st.pending)
        else t.Ended? && t.reason == Completed && Added(l.st, t.end, base, [a], [], recs, l.st.pending)
      else
        var ms, all := [a] + Answers(b, n), recs + Recorded(b, n);
        if n < |calls| then
          && t.Ended? && t.reason == SessionToolCallExhausted
          && Added(l.st, t.end, base, ms, Events(b, n), all, l.st.pending)
        else if exists i :: 0 <= i < n && Wants(b, i) then
          && t.Ended? && t.reason == AwaitingApproval
          && Added(l.st, t.end, base, ms, Events(b, n), all, Some(ParkedUpTo(b, n)))
        else
          && t.Again? && t.next.retried == l.retried && t.next.turn == l.turn + 1 && t.next.gate == GateAt(b, n)
          && Added(l.st, t.next.st, base, ms, Events(b, n), all, l.st.pending)
  }

  lemma ReplyAdds(k: Site, st: St, base: seq<Msg>, r: Reply)
    requires r.Reply?
    ensures Added(st, RecordReply(k, Send(st, base), r), base, [Assistant(r.content, r.calls)], [],
                  ReplyRecords(r.content, r.calls, r.usage), st.pending)
    ensures RecordReply(k, Send(st, base), r).attached == st.attached
  {
    hide Recs;
    var a := Assistant(r.content, r.calls);
    var s1 := Send(st, base);
    RecsPush(s1.log, Stamped(k.clock(s1.stamps), Message(a)));
    var s2 := Append(k, s1, Message(a));
    if r.usage.Some? { RecsPush(s2.log, Stamped(k.clock(s2.stamps), TokenUsage(r.usage.value))); }
    assert st.hist + [] == st.hist;
    ConcatAssoc(Recs(st.log), [Message(a)], if r.usage.Some? then [TokenUsage(r.usage.value)] else []);
  }

  lemma AddMore(a: St, b: St, c: St, base: seq<Msg>, ms: seq<Msg>, recs: seq<Record>, ms': seq<Msg>,
                events: seq<Event>, recs': seq<Record>, pending: Option<seq<Pending>>)
    requires Added(a, b, base, ms, [], recs, b.pending) && b.attached == a.attached
    requires c.messages == b.messages + ms' && c.hist == b.hist + events && c.sent == b.sent && c.pending == pending
    requires a.attached ==> Recs(c.log) == Recs(b.log) + recs'
    ensures Added(a, c, base, ms + ms', events, recs + recs', pending)
  {
    assert a.messages + ms + ms' == a.messages + (ms + ms') && a.hist + [] + events == a.hist + events;
    assert Recs(a.log) + recs + recs' == Recs(a.log) + (recs + recs');
  }

  lemma NudgeAdds(k: Site, st: St, base: seq<Msg>, r: Reply)
    requires r.Reply?
    ensures
      var nudge := User(RESUME_NUDGE_PROMPT);
      Added(st, AppendMsg(k, RecordReply(k, Send(st, base), r), nudge), base,
            [Assistant(r.content, r.calls), nudge], [],
            ReplyRecords(r.content, r.calls, r.usage) + [Message(nudge)], st.pending)
  {
    var nudge, s1 := User(RESUME_NUDGE_PROMPT), RecordReply(k, Send(st, base), r);
    ReplyAdds(k, st, base, r);
    RecsPush(s1.log, Stamped(k.clock(s1.stamps), Message(nudge)));
    assert s1.hist + [] == s1.hist;
    assert [Assistant(r.content, r.calls)] + [nudge] == [Assistant(r.content, r.calls), nudge];
    hide RecordReply, Recs, ReplyRecords, Added;
    AddMore(st, s1, AppendMsg(k, s1, nudge), base, [Assistant(r.content, r.calls)],
            ReplyRecords(r.content, r.calls, r.usage), [nudge], [], [Message(nudge)], st.pending);
  }

  lemma CallsAdd(k: Site, l: Loop, cfg: Config, w: World, base: seq<Msg>, n: nat, pending: Option<seq<Pending>>)
    requires w.reply(l.turn).Reply? && StopsAt(CallsOf(k, l, cfg, w), n)
    ensures
      var r, b := w.reply(l.turn), CallsOf(k, l, cfg, w);
      var d := DispatchFrom(k, Dispatched(RecordReply(k, Send(l.st, base), r), b.gate, [], false), cfg, w, l.turn,
                            r.calls, 0);
      && d.exhausted == (n < |r.calls|) && d.parked == ParkedUpTo(b, n) && d.st.pending == l.st.pending
      && (n == |r.calls| ==> d.gate == GateAt(b, n))
      && Added(l.st, d.st.(pending := pending), base, [Assistant(r.content, r.calls)] + Answers(b, n), Events(b, n),
               ReplyRecords(r.content, r.calls, r.usage) + Recorded(b, n), pending)
  {
    var r, b := w.reply(l.turn), CallsOf(k, l, cfg, w);
    var st1 := RecordReply(k, Send(l.st, base), r);
    ReplyAdds(k, l.st, base, r);
    DispatchMeans(b, st1, n);
    var d := DispatchFrom(k, Dispatched(st1, b.gate, [], false), cfg, w, l.turn, r.calls, 0);
    hide DispatchFrom, RecordReply, Recs, ReplyRecords, Answers, Events, Recorded, ParkedUpTo, GateAt;
    AddMore(l.st, st1, d.st.(pending := pending), base, [Assistant(r.content, r.calls)],
            ReplyRecords(r.content, r.calls, r.usage), Answers(b, n), Events(b, n), Recorded(b, n), pending);
  }

  /** Every turn, from any state, in any world. */
  lemma TurnMeans(k: Site, l: Loop, cfg: Config, w: World, byApprove: bool, base: seq<Msg>, n: nat)
    requires w.reply(l.turn).Reply? ==> StopsAt(CallsOf(k, l, cfg, w), n)
    ensures TurnIs(k, l, cfg, w, byApprove, base, n, Turn(k, l, cfg, w, byApprove, base))
  {
    var t := Turn(k, l, cfg, w, byApprove, base);
    match w.reply(l.turn)
    case TransportFault => SentOnly(l.st, base);
    case HttpFault => SentOnly(l.st, base);
    case Reply(content, calls, usage) =>
      var b := CallsOf(k, l, cfg, w);
      hide RecordReply, DispatchFrom, ReplyRecords, Added, Answers, Events, Recorded, ParkedUpTo, GateAt, Blank;
      if calls == [] {
        ReplyAdds(k, l.st, base, w.reply(l.turn));
        NudgeAdds(k, l.st, base, w.reply(l.turn));
      } else {
        ParkedWhenSuspended(b, n);
        CallsAdd(k, l, cfg, w, base, n, l.st.pending);
        CallsAdd(k, l, cfg, w, base, n, Some(ParkedUpTo(b, n)));
        var d := DispatchFrom(k, Dispatched(RecordReply(k, Send(l.st, base), w.reply(l.turn)), b.gate, [], false),
                              cfg, w, l.turn, calls, 0);
        assert d.st.(pending := l.st.pending) == d.st;
      }
  }

  lemma SentOnly(st: St, base: seq<Msg>)
    ensures Added(st, Send(st, base), base, [], [], [], st.pending)
  {
    assert st.messages + [] == st.messages && st.hist + [] == st.hist && Recs(st.log) + [] == Recs(st.log);
  }
}
