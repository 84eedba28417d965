/** How the input is cut into chunks, and when events are pulled, does not matter to the decoder, with
    one exception that is characterised exactly. */
module SseChunking {
  import opened Options
  import opened Invocations
  import opened Sse

  /** What a caller does: feed a chunk, or pull one event. */
  datatype Op = Chunk(bytes: Bytes) | Pull

  function Received(ops: seq<Op>): Bytes {
    if ops == [] then []
    else (if ops[0].Chunk? then ops[0].bytes else []) + Received(ops[1..])
  }

  function Pulled(r: Result<Option<SseEvent>, SseError>): seq<SseEvent> {
    if r.Ok? && r.value.Some? then [r.value.value] else []
  }

  function Before(es: seq<SseEvent>, o: (Decoder, seq<SseEvent>)): (Decoder, seq<SseEvent>) { (o.0, es + o.1) }

  /** All events of a calling sequence that ends by draining, and the final state. */
  function Calls(utf8: Utf8, d: Decoder, ops: seq<Op>): (Decoder, seq<SseEvent>)
    decreases |ops|
  {
    if ops == [] then Drain(utf8, d)
    else if ops[0].Chunk? then Calls(utf8, Feed(d, ops[0].bytes), ops[1..])
    else
      var (d1, r) := Next(utf8, d);
      Before(Pulled(r), Calls(utf8, d1, ops[1..]))
  }

  /** The exception: a line of exactly `max` bytes whose CR is the last byte received. */
  predicate Edge(s: Bytes, max: nat) { |s| == max + 1 && s[max] == CR && LineEnd(s) == max }

  predicate Premature(d: Decoder) {
    d.error == Some(LineTooLong(d.maxLineBytes)) && Edge(d.buf, d.maxLineBytes)
  }

  /** Some pull fails at the edge although more bytes are to come. */
  predicate TooEarly(utf8: Utf8, d: Decoder, ops: seq<Op>)
    decreases |ops|
  {
    ops != [] &&
    if ops[0].Chunk? then TooEarly(utf8, Feed(d, ops[0].bytes), ops[1..])
    else
      var d1 := Next(utf8, d).0;
      (d.error.None? && Premature(d1) && Received(ops[1..]) != []) || TooEarly(utf8, d1, ops[1..])
  }

  // ---- one line, with more bytes behind it ----

  lemma {:induction false} LineEndAppend(s: Bytes, rest: Bytes)
    ensures LineEnd(s + rest) == if LineEnd(s) < |s| then LineEnd(s) else |s| + LineEnd(rest)
  {
    if s == [] {
      assert s + rest == rest;
    } else if !Terminator(s[0]) {
      assert (s + rest)[0] == s[0] && (s + rest)[1..] == s[1..] + rest;
      LineEndAppend(s[1..], rest);
    }
  }

  lemma TakeMore(s: Bytes, rest: Bytes, max: nat)
    requires rest != []
    ensures TakeLine(s, max).Line? ==> TakeLine(s + rest, max) == TakeLine(s, max)
    ensures TakeLine(s, max).TooLong? && !Edge(s, max) ==> TakeLine(s + rest, max).TooLong?
    ensures Edge(s, max) ==> TakeLine(s + rest, max).Line?
  {
    LineEndAppend(s, rest);
  }

  lemma AdvanceMore(utf8: Utf8, d: Decoder, rest: Bytes)
    requires rest != [] && d.error.None?
    ensures
      var p, q := Advance(utf8, d), Advance(utf8, Feed(d, rest));
      && (p.Moved? ==> q == Moved(Feed(p.after, rest), p.event))
      && (p.Failed? && !Premature(p.after) ==> q == Failed(Feed(p.after, rest)))
  {
    TakeMore(d.buf, rest, d.maxLineBytes);
    var t := TakeLine(d.buf, d.maxLineBytes);
    if t.Line? {
      var line, left := d.buf[..t.length], d.buf[t.consumed..];
      assert (d.buf + rest)[..t.length] == line && (d.buf + rest)[t.consumed..] == left + rest;
      OnLineApart(utf8, d, left, rest, line);
    }
  }

  /** What a line does does not depend on the bytes behind it. */
  lemma OnLineApart(utf8: Utf8, d: Decoder, left: Bytes, rest: Bytes, line: Bytes)
    ensures
      var p, q := OnLine(utf8, d.(buf := left), line), OnLine(utf8, d.(buf := left + rest), line);
      if p.Failed? then q == Failed(Feed(p.after, rest)) else q == Moved(Feed(p.after, rest), p.event)
  {
  }

  // ---- one pull, with more bytes behind it ----

  lemma {:induction false} NextMore(utf8: Utf8, d: Decoder, rest: Bytes)
    requires rest != [] && d.error.None?
    ensures
      var (d1, r) := Next(utf8, d);
      var more := Next(utf8, Feed(d, rest));
      if r.Ok? && r.value.None? then more == Next(utf8, Feed(d1, rest))
      else Premature(d1) || more == (Feed(d1, rest), r)
    decreases |d.buf|
  {
    hide TakeLine, OnLine, Advance;
    AdvanceMore(utf8, d, rest);
    var p := Advance(utf8, d);
    if p.Moved? && p.event.None? { NextMore(utf8, p.after, rest); }
  }

  lemma {:induction false} NextIdle(utf8: Utf8, d: Decoder)
    requires Next(utf8, d).1 == Ok(None)
    ensures Next(utf8, Next(utf8, d).0) == Next(utf8, d)
    decreases |d.buf|
  {
    hide Advance;
    var p := Advance(utf8, d);
    if d.error.None? && p.Moved? && p.event.None? { NextIdle(utf8, p.after); }
  }

  lemma NextDone(utf8: Utf8, d: Decoder)
    requires d.error.Some?
    ensures Next(utf8, d) == (d, Err(d.error.value)) && Drain(utf8, d) == (d, [])
  {
  }

  lemma DrainIs(utf8: Utf8, d: Decoder)
    ensures
      var (d1, r) := Next(utf8, d);
      && (r.Ok? && r.value.Some? ==> Drain(utf8, d) == Before(Pulled(r), Drain(utf8, d1)))
      && (!(r.Ok? && r.value.Some?) ==> Drain(utf8, d) == (d1, []) && Pulled(r) == [])
  {
  }

  lemma BeforeNothing(o: (Decoder, seq<SseEvent>))
    ensures Before([], o) == o
  {
    assert [] + o.1 == o.1;
  }

  lemma BeforeBoth(a: seq<SseEvent>, b: seq<SseEvent>, o: (Decoder, seq<SseEvent>))
    ensures Before(a, Before(b, o)) == Before(a + b, o)
  {
    assert a + (b + o.1) == a + b + o.1;
  }

  /** Pulling first and draining the rest later is draining all at once, away from the edge. */
  lemma PullThenDrain(utf8: Utf8, d: Decoder, rest: Bytes)
    requires !(d.error.None? && Premature(Next(utf8, d).0) && rest != [])
    ensures
      var (d1, r) := Next(utf8, d);
      Drain(utf8, Feed(d, rest)) == Before(Pulled(r), Drain(utf8, Feed(d1, rest)))
  {
    hide Next, Premature, Drain, Before, Pulled;
    var (d1, r) := Next(utf8, d);
    DrainIs(utf8, d);
    DrainIs(utf8, Feed(d, rest));
    DrainIs(utf8, Feed(d1, rest));
    BeforeNothing(Drain(utf8, Feed(d1, rest)));
    if d.error.Some? {
      NextDone(utf8, d);
      NextDone(utf8, Feed(d, rest));
    } else if rest == [] {
      assert Feed(d, rest) == d && Feed(d1, rest) == d1;
      if r.Err? { NextDone(utf8, d1); }
      else if r.value.None? { NextIdle(utf8, d); }
    } else {
      NextMore(utf8, d, rest);
      if r.Err? { NextDone(utf8, Feed(d1, rest)); }
    }
  }

  // ---- the edge ----

  lemma {:induction false} NextShrinks(utf8: Utf8, d: Decoder)
    ensures |Next(utf8, d).0.buf| <= |d.buf|
    ensures d.error.None? && TakeLine(d.buf, d.maxLineBytes).Line? ==> |Next(utf8, d).0.buf| < |d.buf|
    decreases |d.buf|
  {
    hide OnLine, TakeLine;
    var p := Advance(utf8, d);
    if d.error.None? && p.Moved? && p.event.None? { NextShrinks(utf8, p.after); }
  }

  lemma {:induction false} DrainShrinks(utf8: Utf8, d: Decoder)
    ensures |Drain(utf8, d).0.buf| <= |Next(utf8, d).0.buf|
    decreases |d.buf|
  {
    hide Next;
    var (d1, r) := Next(utf8, d);
    if r.Ok? && r.value.Some? {
      DrainShrinks(utf8, d1);
      NextShrinks(utf8, d1);
    }
  }

  /** At the edge the error is final, while with the bytes to come the line would have been taken. */
  lemma {:induction false} EdgeDiffers(utf8: Utf8, d: Decoder, rest: Bytes)
    requires d.error.None? && Premature(Next(utf8, d).0) && rest != []
    ensures |Drain(utf8, Feed(d, rest)).0.buf| < |Next(utf8, d).0.buf| + |rest|
    decreases |d.buf|
  {
    hide OnLine, TakeLine, Drain;
    AdvanceMore(utf8, d, rest);
    var p := Advance(utf8, d);
    if p.Moved? {
      EdgeDiffers(utf8, p.after, rest);
      DrainNext(utf8, Feed(d, rest), Feed(p.after, rest));
    } else {
      EdgeBuffer(utf8, d);
      TakeMore(d.buf, rest, d.maxLineBytes);
      NextShrinks(utf8, Feed(d, rest));
      DrainShrinks(utf8, Feed(d, rest));
    }
  }

  lemma EdgeBuffer(utf8: Utf8, d: Decoder)
    requires d.error.None? && Advance(utf8, d).Failed? && Premature(Advance(utf8, d).after)
    ensures Advance(utf8, d).after.buf == d.buf && Edge(d.buf, d.maxLineBytes)
  {
  }

  lemma DrainNext(utf8: Utf8, a: Decoder, b: Decoder)
    requires Next(utf8, a) == Next(utf8, b)
    ensures Drain(utf8, a) == Drain(utf8, b)
  {
  }

  // ---- the theorem ----

  /** For every decoder state and every sequence of feeds and pulls: the events and the final state are
      those of one feed followed by one drain, if and only if no pull fails at the edge with bytes still
      to come. */
  lemma {:induction false} ChunkingIsInvisibleIff(utf8: Utf8, d: Decoder, ops: seq<Op>)
    ensures Calls(utf8, d, ops) == Drain(utf8, Feed(d, Received(ops))) <==> !TooEarly(utf8, d, ops)
    decreases |ops|
  {
    hide Next, Drain, Premature;
    if ops == [] {
      assert Feed(d, []) == d;
    } else if ops[0].Chunk? {
      ChunkingIsInvisibleIff(utf8, Feed(d, ops[0].bytes), ops[1..]);
      assert d.buf + Received(ops) == d.buf + ops[0].bytes + Received(ops[1..]);
    } else {
      var rest := Received(ops[1..]);
      assert Received(ops) == rest;
      var (d1, r) := Next(utf8, d);
      ChunkingIsInvisibleIff(utf8, d1, ops[1..]);
      if d.error.None? && Premature(d1) && rest != [] {
        EdgeDiffers(utf8, d, rest);
        PrematureFailed(d1);
        ErrorKeepsBytes(utf8, d1, ops[1..]);
      } else {
        PullThenDrain(utf8, d, rest);
        SameAfter(Pulled(r), Calls(utf8, d1, ops[1..]), Drain(utf8, Feed(d1, rest)));
      }
    }
  }

  lemma PrematureFailed(d: Decoder)
    requires Premature(d)
    ensures d.error.Some?
  {
  }

  lemma SameAfter(es: seq<SseEvent>, a: (Decoder, seq<SseEvent>), b: (Decoder, seq<SseEvent>))
    ensures Before(es, a) == Before(es, b) <==> a == b
  {
    assert (es + a.1)[|es|..] == a.1 && (es + b.1)[|es|..] == b.1;
  }

  lemma {:induction false} ErrorKeepsBytes(utf8: Utf8, d: Decoder, ops: seq<Op>)
    requires d.error.Some?
    ensures Calls(utf8, d, ops) == (Feed(d, Received(ops)), [])
    decreases |ops|
  {
    if ops == [] {
      NextDone(utf8, d);
      assert Feed(d, []) == d;
    } else if ops[0].Chunk? {
      ErrorKeepsBytes(utf8, Feed(d, ops[0].bytes), ops[1..]);
      assert d.buf + Received(ops) == d.buf + ops[0].bytes + Received(ops[1..]);
    } else {
      NextDone(utf8, d);
      ErrorKeepsBytes(utf8, d, ops[1..]);
      assert Received(ops) == Received(ops[1..]);
      BeforeNothing(Calls(utf8, d, ops[1..]));
    }
  }

  /** The exception is real at every limit: a full-length line cut between its CR and the LF fails, the
      same bytes in one piece do not. */
  lemma CutAtTheEdgeFails(utf8: Utf8, line: Bytes)
    requires LineEnd(line) == |line|
    ensures
      var d := NewDecoder(|line|);
      && Calls(utf8, d, [Chunk(line + [CR]), Pull, Chunk([LF])]).0.error == Some(LineTooLong(|line|))
      && Calls(utf8, d, [Chunk(line + [CR, LF])]).0.error != Some(LineTooLong(|line|))
  {
    hide Drain, Feed, Next;
    var d := NewDecoder(|line|);
    var ops := [Chunk(line + [CR]), Pull, Chunk([LF])];
    assert ops[1..] == [Pull, Chunk([LF])] && ops[1..][1..] == [Chunk([LF])];
    CutFails(utf8, line);
    ErrorKeepsBytes(utf8, Next(utf8, Feed(d, line + [CR])).0, [Chunk([LF])]);
    FeedIs(Next(utf8, Feed(d, line + [CR])).0, Received([Chunk([LF])]));
    WholeLineTaken(utf8, line);
    var whole := [Chunk(line + [CR, LF])];
    assert whole[1..] == [];
    assert Calls(utf8, d, whole) == Drain(utf8, Feed(d, line + [CR, LF]));
  }

  lemma FeedIs(d: Decoder, bytes: Bytes)
    ensures Feed(d, bytes).error == d.error
  {
  }

  lemma CutFails(utf8: Utf8, line: Bytes)
    requires LineEnd(line) == |line|
    ensures
      var d := Next(utf8, Feed(NewDecoder(|line|), line + [CR])).0;
      d.error == Some(LineTooLong(|line|))
  {
    hide TakeLine, Feed;
    LineCut(line);
    FedBuffer(|line|, line + [CR]);
    var d := Feed(NewDecoder(|line|), line + [CR]);
    assert Advance(utf8, d) == Failed(d.(error := Some(LineTooLong(|line|))));
  }

  lemma FedBuffer(max: nat, s: Bytes)
    ensures Feed(NewDecoder(max), s) == Decoder(max, s, [], false, None)
  {
    assert [] + s == s;
  }

  lemma LineCut(line: Bytes)
    requires LineEnd(line) == |line|
    ensures TakeLine(line + [CR], |line|) == TooLong
  {
    LineEndAppend(line, [CR]);
  }

  lemma WholeLineTaken(utf8: Utf8, line: Bytes)
    requires LineEnd(line) == |line|
    ensures Drain(utf8, Feed(NewDecoder(|line|), line + [CR, LF])).0.error != Some(LineTooLong(|line|))
  {
    hide OnLine, TakeLine, Drain, Next, Feed;
    var s := line + [CR, LF];
    FedBuffer(|line|, s);
    var d := Feed(NewDecoder(|line|), s);
    LineTaken(line);
    LineParts(line);
    var p := Advance(utf8, d);
    OnLineError(utf8, d.(buf := []), line);
    if p.Moved? { EmptyDrains(utf8, p.after); }
    DrainLine(utf8, d);
  }

  lemma LineParts(line: Bytes)
    ensures (line + [CR, LF])[..|line|] == line && (line + [CR, LF])[|line| + 2..] == []
  {
  }

  lemma LineTaken(line: Bytes)
    requires LineEnd(line) == |line|
    ensures TakeLine(line + [CR, LF], |line|) == Line(|line|, |line| + 2)
  {
    LineEndAppend(line, [CR, LF]);
  }

  lemma EmptyDrains(utf8: Utf8, d: Decoder)
    requires d.buf == [] && d.error.None?
    ensures Drain(utf8, d) == (d, [])
  {
    assert TakeLine(d.buf, d.maxLineBytes) == NeedMore;
  }

  /** `Drain`, line by line. */
  lemma DrainLine(utf8: Utf8, d: Decoder)
    requires d.error.None?
    ensures
      var p := Advance(utf8, d);
      && (p.Stuck? ==> Drain(utf8, d) == (d, []))
      && (p.Failed? ==> Drain(utf8, d) == (p.after, []))
      && (p.Moved? ==> Drain(utf8, d) == Before(if p.event.Some? then [p.event.value] else [], Drain(utf8, p.after)))
  {
    hide Advance, Drain, Before;
    var p := Advance(utf8, d);
    DrainIs(utf8, d);
    if p.Moved? && p.event.None? {
      BeforeNothing(Drain(utf8, p.after));
      DrainNext(utf8, d, p.after);
    }
  }

  lemma OnLineError(utf8: Utf8, d: Decoder, line: Bytes)
    ensures OnLine(utf8, d, line).Failed? ==> OnLine(utf8, d, line).after.error == Some(InvalidUtf8)
  {
  }

  /** Draining after a feed and draining the rest later, away from the edge. */
  lemma {:induction false} DrainThenMore(utf8: Utf8, d: Decoder, rest: Bytes)
    requires !(d.error.None? && Premature(Drain(utf8, d).0) && rest != [])
    ensures
      var (d1, es) := Drain(utf8, d);
      Drain(utf8, Feed(d, rest)) == Before(es, Drain(utf8, Feed(d1, rest)))
    decreases |d.buf|
  {
    hide Next, Premature, Before, Drain;
    var (d1, r) := Next(utf8, d);
    NextOfDrain(utf8, d);
    PullThenDrain(utf8, d, rest);
    DrainIs(utf8, d);
    if r.Ok? && r.value.Some? {
      BeforeParts(Pulled(r), Drain(utf8, d1));
      PulledKeepsError(utf8, d);
      DrainThenMore(utf8, d1, rest);
      var (d2, es) := Drain(utf8, d1);
      BeforeBoth(Pulled(r), es, Drain(utf8, Feed(d2, rest)));
    }
  }

  lemma BeforeParts(es: seq<SseEvent>, o: (Decoder, seq<SseEvent>))
    ensures Before(es, o).0 == o.0 && Before(es, o).1 == es + o.1
  {
  }

  lemma NextOfDrain(utf8: Utf8, d: Decoder)
    ensures Premature(Next(utf8, d).0) ==> Drain(utf8, d).0 == Next(utf8, d).0
  {
  }

  lemma PulledKeepsError(utf8: Utf8, d: Decoder)
    requires Next(utf8, d).1.Ok?
    ensures d.error.None? && Next(utf8, d).0.error.None?
  {
  }
}
