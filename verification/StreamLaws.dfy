/** The assembled result depends on the bytes received, not on how the reader delivered them; and it is
    made of plain concatenations. */
module StreamLaws {
  import opened Options
  import opened Invocations
  import opened Transcript
  import opened Sse
  import opened SseChunking
  import opened SseRefinement
  import opened Stream

  function Concat(parts: seq<Bytes>): Bytes { if parts == [] then [] else parts[0] + Concat(parts[1..]) }

  /** Absorb a list of events, stopping where the loop would. */
  function Consume(decode: Decode, a: Assembly, es: seq<SseEvent>): Absorbed
    decreases |es|
  {
    if es == [] then More(a)
    else
      match OnEvent(decode, a, es[0])
      case Stop(outcome) => Stop(outcome)
      case More(a1) => Consume(decode, a1, es[1..])
  }

  /** The result of events, the error after them, and the way the input ends. */
  function Result(decode: Decode, a: Assembly, es: seq<SseEvent>, error: Option<SseError>,
                  fault: Option<string>): Outcome {
    match Consume(decode, a, es)
    case Stop(outcome) => outcome
    case More(a1) => if error.Some? then Err(SseFailed(error.value)) else Ending(a1, fault)
  }

  /** The result of a whole input, from its lines. */
  function ResultOf(utf8: Utf8, decode: Decode, max: nat, bytes: Bytes, fault: Option<string>): Outcome {
    var (es, error) := Meaning(utf8, max, bytes);
    Result(decode, EMPTY_ASSEMBLY, es, error, fault)
  }

  // ---- pumping is draining and consuming ----

  lemma {:induction false} PumpIsConsume(utf8: Utf8, decode: Decode, d: Decoder, a: Assembly)
    ensures
      var (d1, es) := Drain(utf8, d);
      Pump(utf8, decode, d, a) ==
        match Consume(decode, a, es)
        case Stop(outcome) => Stopped(outcome)
        case More(a1) => if d1.error.Some? then Stopped(Err(SseFailed(d1.error.value))) else Going(d1, a1)
    decreases |d.buf|
  {
    hide OnEvent, Next;
    var (d1, r) := Next(utf8, d);
    NextError(utf8, d);
    if r.Ok? && r.value.Some? {
      var o := OnEvent(decode, a, r.value.value);
      ConsumeCons(decode, a, r.value.value, Drain(utf8, d1).1);
      if o.More? { PumpIsConsume(utf8, decode, d1, o.a); }
    }
  }

  lemma ConsumeCons(decode: Decode, a: Assembly, e: SseEvent, es: seq<SseEvent>)
    ensures
      var o := OnEvent(decode, a, e);
      Consume(decode, a, [e] + es) == if o.Stop? then o else Consume(decode, o.a, es)
  {
    assert ([e] + es)[1..] == es;
  }

  lemma {:induction false} NextError(utf8: Utf8, d: Decoder)
    ensures
      var (d1, r) := Next(utf8, d);
      r.Err? ==> d1.error == Some(r.error)
    decreases |d.buf|
  {
    hide Advance;
    var p := Advance(utf8, d);
    if d.error.None? && p.Moved? && p.event.None? { NextError(utf8, p.after); }
  }

  lemma {:induction false} ConsumeAppend(decode: Decode, a: Assembly, es: seq<SseEvent>, more: seq<SseEvent>)
    ensures
      var o := Consume(decode, a, es);
      Consume(decode, a, es + more) == if o.Stop? then o else Consume(decode, o.a, more)
    decreases |es|
  {
    hide OnEvent;
    if es == [] {
      assert es + more == more;
    } else {
      assert (es + more)[0] == es[0] && (es + more)[1..] == es[1..] + more;
      var o := OnEvent(decode, a, es[0]);
      if o.More? { ConsumeAppend(decode, o.a, es[1..], more); }
    }
  }

  // ---- any split ----

  predicate Delivered(inputs: seq<Bytes>) { forall i :: 0 <= i < |inputs| ==> inputs[i] != [] }

  /** Everything the decoder holds has been pulled. */
  predicate Idle(utf8: Utf8, d: Decoder) { d.error.None? && Drain(utf8, d) == (d, []) }

  lemma {:induction false} DrainIdles(utf8: Utf8, d: Decoder)
    ensures
      var d1 := Drain(utf8, d).0;
      d1.error.None? ==> Idle(utf8, d1)
    decreases |d.buf|
  {
    hide Next;
    var (d1, r) := Next(utf8, d);
    if r.Ok? && r.value.Some? { DrainIdles(utf8, d1); }
    else if r.Ok? { NextIdle(utf8, d); }
  }

  predicate IsPrefix(a: seq<SseEvent>, b: seq<SseEvent>) { |a| <= |b| && b[..|a|] == a }

  /** More bytes never take an event back, not even at the edge. */
  lemma {:induction false} EventsOnlyGrow(utf8: Utf8, d: Decoder, rest: Bytes)
    ensures IsPrefix(Drain(utf8, d).1, Drain(utf8, Feed(d, rest)).1)
    decreases |d.buf|
  {
    hide Next, Drain, Premature;
    var (d1, r) := Next(utf8, d);
    DrainIs(utf8, d);
    if rest == [] {
      assert d.buf + [] == d.buf;
    } else if r.Ok? && r.value.Some? {
      PulledKeepsError(utf8, d);
      NextMore(utf8, d, rest);
      UnfailedIsNotPremature(d1);
      DrainIs(utf8, Feed(d, rest));
      EventsOnlyGrow(utf8, d1, rest);
    }
  }

  lemma UnfailedIsNotPremature(d: Decoder)
    requires d.error.None?
    ensures !Premature(d)
  {
  }

  lemma PrefixStops(decode: Decode, a: Assembly, es: seq<SseEvent>, more: seq<SseEvent>)
    requires IsPrefix(es, more) && Consume(decode, a, es).Stop?
    ensures Consume(decode, a, more) == Consume(decode, a, es)
  {
    assert more == es + more[|es|..];
    ConsumeAppend(decode, a, es, more[|es|..]);
  }

  /** A read but the last ends at the edge while the loop is still going. */
  predicate TripsFrom(utf8: Utf8, decode: Decode, d: Decoder, a: Assembly, inputs: seq<Bytes>)
    decreases |inputs|
  {
    |inputs| > 1 &&
    var (d1, es) := Drain(utf8, Feed(d, inputs[0]));
    var o := Consume(decode, a, es);
    o.More? && (Premature(d1) || (d1.error.None? && TripsFrom(utf8, decode, d1, o.a, inputs[1..])))
  }

  /** The result of one read of all bytes. */
  function AtOnce(utf8: Utf8, decode: Decode, d: Decoder, a: Assembly, bytes: Bytes, fault: Option<string>): Outcome {
    var (d1, es) := Drain(utf8, Feed(d, bytes));
    Result(decode, a, es, d1.error, fault)
  }

  /** The last read, or one after which nothing more is read. */
  lemma ReadStops(utf8: Utf8, decode: Decode, d: Decoder, a: Assembly, inputs: seq<Bytes>, fault: Option<string>)
    requires Delivered(inputs) && inputs != [] && d.error.None?
    requires
      var (d1, es) := Drain(utf8, Feed(d, inputs[0]));
      Consume(decode, a, es).Stop? || (d1.error.Some? && !(Premature(d1) && |inputs| > 1))
    ensures ReadAll(utf8, decode, d, a, inputs, fault) == AtOnce(utf8, decode, d, a, Concat(inputs), fault)
  {
    hide Drain, Pump, Premature, Consume, Before;
    var rest := Concat(inputs[1..]);
    var (d1, es) := Drain(utf8, Feed(d, inputs[0]));
    var o := Consume(decode, a, es);
    PumpIsConsume(utf8, decode, Feed(d, inputs[0]), a);
    FeedTwice(d, inputs[0], rest);
    if o.Stop? {
      EventsOnlyGrow(utf8, Feed(d, inputs[0]), rest);
      PrefixStops(decode, a, es, Drain(utf8, Feed(d, Concat(inputs))).1);
    } else {
      if |inputs| == 1 { assert rest == []; }
      DrainThenMore(utf8, Feed(d, inputs[0]), rest);
      NextDone(utf8, Feed(d1, rest));
      BeforeParts(es, Drain(utf8, Feed(d1, rest)));
      assert es + [] == es;
    }
  }

  lemma {:induction false} ReadsExactly(utf8: Utf8, decode: Decode, d: Decoder, a: Assembly, inputs: seq<Bytes>,
                                        fault: Option<string>)
    requires Idle(utf8, d) && Delivered(inputs)
    ensures ReadAll(utf8, decode, d, a, inputs, fault) ==
      if TripsFrom(utf8, decode, d, a, inputs) then Err(SseFailed(LineTooLong(d.maxLineBytes)))
      else AtOnce(utf8, decode, d, a, Concat(inputs), fault)
    decreases |inputs|
  {
    hide Drain, Pump, Premature, Consume, Before;
    if inputs == [] {
      FeedNothing(d);
      ConsumeNothing(decode, a);
    } else {
      var rest := Concat(inputs[1..]);
      var (d1, es) := Drain(utf8, Feed(d, inputs[0]));
      var o := Consume(decode, a, es);
      PumpIsConsume(utf8, decode, Feed(d, inputs[0]), a);
      DrainKeepsLimit(utf8, Feed(d, inputs[0]));
      if o.Stop? || (d1.error.Some? && !(Premature(d1) && |inputs| > 1)) {
        ReadStops(utf8, decode, d, a, inputs, fault);
      } else if d1.error.Some? {
        PrematureIs(d1);
      } else {
        UnfailedIsNotPremature(d1);
        DrainIdles(utf8, Feed(d, inputs[0]));
        ReadsExactly(utf8, decode, d1, o.a, inputs[1..], fault);
        DrainThenMore(utf8, Feed(d, inputs[0]), rest);
        FeedTwice(d, inputs[0], rest);
        BeforeParts(es, Drain(utf8, Feed(d1, rest)));
        ConsumeAppend(decode, a, es, Drain(utf8, Feed(d1, rest)).1);
        if |inputs| == 1 { assert inputs[1..] == []; }
      }
    }
  }

  lemma PrematureIs(d: Decoder)
    requires Premature(d)
    ensures d.error == Some(LineTooLong(d.maxLineBytes))
  {
  }

  lemma {:induction false} NextKeepsLimit(utf8: Utf8, d: Decoder)
    ensures Next(utf8, d).0.maxLineBytes == d.maxLineBytes
    decreases |d.buf|
  {
    hide OnLine, TakeLine;
    var p := Advance(utf8, d);
    if d.error.None? && p.Moved? && p.event.None? { NextKeepsLimit(utf8, p.after); }
  }

  lemma {:induction false} DrainKeepsLimit(utf8: Utf8, d: Decoder)
    ensures Drain(utf8, d).0.maxLineBytes == d.maxLineBytes
    decreases |d.buf|
  {
    hide Next;
    NextKeepsLimit(utf8, d);
    var (d1, r) := Next(utf8, d);
    if r.Ok? && r.value.Some? { DrainKeepsLimit(utf8, d1); }
  }

  lemma FeedNothing(d: Decoder)
    ensures Feed(d, Concat([])) == d
  {
    assert d.buf + [] == d.buf;
  }

  lemma FeedTwice(d: Decoder, x: Bytes, y: Bytes)
    ensures Feed(Feed(d, x), y) == Feed(d, x + y)
  {
    assert d.buf + x + y == d.buf + (x + y);
  }

  lemma ConsumeNothing(decode: Decode, a: Assembly)
    ensures Consume(decode, a, []) == More(a)
  {
  }

  // ---- the condition, in terms of the bytes ----

  /** A prefix of the input that ends at the edge: only good lines, then a full-length line and a CR. */
  predicate CutAtEdge(utf8: Utf8, max: nat, s: Bytes) {
    var p := SplitLines(s);
    FirstBad(utf8, max, LinesOf(p.cuts), 0) == |p.cuts| && Edge(p.rest, max)
  }

  /** The bytes hold no end marker and no bad payload: the loop is still going after them. */
  predicate GoesOn(utf8: Utf8, decode: Decode, max: nat, s: Bytes) {
    Consume(decode, EMPTY_ASSEMBLY, Meaning(utf8, max, s).0).More?
  }

  /** The first `i` reads end at the edge with more to come, and nothing in them has ended the stream. */
  predicate TripsAfter(utf8: Utf8, decode: Decode, max: nat, inputs: seq<Bytes>, i: nat) {
    && 0 < i < |inputs|
    && CutAtEdge(utf8, max, Concat(inputs[..i])) && GoesOn(utf8, decode, max, Concat(inputs[..i]))
  }

  predicate Trips(utf8: Utf8, decode: Decode, max: nat, inputs: seq<Bytes>) {
    exists i :: 0 < i < |inputs| && TripsAfter(utf8, decode, max, inputs, i)
  }

  /** The same, seen from a decoder. */
  predicate TripsAt(utf8: Utf8, decode: Decode, d: Decoder, a: Assembly, inputs: seq<Bytes>, i: nat) {
    0 < i < |inputs| &&
    var (d1, es) := Drain(utf8, Feed(d, Concat(inputs[..i])));
    Premature(d1) && Consume(decode, a, es).More?
  }

  lemma OneConcat(inputs: seq<Bytes>)
    requires inputs != []
    ensures Concat(inputs[..1]) == inputs[0]
  {
    assert inputs[..1][1..] == [];
    assert inputs[0] + [] == inputs[0];
  }

  lemma ConcatPrefix(inputs: seq<Bytes>, i: nat)
    requires 0 < i <= |inputs|
    ensures Concat(inputs[..i]) == inputs[0] + Concat(inputs[1..][..i - 1])
  {
    assert inputs[..i][0] == inputs[0] && inputs[..i][1..] == inputs[1..][..i - 1];
  }

  /** A line found too long leaves more than the limit in the buffer. */
  lemma {:induction false} TooLongLeaves(utf8: Utf8, d: Decoder)
    requires d.error.None?
    ensures
      var d1 := Drain(utf8, d).0;
      d1.error == Some(LineTooLong(d.maxLineBytes)) ==> |d1.buf| > d.maxLineBytes
    decreases |d.buf|
  {
    hide Drain, OnLine;
    DrainLine(utf8, d);
    TakenTooLong(d.buf, d.maxLineBytes);
    OnLineNotTooLong(utf8, d);
    var p := Advance(utf8, d);
    if p.Moved? { TooLongLeaves(utf8, p.after); }
  }

  lemma TakenTooLong(s: Bytes, max: nat)
    ensures TakeLine(s, max).TooLong? ==> |s| > max
  {
  }

  lemma OnLineNotTooLong(utf8: Utf8, d: Decoder)
    ensures
      var p := Advance(utf8, d);
      p.Failed? && p.after.error != Some(InvalidUtf8) ==>
        TakeLine(d.buf, d.maxLineBytes).TooLong? && p.after.buf == d.buf
  {
    var t := TakeLine(d.buf, d.maxLineBytes);
    if t.Line? { OnLineError(utf8, d.(buf := d.buf[t.consumed..]), d.buf[..t.length]); }
  }

  /** An error that is not at the edge does not move there. */
  lemma FailedStaysOff(utf8: Utf8, d: Decoder, rest: Bytes)
    requires d.error.None? && rest != []
    requires Drain(utf8, d).0.error.Some? && !Premature(Drain(utf8, d).0)
    ensures !Premature(Drain(utf8, Feed(d, rest)).0)
  {
    hide Drain, Edge;
    var d1 := Drain(utf8, d).0;
    DrainThenMore(utf8, d, rest);
    NextDone(utf8, Feed(d1, rest));
    DrainKeepsLimit(utf8, d);
    TooLongLeaves(utf8, d);
    EdgeLength(Feed(d1, rest).buf, d.maxLineBytes);
  }

  lemma EdgeLength(s: Bytes, max: nat)
    ensures Edge(s, max) ==> |s| == max + 1
  {
  }

  lemma TripsAtShift(utf8: Utf8, decode: Decode, d: Decoder, a: Assembly, inputs: seq<Bytes>, i: nat)
    requires Delivered(inputs) && d.error.None? && 0 < i < |inputs|
    ensures
      var (d1, es) := Drain(utf8, Feed(d, inputs[0]));
      var o := Consume(decode, a, es);
      TripsAt(utf8, decode, d, a, inputs, i) <==>
        o.More? &&
        if i == 1 then Premature(d1)
        else
          (Premature(d1) && TripsAt(utf8, decode, d, a, inputs, i))
          || (d1.error.None? && TripsAt(utf8, decode, d1, o.a, inputs[1..], i - 1))
  {
    hide Drain, Premature, Consume;
    var (d1, es) := Drain(utf8, Feed(d, inputs[0]));
    var o := Consume(decode, a, es);
    ConcatPrefix(inputs, i);
    OneConcat(inputs);
    var rest := Concat(inputs[1..][..i - 1]);
    FeedTwice(d, inputs[0], rest);
    EventsOnlyGrow(utf8, Feed(d, inputs[0]), rest);
    if o.Stop? {
      PrefixStops(decode, a, es, Drain(utf8, Feed(d, Concat(inputs[..i]))).1);
    } else if i > 1 {
      assert inputs[1..][..i - 1][0] == inputs[1];
      if d1.error.None? {
        UnfailedIsNotPremature(d1);
        DrainThenMore(utf8, Feed(d, inputs[0]), rest);
        BeforeParts(es, Drain(utf8, Feed(d1, rest)));
        ConsumeAppend(decode, a, es, Drain(utf8, Feed(d1, rest)).1);
      } else if !Premature(d1) {
        FailedStaysOff(utf8, Feed(d, inputs[0]), rest);
      }
    }
  }

  lemma {:induction false} TripsFromIff(utf8: Utf8, decode: Decode, d: Decoder, a: Assembly, inputs: seq<Bytes>)
    requires Delivered(inputs) && d.error.None?
    ensures TripsFrom(utf8, decode, d, a, inputs) <==>
      exists i :: 0 < i < |inputs| && TripsAt(utf8, decode, d, a, inputs, i)
    decreases |inputs|
  {
    hide Drain, Premature, Consume, TripsAt;
    if |inputs| > 1 {
      var (d1, es) := Drain(utf8, Feed(d, inputs[0]));
      var o := Consume(decode, a, es);
      forall i | 0 < i < |inputs| { TripsAtShift(utf8, decode, d, a, inputs, i); }
      if d1.error.None? && o.More? {
        UnfailedIsNotPremature(d1);
        TripsFromIff(utf8, decode, d1, o.a, inputs[1..]);
        if i :| 0 < i < |inputs[1..]| && TripsAt(utf8, decode, d1, o.a, inputs[1..], i) {
          assert TripsAt(utf8, decode, d, a, inputs, i + 1);
        }
      } else {
        assert TripsAt(utf8, decode, d, a, inputs, 1) <==> o.More? && Premature(d1);
      }
    }
  }

  lemma NewIsIdle(utf8: Utf8, max: nat)
    ensures Idle(utf8, NewDecoder(max))
  {
    EmptyDrains(utf8, NewDecoder(max));
  }

  lemma TripsIs(utf8: Utf8, decode: Decode, max: nat, inputs: seq<Bytes>, i: nat)
    ensures TripsAt(utf8, decode, NewDecoder(max), EMPTY_ASSEMBLY, inputs, i) <==>
      TripsAfter(utf8, decode, max, inputs, i)
  {
    hide Drain, Meaning, Consume, Premature, CutAtEdge;
    if 0 < i < |inputs| {
      CutIsPremature(utf8, max, Concat(inputs[..i]));
      DecoderRefinesMeaning(utf8, max, Concat(inputs[..i]));
    }
  }

  lemma CutIsPremature(utf8: Utf8, max: nat, s: Bytes)
    ensures CutAtEdge(utf8, max, s) <==> Premature(Drain(utf8, Feed(NewDecoder(max), s)).0)
  {
    hide Drain, SplitLines, Edge;
    PrematureIff(utf8, max, s);
  }

  /** The outcome of reading, exactly, for every way the reader splits the input: the length error if some read
      but the last ends at the edge before an end marker or a bad payload; else that of the input's lines. */
  lemma ReadingIsMeaning(utf8: Utf8, decode: Decode, max: nat, inputs: seq<Bytes>, fault: Option<string>)
    requires Delivered(inputs)
    ensures ReadAll(utf8, decode, NewDecoder(max), EMPTY_ASSEMBLY, inputs, fault) ==
      if Trips(utf8, decode, max, inputs) then Err(SseFailed(LineTooLong(max)))
      else ResultOf(utf8, decode, max, Concat(inputs), fault)
  {
    hide ReadAll, Drain, Meaning, Idle, TripsAt, TripsAfter, TripsFrom;
    NewIsIdle(utf8, max);
    ReadsExactly(utf8, decode, NewDecoder(max), EMPTY_ASSEMBLY, inputs, fault);
    TripsFromIff(utf8, decode, NewDecoder(max), EMPTY_ASSEMBLY, inputs);
    forall i | 0 < i < |inputs| { TripsIs(utf8, decode, max, inputs, i); }
    DecoderRefinesMeaning(utf8, max, Concat(inputs));
  }

  /** Two ways of reading the same bytes give the same outcome if and only if both trip or neither does, or the
      bytes mean the length error anyway. */
  lemma ChunkingIsInvisibleIff(utf8: Utf8, decode: Decode, max: nat, one: seq<Bytes>, two: seq<Bytes>,
                               fault: Option<string>)
    requires Delivered(one) && Delivered(two) && Concat(one) == Concat(two)
    ensures
      ReadAll(utf8, decode, NewDecoder(max), EMPTY_ASSEMBLY, one, fault)
      == ReadAll(utf8, decode, NewDecoder(max), EMPTY_ASSEMBLY, two, fault)
      <==>
      (Trips(utf8, decode, max, one) <==> Trips(utf8, decode, max, two))
      || ResultOf(utf8, decode, max, Concat(one), fault) == Err(SseFailed(LineTooLong(max)))
  {
    hide ReadAll, Trips, Concat, ResultOf;
    ReadingIsMeaning(utf8, decode, max, one, fault);
    ReadingIsMeaning(utf8, decode, max, two, fault);
  }

  /** The loop itself never makes up a length error. */
  lemma {:induction false} StopsWithout(decode: Decode, a: Assembly, es: seq<SseEvent>)
    ensures
      var o := Consume(decode, a, es);
      o.Stop? ==> o.outcome.Ok? || o.outcome.error.PayloadFailed?
    decreases |es|
  {
    if es != [] {
      var o := OnEvent(decode, a, es[0]);
      if o.More? { StopsWithout(decode, o.a, es[1..]); }
    }
  }

  function Filler(n: nat): Bytes { seq(n, _ => COLON) }

  lemma FillerUnbroken(n: nat)
    ensures |Filler(n)| == n && Unbroken(Filler(n))
  {
  }

  /** What the buffered reader can deliver: reads of at most its buffer. */
  predicate Deliverable(inputs: seq<Bytes>) {
    forall i :: 0 <= i < |inputs| ==> 0 < |inputs[i]| <= READ_BUFFER_BYTES
  }

  const READ_BUFFER_BYTES: nat := 8192

  /** A comment line of the length limit, as full reads. */
  const FULL_LINE: seq<Bytes> := seq(128, _ => Filler(READ_BUFFER_BYTES))

  lemma {:induction false} FillerBlocks(n: nat, m: nat)
    ensures Concat(seq(n, _ => Filler(m))) == Filler(n * m)
  {
    var blocks := seq(n, _ => Filler(m));
    if n > 0 {
      assert blocks[1..] == seq(n - 1, _ => Filler(m));
      FillerBlocks(n - 1, m);
      assert n * m == m + (n - 1) * m;
    } else {
      assert n * m == 0;
    }
  }

  /** The failing stream, in reads the buffered reader delivers: a comment line of exactly the limit in use, a read
      that ends with its CR and one with its LF fail; the same bytes with CR and LF in one read do not fail so. */
  lemma CutStreamFails(utf8: Utf8, decode: Decode, fault: Option<string>)
    ensures
      var d := NewDecoder(DEFAULT_MAX_LINE_BYTES);
      var cut, whole := FULL_LINE + [[CR], [LF]], FULL_LINE + [[CR, LF]];
      && Deliverable(cut) && Deliverable(whole) && Concat(cut) == Concat(whole)
      && ReadAll(utf8, decode, d, EMPTY_ASSEMBLY, cut, fault) == Err(SseFailed(LineTooLong(DEFAULT_MAX_LINE_BYTES)))
      && ReadAll(utf8, decode, d, EMPTY_ASSEMBLY, whole, fault)
         != Err(SseFailed(LineTooLong(DEFAULT_MAX_LINE_BYTES)))
  {
    FullLine();
    hide *;
    CutLineTrips(utf8, decode, FULL_LINE, fault);
    WholeLineReads(utf8, decode, FULL_LINE, fault);
  }

  lemma FullLine()
    ensures Deliverable(FULL_LINE + [[CR], [LF]]) && Deliverable(FULL_LINE + [[CR, LF]]) && Delivered(FULL_LINE)
    ensures |Concat(FULL_LINE)| == DEFAULT_MAX_LINE_BYTES && Unbroken(Concat(FULL_LINE))
  {
    FillerBlocks(128, READ_BUFFER_BYTES);
    FillerUnbroken(DEFAULT_MAX_LINE_BYTES);
    FillerUnbroken(READ_BUFFER_BYTES);
    assert 128 * READ_BUFFER_BYTES == DEFAULT_MAX_LINE_BYTES;
    hide Concat, Filler;
  }

  /** Any reads of an unbroken line, then its CR, then its LF. */
  lemma CutLineTrips(utf8: Utf8, decode: Decode, line: seq<Bytes>, fault: Option<string>)
    requires Delivered(line) && Unbroken(Concat(line))
    ensures ReadAll(utf8, decode, NewDecoder(|Concat(line)|), EMPTY_ASSEMBLY, line + [[CR], [LF]], fault)
         == Err(SseFailed(LineTooLong(|Concat(line)|)))
    ensures Concat(line + [[CR], [LF]]) == Concat(line + [[CR, LF]])
  {
    hide ReadAll, ResultOf, Consume, Meaning, CutAtEdge, Concat;
    var inputs, n := line + [[CR], [LF]], |line| + 1;
    ReadingIsMeaning(utf8, decode, |Concat(line)|, inputs, fault);
    TwoEnds(line);
    assert inputs[..n] == line + [[CR]];
    LineCutAtEdge(utf8, decode, Concat(line));
    assert TripsAfter(utf8, decode, |Concat(line)|, inputs, n);
  }

  lemma TwoEnds(line: seq<Bytes>)
    ensures Concat(line + [[CR]]) == Concat(line) + [CR] && Concat(line + [[CR, LF]]) == Concat(line) + [CR, LF]
    ensures Concat(line + [[CR], [LF]]) == Concat(line) + [CR, LF]
  {
    ConcatBoth(line, [[CR]]);
    ConcatBoth(line, [[CR, LF]]);
    ConcatBoth(line, [[CR], [LF]]);
    assert [[CR], [LF]][1..] == [[LF]] && [[LF]][1..] == [] && [LF] + [] == [LF] && [CR] + [LF] == [CR, LF];
  }

  lemma UnbrokenEnd(line: Bytes)
    requires Unbroken(line)
    ensures LineEnd(line) == |line|
  {
  }

  lemma LineCutAtEdge(utf8: Utf8, decode: Decode, line: Bytes)
    requires Unbroken(line)
    ensures CutAtEdge(utf8, |line|, line + [CR]) && GoesOn(utf8, decode, |line|, line + [CR])
  {
    UnbrokenEnd(line);
    LineEndAppend(line, [CR]);
    var s := line + [CR];
    assert SplitLines(s) == Split([], s);
    assert LinesOf([]) == [];
  }

  /** Nothing of an unbroken line alone is at the edge. */
  lemma UnbrokenIsNoCut(utf8: Utf8, max: nat, s: Bytes)
    requires Unbroken(s)
    ensures !CutAtEdge(utf8, max, s)
  {
    UnbrokenEnd(s);
    assert SplitLines(s) == Split([], s);
  }

  /** Any reads of an unbroken line, then its CR and LF together. */
  lemma WholeLineReads(utf8: Utf8, decode: Decode, line: seq<Bytes>, fault: Option<string>)
    requires Delivered(line) && Unbroken(Concat(line))
    ensures ReadAll(utf8, decode, NewDecoder(|Concat(line)|), EMPTY_ASSEMBLY, line + [[CR, LF]], fault)
         != Err(SseFailed(LineTooLong(|Concat(line)|)))
  {
    hide ReadAll, Consume, Meaning, Drain, Concat, CutAtEdge, GoesOn, Unbroken;
    var inputs, max := line + [[CR, LF]], |Concat(line)|;
    ReadingIsMeaning(utf8, decode, max, inputs, fault);
    forall i | 0 < i < |inputs| ensures !TripsAfter(utf8, decode, max, inputs, i) {
      PartUnbroken(line, i);
      assert inputs[..i] == line[..i];
      UnbrokenIsNoCut(utf8, max, Concat(inputs[..i]));
    }
    TwoEnds(line);
    UnbrokenEnd(Concat(line));
    WholeLineTaken(utf8, Concat(line));
    DecoderRefinesMeaning(utf8, max, Concat(inputs));
    StopsWithout(decode, EMPTY_ASSEMBLY, Meaning(utf8, max, Concat(inputs)).0);
  }

  lemma PartUnbroken(line: seq<Bytes>, i: nat)
    requires Unbroken(Concat(line)) && i <= |line|
    ensures Unbroken(Concat(line[..i]))
  {
    assert line == line[..i] + line[i..];
    ConcatBoth(line[..i], line[i..]);
    var whole, part := Concat(line), Concat(line[..i]);
    assert forall j :: 0 <= j < |part| ==> part[j] == whole[j];
  }

  // ---- the end marker ----

  /** At the end marker the result is settled: no later event, decoding error or read error changes it. */
  lemma DoneIsFinal(decode: Decode, a: Assembly, es: seq<SseEvent>, end: Bytes, more: seq<SseEvent>,
                    error: Option<SseError>, fault: Option<string>)
    requires decode(end) == Ok(Done) && Consume(decode, a, es).More?
    ensures Result(decode, a, es + [Message(end)] + more, error, fault) == Ok(Finish(Consume(decode, a, es).a))
  {
    var a1 := Consume(decode, a, es).a;
    ConsumeAppend(decode, a, es, [Message(end)]);
    assert Consume(decode, a1, [Message(end)]) == Stop(Ok(Finish(a1)));
    ConsumeAppend(decode, a, es + [Message(end)], more);
  }

  lemma MeaningGrows(utf8: Utf8, max: nat, s: Bytes, rest: Bytes)
    ensures IsPrefix(Meaning(utf8, max, s).0, Meaning(utf8, max, s + rest).0)
  {
    hide Drain, Meaning;
    DecoderRefinesMeaning(utf8, max, s);
    DecoderRefinesMeaning(utf8, max, s + rest);
    EventsOnlyGrow(utf8, Feed(NewDecoder(max), s), rest);
    FeedTwice(NewDecoder(max), s, rest);
  }

  lemma {:induction false} ConcatBoth(a: seq<Bytes>, b: seq<Bytes>)
    ensures Concat(a + b) == Concat(a) + Concat(b)
  {
    if a == [] {
      assert a + b == b;
    } else {
      assert (a + b)[0] == a[0] && (a + b)[1..] == a[1..] + b;
      ConcatBoth(a[1..], b);
    }
  }

  /** Once the reads have ended the stream, the reads after them trip over nothing. */
  lemma TripsBefore(utf8: Utf8, decode: Decode, max: nat, one: seq<Bytes>, more: seq<Bytes>)
    requires one != [] && !GoesOn(utf8, decode, max, Concat(one))
    ensures Trips(utf8, decode, max, one + more) <==>
      exists i :: 0 < i < |one| && TripsAfter(utf8, decode, max, one, i)
  {
    hide Meaning, Consume, CutAtEdge, GoesOn;
    var all := one + more;
    forall i | 0 < i < |all|
      ensures TripsAfter(utf8, decode, max, all, i) <==> i < |one| && TripsAfter(utf8, decode, max, one, i)
    {
      if i < |one| {
        assert all[..i] == one[..i];
      } else {
        assert all[..i] == one + more[..i - |one|];
        ConcatBoth(one, more[..i - |one|]);
        StaysEnded(utf8, decode, max, Concat(one), Concat(more[..i - |one|]));
      }
    }
  }

  lemma StaysEnded(utf8: Utf8, decode: Decode, max: nat, s: Bytes, rest: Bytes)
    requires !GoesOn(utf8, decode, max, s)
    ensures !GoesOn(utf8, decode, max, s + rest)
    ensures Consume(decode, EMPTY_ASSEMBLY, Meaning(utf8, max, s + rest).0)
         == Consume(decode, EMPTY_ASSEMBLY, Meaning(utf8, max, s).0)
  {
    hide Meaning, Consume;
    MeaningGrows(utf8, max, s, rest);
    PrefixStops(decode, EMPTY_ASSEMBLY, Meaning(utf8, max, s).0, Meaning(utf8, max, s + rest).0);
  }

  /** At byte level: once the reads so far hold an end marker or a bad payload, no bytes and no fault after them
      change the outcome. */
  lemma NothingAfterTheEndMatters(utf8: Utf8, decode: Decode, max: nat, one: seq<Bytes>, more1: seq<Bytes>,
                                  more2: seq<Bytes>, fault1: Option<string>, fault2: Option<string>)
    requires Delivered(one) && Delivered(more1) && Delivered(more2)
    requires one != [] && !GoesOn(utf8, decode, max, Concat(one))
    ensures ReadAll(utf8, decode, NewDecoder(max), EMPTY_ASSEMBLY, one + more1, fault1)
         == ReadAll(utf8, decode, NewDecoder(max), EMPTY_ASSEMBLY, one + more2, fault2)
  {
    hide ReadAll, Meaning, Consume, Trips, TripsAfter;
    ReadingIsMeaning(utf8, decode, max, one + more1, fault1);
    ReadingIsMeaning(utf8, decode, max, one + more2, fault2);
    TripsBefore(utf8, decode, max, one, more1);
    TripsBefore(utf8, decode, max, one, more2);
    ConcatBoth(one, more1);
    ConcatBoth(one, more2);
    StaysEnded(utf8, decode, max, Concat(one), Concat(more1));
    StaysEnded(utf8, decode, max, Concat(one), Concat(more2));
  }

  // ---- what is assembled ----

  /** Indices in order of first appearance. */
  function Order(ds: seq<ToolDelta>): seq<nat> {
    if ds == [] then []
    else
      var earlier := Order(ds[..|ds| - 1]);
      if ds[|ds| - 1].index in earlier then earlier else earlier + [ds[|ds| - 1].index]
  }

  /** The first non-empty text an index received. */
  function First(texts: seq<Option<string>>): string {
    if texts == [] then "" else if texts[0].Some? && texts[0].value != "" then texts[0].value else First(texts[1..])
  }

  function Joined(texts: seq<Option<string>>): string {
    if texts == [] then "" else (if texts[0].Some? then texts[0].value else "") + Joined(texts[1..])
  }

  function Last<T>(values: seq<Option<T>>): Option<T> {
    if values == [] then None
    else
      var last := values[|values| - 1];
      if last.Some? then last else Last(values[..|values| - 1])
  }

  datatype Part = IdPart | NamePart | ArgsPart

  function PartOf(p: Part, d: ToolDelta): Option<string> {
    match p case IdPart => d.id case NamePart => d.name case ArgsPart => d.fragment
  }

  /** One part of the deltas of an index, in arrival order. */
  function Parts(p: Part, ds: seq<ToolDelta>, index: nat): seq<Option<string>> {
    if ds == [] then []
    else
      Parts(p, ds[..|ds| - 1], index) + if ds[|ds| - 1].index == index then [PartOf(p, ds[|ds| - 1])] else []
  }

  /** The slot an index should end up with. */
  function SlotSpec(ds: seq<ToolDelta>, index: nat): ToolSlot {
    ToolSlot(index, First(Parts(IdPart, ds, index)), First(Parts(NamePart, ds, index)),
             Joined(Parts(ArgsPart, ds, index)))
  }

  function SlotsSpec(ds: seq<ToolDelta>): (slots: seq<ToolSlot>)
    ensures |slots| == |Order(ds)|
    ensures forall i :: 0 <= i < |slots| ==> slots[i] == SlotSpec(ds, Order(ds)[i])
  {
    seq(|Order(ds)|, i requires 0 <= i < |Order(ds)| => SlotSpec(ds, Order(ds)[i]))
  }

  lemma {:induction false} FirstSnoc(texts: seq<Option<string>>, t: Option<string>)
    ensures First(texts + [t]) == if t.Some? && First(texts) == "" then t.value else First(texts)
  {
    if texts == [] {
      assert (texts + [t])[1..] == [];
    } else {
      assert (texts + [t])[0] == texts[0] && (texts + [t])[1..] == texts[1..] + [t];
      FirstSnoc(texts[1..], t);
    }
  }

  lemma {:induction false} JoinedSnoc(texts: seq<Option<string>>, t: Option<string>)
    ensures Joined(texts + [t]) == Joined(texts) + if t.Some? then t.value else ""
  {
    if texts == [] {
      assert (texts + [t])[1..] == [];
    } else {
      assert (texts + [t])[0] == texts[0] && (texts + [t])[1..] == texts[1..] + [t];
      JoinedSnoc(texts[1..], t);
      ConcatAssoc(if texts[0].Some? then texts[0].value else "", Joined(texts[1..]), if t.Some? then t.value else "");
    }
  }

  lemma PartsSnoc(p: Part, ds: seq<ToolDelta>, d: ToolDelta, index: nat)
    ensures Parts(p, ds + [d], index) == Parts(p, ds, index) + if d.index == index then [PartOf(p, d)] else []
  {
    assert (ds + [d])[..|ds|] == ds;
  }

  lemma SlotSnoc(ds: seq<ToolDelta>, d: ToolDelta, index: nat)
    ensures SlotSpec(ds + [d], index) == if d.index == index then Fill(SlotSpec(ds, index), d) else SlotSpec(ds, index)
  {
    hide First, Joined, Parts;
    PartsSnoc(IdPart, ds, d, index);
    PartsSnoc(NamePart, ds, d, index);
    PartsSnoc(ArgsPart, ds, d, index);
    if d.index == index {
      FirstSnoc(Parts(IdPart, ds, index), d.id);
      FirstSnoc(Parts(NamePart, ds, index), d.name);
      JoinedSnoc(Parts(ArgsPart, ds, index), d.fragment);
      assert Joined(Parts(ArgsPart, ds, index)) + "" == Joined(Parts(ArgsPart, ds, index));
    } else {
      SameParts(ds, index);
    }
  }

  lemma SameParts(ds: seq<ToolDelta>, index: nat)
    ensures forall p: Part :: Parts(p, ds, index) + [] == Parts(p, ds, index)
  {
  }

  lemma {:induction false} NewSlot(ds: seq<ToolDelta>, index: nat)
    requires index !in Order(ds)
    ensures forall p: Part :: Parts(p, ds, index) == []
  {
    if ds != [] { NewSlot(ds[..|ds| - 1], index); }
  }

  lemma {:induction false} OrderDistinct(ds: seq<ToolDelta>)
    ensures Distinct(Order(ds))
    ensures forall x :: x in Order(ds) <==> exists k :: 0 <= k < |ds| && ds[k].index == x
  {
    if ds != [] {
      var before, d := ds[..|ds| - 1], ds[|ds| - 1];
      OrderDistinct(before);
      forall x ensures x in Order(ds) <==> exists k :: 0 <= k < |ds| && ds[k].index == x {
        if x in Order(before) {
          var k :| 0 <= k < |before| && before[k].index == x;
          assert ds[k].index == x;
        }
        if x == d.index { assert ds[|ds| - 1].index == x; }
        if k :| 0 <= k < |ds| && ds[k].index == x && k < |ds| - 1 { assert before[k].index == x; }
      }
    }
  }

  lemma SlotIndexIs(slots: seq<ToolSlot>, i: nat)
    requires i < |slots| && forall j :: 0 <= j < i ==> slots[j].index != slots[i].index
    ensures SlotIndex(slots, slots[i].index) == i
  {
  }

  /** Absorbing deltas one by one: one slot per index in order of first appearance, each with its first
      non-empty id and name and all its fragments in order. */
  lemma {:induction false} SlotsAssemble(ds: seq<ToolDelta>)
    ensures AbsorbTools([], ds) == SlotsSpec(ds)
  {
    hide SlotSpec, Fill;
    if ds != [] {
      var before, d := ds[..|ds| - 1], ds[|ds| - 1];
      assert ds == before + [d];
      SlotsAssemble(before);
      OrderDistinct(before);
      var slots, order := SlotsSpec(before), Order(before);
      forall j | 0 <= j < |order|
        ensures SlotSpec(ds, order[j]) == if d.index == order[j] then Fill(slots[j], d) else slots[j]
        ensures slots[j].index == order[j]
      {
        SlotSnoc(before, d, order[j]);
        SpecIndex(before, order[j]);
      }
      if d.index in order {
        var i :| 0 <= i < |order| && order[i] == d.index;
        SlotIndexIs(slots, i);
        assert AbsorbTool(slots, d) == SlotsSpec(ds);
      } else {
        SlotSnoc(before, d, d.index);
        NewSlotSpec(before, d.index);
        assert AbsorbTool(slots, d) == SlotsSpec(ds);
      }
    }
  }

  lemma SpecIndex(ds: seq<ToolDelta>, index: nat)
    ensures SlotSpec(ds, index).index == index
  {
  }

  lemma NewSlotSpec(ds: seq<ToolDelta>, index: nat)
    requires index !in Order(ds)
    ensures SlotSpec(ds, index) == ToolSlot(index, "", "", "")
  {
    NewSlot(ds, index);
    assert Parts(IdPart, ds, index) == [] && Parts(NamePart, ds, index) == [] && Parts(ArgsPart, ds, index) == [];
  }

  // ---- a whole stream of chunks ----

  function AbsorbAll(cs: seq<StreamChunk>): Assembly {
    if cs == [] then EMPTY_ASSEMBLY else AbsorbChunk(AbsorbAll(cs[..|cs| - 1]), cs[|cs| - 1])
  }

  function AllDeltas(cs: seq<StreamChunk>): seq<ToolDelta> {
    if cs == [] then [] else AllDeltas(cs[..|cs| - 1]) + cs[|cs| - 1].deltas
  }

  function Contents(cs: seq<StreamChunk>): (r: seq<Option<string>>)
    ensures |r| == |cs| && forall i :: 0 <= i < |cs| ==> r[i] == cs[i].content
  {
    seq(|cs|, i requires 0 <= i < |cs| => cs[i].content)
  }

  function Reasons(cs: seq<StreamChunk>): (r: seq<Option<string>>)
    ensures |r| == |cs| && forall i :: 0 <= i < |cs| ==> r[i] == cs[i].finishReason
  {
    seq(|cs|, i requires 0 <= i < |cs| => cs[i].finishReason)
  }

  function Usages(cs: seq<StreamChunk>): (r: seq<Option<Usage>>)
    ensures |r| == |cs| && forall i :: 0 <= i < |cs| ==> r[i] == cs[i].usage
  {
    seq(|cs|, i requires 0 <= i < |cs| => cs[i].usage)
  }

  lemma {:induction false} AbsorbToolsAppend(slots: seq<ToolSlot>, a: seq<ToolDelta>, b: seq<ToolDelta>)
    ensures AbsorbTools(slots, a + b) == AbsorbTools(AbsorbTools(slots, a), b)
    decreases |b|
  {
    if b == [] {
      assert a + b == a;
    } else {
      var n := |b| - 1;
      assert (a + b)[..|a + b| - 1] == a + b[..n] && (a + b)[|a + b| - 1] == b[n];
      AbsorbToolsAppend(slots, a, b[..n]);
    }
  }

  /** The assembled response: texts concatenated, calls as above, the last finish reason and usage. */
  lemma {:induction false} ChunksAssemble(cs: seq<StreamChunk>)
    ensures AbsorbAll(cs) ==
      Assembly(Joined(Contents(cs)), SlotsSpec(AllDeltas(cs)), Last(Reasons(cs)), Last(Usages(cs)))
  {
    hide SlotsSpec, Joined, AbsorbTools;
    SlotsAssemble(AllDeltas(cs));
    if cs == [] {
      assert Joined([]) == "" && AbsorbTools([], []) == [] by { NothingAbsorbed(); }
    } else {
      var before, c := cs[..|cs| - 1], cs[|cs| - 1];
      ChunksAssemble(before);
      SlotsAssemble(AllDeltas(before));
      AbsorbToolsAppend([], AllDeltas(before), c.deltas);
      assert Contents(cs) == Contents(before) + [c.content];
      JoinedSnoc(Contents(before), c.content);
      assert Reasons(cs)[..|cs| - 1] == Reasons(before) && Usages(cs)[..|cs| - 1] == Usages(before);
    }
  }

  lemma NothingAbsorbed()
    ensures Joined([]) == "" && AbsorbTools([], []) == []
  {
  }

  /** The event carries a chunk, or nothing. */
  predicate Harmless(decode: Decode, e: SseEvent) {
    e.Comment? || (decode(e.data).Ok? && decode(e.data).value.Piece?)
  }

  predicate AllHarmless(decode: Decode, es: seq<SseEvent>) { forall i :: 0 <= i < |es| ==> Harmless(decode, es[i]) }

  function PiecesOf(decode: Decode, es: seq<SseEvent>): seq<StreamChunk>
    requires AllHarmless(decode, es)
  {
    if es == [] then []
    else
      var e := es[|es| - 1];
      assert Harmless(decode, e);
      PiecesOf(decode, es[..|es| - 1]) + if e.Comment? then [] else [decode(e.data).value.chunk]
  }

  lemma {:induction false} ConsumePieces(decode: Decode, es: seq<SseEvent>)
    requires AllHarmless(decode, es)
    ensures Consume(decode, EMPTY_ASSEMBLY, es) == More(AbsorbAll(PiecesOf(decode, es)))
    decreases |es|
  {
    hide AbsorbChunk;
    if es != [] {
      var before, e := es[..|es| - 1], es[|es| - 1];
      assert es == before + [e] && Harmless(decode, e);
      ConsumePieces(decode, before);
      ConsumeAppend(decode, EMPTY_ASSEMBLY, before, [e]);
      ConsumeCons(decode, AbsorbAll(PiecesOf(decode, before)), e, []);
      assert [e] + [] == [e];
      if e.Message? {
        var pieces := PiecesOf(decode, es);
        assert pieces[..|pieces| - 1] == PiecesOf(decode, before);
      } else {
        assert PiecesOf(decode, before) + [] == PiecesOf(decode, before);
      }
    }
  }

  /** The result of a stream that reaches its end marker: the texts of the chunks before it concatenated,
      one call per index in order of first appearance with its first non-empty id and name and all its
      fragments, the last finish reason and usage; whatever follows the marker. */
  lemma StreamResult(decode: Decode, es: seq<SseEvent>, end: Bytes, more: seq<SseEvent>, error: Option<SseError>,
                     fault: Option<string>)
    requires AllHarmless(decode, es) && decode(end) == Ok(Done)
    ensures
      var cs := PiecesOf(decode, es);
      Result(decode, EMPTY_ASSEMBLY, es + [Message(end)] + more, error, fault) ==
        Ok(CallResult(Joined(Contents(cs)), CallsOfSlots(SlotsSpec(AllDeltas(cs))), Last(Reasons(cs)),
                      Last(Usages(cs))))
  {
    hide Joined, Contents, SlotsSpec, AllDeltas, Last, Reasons, Usages, Result, Consume;
    ConsumePieces(decode, es);
    DoneIsFinal(decode, EMPTY_ASSEMBLY, es, end, more, error, fault);
    ChunksAssemble(PiecesOf(decode, es));
  }
}
