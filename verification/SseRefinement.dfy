/** The decoder against a specification of the whole input: split it into lines, look at each line and at
    the data lines before it. */
module SseRefinement {
  import opened Options
  import opened Invocations
  import opened Sse
  import opened SseChunking

  // ---- the input as lines ----

  /** A line and the terminator that ends it. */
  datatype Cut = Cut(line: Bytes, end: Bytes)

  datatype Split = Split(cuts: seq<Cut>, rest: Bytes)

  /** The complete lines of an input, and what is left: a CR at the very end may yet become CR LF. */
  function SplitLines(s: Bytes): Split
    decreases |s|
  {
    var i := LineEnd(s);
    if i == |s| || (s[i] == CR && i + 1 == |s|) then Split([], s)
    else
      var n := if s[i] == CR && s[i + 1] == LF then i + 2 else i + 1;
      var more := SplitLines(s[n..]);
      Split([Cut(s[..i], s[i..n])] + more.cuts, more.rest)
  }

  function Glue(cuts: seq<Cut>): Bytes {
    if cuts == [] then [] else cuts[0].line + cuts[0].end + Glue(cuts[1..])
  }

  predicate Unbroken(s: Bytes) { forall i :: 0 <= i < |s| ==> !Terminator(s[i]) }

  /** A lone CR is not followed by an LF. */
  predicate WellCut(cut: Cut, after: Bytes) {
    && Unbroken(cut.line)
    && (cut.end == [LF] || cut.end == [CR, LF] || (cut.end == [CR] && after != [] && after[0] != LF))
  }

  /** Every cut is where the line grammar puts it, and the rest holds no complete line. */
  predicate CutRight(cuts: seq<Cut>, rest: Bytes) {
    if cuts == [] then Unbroken(rest) || (rest[|rest| - 1] == CR && Unbroken(rest[..|rest| - 1]))
    else WellCut(cuts[0], Glue(cuts[1..]) + rest) && CutRight(cuts[1..], rest)
  }

  /** Nothing is lost and every cut is right. */
  lemma {:induction false} SplitSound(s: Bytes)
    ensures
      var p := SplitLines(s);
      s == Glue(p.cuts) + p.rest && CutRight(p.cuts, p.rest)
    decreases |s|
  {
    hide Glue, CutRight, WellCut, LineEnd;
    var i := LineEnd(s);
    if i == |s| || (s[i] == CR && i + 1 == |s|) {
      NoCut(s);
    } else {
      var n := if s[i] == CR && s[i + 1] == LF then i + 2 else i + 1;
      SplitSound(s[n..]);
      var more := SplitLines(s[n..]);
      CutCons(Cut(s[..i], s[i..n]), more.cuts, more.rest);
      CutEnd(s, i, n);
      ThreeParts(s, i, n);
    }
  }

  lemma ThreeParts(s: Bytes, i: nat, n: nat)
    requires i <= n <= |s|
    ensures s == s[..i] + s[i..n] + s[n..]
  {
  }

  lemma NoCut(s: Bytes)
    requires LineEnd(s) == |s| || (s[LineEnd(s)] == CR && LineEnd(s) + 1 == |s|)
    ensures Glue([]) + s == s && CutRight([], s)
  {
    assert [] + s == s;
  }

  lemma CutCons(cut: Cut, cuts: seq<Cut>, rest: Bytes)
    ensures Glue([cut] + cuts) + rest == cut.line + cut.end + (Glue(cuts) + rest)
    ensures CutRight([cut] + cuts, rest) <==> WellCut(cut, Glue(cuts) + rest) && CutRight(cuts, rest)
  {
    assert ([cut] + cuts)[1..] == cuts;
    assert cut.line + cut.end + Glue(cuts) + rest == cut.line + cut.end + (Glue(cuts) + rest);
  }

  lemma CutEnd(s: Bytes, i: nat, n: nat)
    requires i == LineEnd(s) && i < |s| && !(s[i] == CR && i + 1 == |s|)
    requires n == if s[i] == CR && s[i + 1] == LF then i + 2 else i + 1
    ensures WellCut(Cut(s[..i], s[i..n]), s[n..])
  {
    hide LineEnd;
    if n == i + 2 { assert s[i..n] == [CR, LF]; } else { assert s[i..n] == [s[i]]; }
    var line := s[..i];
    forall j | 0 <= j < |line| ensures !Terminator(line[j]) { assert line[j] == s[j]; }
  }

  function LinesOf(cuts: seq<Cut>): (lines: seq<Bytes>)
    ensures |lines| == |cuts|
    ensures forall i :: 0 <= i < |cuts| ==> lines[i] == cuts[i].line
  {
    seq(|cuts|, i requires 0 <= i < |cuts| => cuts[i].line)
  }

  // ---- what lines mean ----

  /** The values of the data lines since the last empty line before `i`. */
  function DataBefore(lines: seq<Bytes>, i: nat): seq<Bytes>
    requires i <= |lines|
  {
    if i == 0 || lines[i - 1] == [] then []
    else DataBefore(lines, i - 1) + if IsData(lines[i - 1]) then [FieldValue(lines[i - 1])] else []
  }

  /** Values joined with line feeds. */
  function Join(values: seq<Bytes>): Bytes {
    if values == [] then []
    else if |values| == 1 then values[0]
    else Join(values[..|values| - 1]) + [LF] + values[|values| - 1]
  }

  /** The event a line completes: a comment itself, an empty line the data before it. */
  function EventAt(lines: seq<Bytes>, i: nat): seq<SseEvent>
    requires i < |lines|
  {
    if IsComment(lines[i]) then [Comment(StripSpace(lines[i][1..]))]
    else if lines[i] == [] && DataBefore(lines, i) != [] then [Message(Join(DataBefore(lines, i)))]
    else []
  }

  function EventsFrom(lines: seq<Bytes>, i: nat, n: nat): seq<SseEvent>
    requires i <= n <= |lines|
    decreases n - i
  {
    if i == n then [] else EventAt(lines, i) + EventsFrom(lines, i + 1, n)
  }

  predicate GoodLine(utf8: Utf8, max: nat, line: Bytes) { |line| <= max && ValidLine(utf8, line) }

  /** Index of the first bad line from `i` on, or the number of lines. */
  function FirstBad(utf8: Utf8, max: nat, lines: seq<Bytes>, i: nat): (n: nat)
    requires i <= |lines|
    ensures i <= n <= |lines|
    ensures forall j :: i <= j < n ==> GoodLine(utf8, max, lines[j])
    ensures n < |lines| ==> !GoodLine(utf8, max, lines[n])
    decreases |lines| - i
  {
    if i == |lines| || !GoodLine(utf8, max, lines[i]) then i else FirstBad(utf8, max, lines, i + 1)
  }

  /** What is wrong with the input: its first bad line, or else too long a rest. */
  function ErrorOf(max: nat, lines: seq<Bytes>, n: nat, rest: Bytes): Option<SseError>
    requires n <= |lines|
  {
    if n < |lines| then Some(if |lines[n]| > max then LineTooLong(max) else InvalidUtf8)
    else if |rest| > max then Some(LineTooLong(max)) else None
  }

  /** Events and error of a whole input. */
  function Meaning(utf8: Utf8, max: nat, s: Bytes): (seq<SseEvent>, Option<SseError>) {
    var p := SplitLines(s);
    var lines := LinesOf(p.cuts);
    var n := FirstBad(utf8, max, lines, 0);
    (EventsFrom(lines, 0, n), ErrorOf(max, lines, n, p.rest))
  }

  // ---- the decoder agrees ----

  /** What the decoder keeps of the data lines seen: each value followed by a line feed. */
  function Kept(values: seq<Bytes>): Bytes {
    if values == [] then [] else Kept(values[..|values| - 1]) + values[|values| - 1] + [LF]
  }

  lemma {:induction false} KeptIsJoin(values: seq<Bytes>)
    requires values != []
    ensures Kept(values) == Join(values) + [LF]
    ensures DropLf(Kept(values)) == Join(values)
  {
    if |values| > 1 {
      KeptIsJoin(values[..|values| - 1]);
      assert Kept(values) == Kept(values[..|values| - 1]) + values[|values| - 1] + [LF];
    } else {
      assert values[..0] == [];
      assert Kept([]) + values[0] + [LF] == values[0] + [LF];
    }
    assert (Join(values) + [LF])[..|Join(values)|] == Join(values);
  }

  lemma KeptSnoc(values: seq<Bytes>, v: Bytes)
    ensures Kept(values + [v]) == Kept(values) + v + [LF]
  {
    assert (values + [v])[..|values|] == values;
  }

  /** The decoder has read the lines before `i`. */
  predicate Read(d: Decoder, lines: seq<Bytes>, i: nat)
    requires i <= |lines|
  {
    && d.error.None?
    && d.data == Kept(DataBefore(lines, i))
    && (d.hasDataField <==> DataBefore(lines, i) != [])
  }

  /** One good line: the event of the specification, and the state for the next line. */
  lemma OnLineMeans(utf8: Utf8, d: Decoder, lines: seq<Bytes>, i: nat)
    requires i < |lines| && Read(d, lines, i)
    ensures
      var p := OnLine(utf8, d, lines[i]);
      if ValidLine(utf8, lines[i]) then
        && p.Moved? && Read(p.after, lines, i + 1)
        && EventAt(lines, i) == (if p.event.Some? then [p.event.value] else [])
      else p.Failed? && p.after.error == Some(InvalidUtf8)
  {
    hide Kept;
    KeptNothing();
    var values := DataBefore(lines, i);
    if lines[i] == [] {
      if values != [] { KeptIsJoin(values); }
    } else if IsData(lines[i]) {
      KeptSnoc(values, FieldValue(lines[i]));
    } else {
      assert values + [] == values;
    }
  }

  lemma KeptNothing()
    ensures Kept([]) == []
  {
  }

  /** `TakeLine` finds the first cut. */
  lemma TakeIsCut(s: Bytes, max: nat)
    ensures
      var p := SplitLines(s);
      if p.cuts == [] then TakeLine(s, max) == PendingOrTooLong(s, max) && p.rest == s
      else if |p.cuts[0].line| > max then TakeLine(s, max).TooLong? && |s| > max + 1
      else
        var t := TakeLine(s, max);
        && t.Line? && s[..t.length] == p.cuts[0].line
        && SplitLines(s[t.consumed..]) == Split(p.cuts[1..], p.rest)
  {
  }

  lemma LinesTail(cuts: seq<Cut>)
    requires cuts != []
    ensures LinesOf(cuts)[1..] == LinesOf(cuts[1..])
  {
  }

  /** From any line on, the decoder yields the events up to the first bad line, then its error. */
  lemma {:induction false} DrainMeans(utf8: Utf8, d: Decoder, lines: seq<Bytes>, i: nat)
    requires i <= |lines| && Read(d, lines, i)
    requires LinesOf(SplitLines(d.buf).cuts) == lines[i..]
    ensures
      var n := FirstBad(utf8, d.maxLineBytes, lines, i);
      var (d1, es) := Drain(utf8, d);
      && es == EventsFrom(lines, i, n)
      && d1.error == ErrorOf(d.maxLineBytes, lines, n, SplitLines(d.buf).rest)
      && (n == |lines| ==> d1.buf == SplitLines(d.buf).rest)
      && (n < |lines| && |lines[n]| > d.maxLineBytes ==> |d1.buf| > d.maxLineBytes + 1)
      && d1.maxLineBytes == d.maxLineBytes
    decreases |d.buf|
  {
    hide TakeLine, OnLine, SplitLines, Read, Drain, ValidLine, DataBefore, EventAt;
    var p := SplitLines(d.buf);
    TakeIsCut(d.buf, d.maxLineBytes);
    ReadFresh(d, lines, i);
    DrainLine(utf8, d);
    if p.cuts != [] {
      assert lines[i] == p.cuts[0].line && lines[i + 1..] == LinesOf(p.cuts)[1..];
      LinesTail(p.cuts);
      var t := TakeLine(d.buf, d.maxLineBytes);
      if t.Line? {
        var d0 := d.(buf := d.buf[t.consumed..]);
        ReadApart(d, d0, lines, i);
        OnLineMeans(utf8, d0, lines, i);
        if ValidLine(utf8, lines[i]) {
          DrainMeans(utf8, OnLine(utf8, d0, lines[i]).after, lines, i + 1);
        }
      }
    }
  }

  lemma ReadFresh(d: Decoder, lines: seq<Bytes>, i: nat)
    requires i <= |lines| && Read(d, lines, i)
    ensures d.error.None?
  {
  }

  lemma ReadApart(d: Decoder, d0: Decoder, lines: seq<Bytes>, i: nat)
    requires i <= |lines| && Read(d, lines, i) && d0 == d.(buf := d0.buf)
    ensures Read(d0, lines, i)
  {
  }

  /** The whole input fed at once means what the specification says. */
  lemma DecoderRefinesMeaning(utf8: Utf8, max: nat, s: Bytes)
    ensures
      var (d, es) := Drain(utf8, Feed(NewDecoder(max), s));
      (es, d.error) == Meaning(utf8, max, s)
  {
    hide Drain;
    FedBuffer(max, s);
    var lines := LinesOf(SplitLines(s).cuts);
    assert lines[0..] == lines;
    DrainMeans(utf8, Feed(NewDecoder(max), s), lines, 0);
  }

  /** However the input is cut and whenever events are pulled, short of the edge, the events and the
      error are those of the input's lines. */
  lemma CallsMean(utf8: Utf8, max: nat, ops: seq<Op>)
    requires !TooEarly(utf8, NewDecoder(max), ops)
    ensures
      var (d, es) := Calls(utf8, NewDecoder(max), ops);
      (es, d.error) == Meaning(utf8, max, Received(ops))
  {
    hide Drain, Calls, TooEarly, Meaning;
    ChunkingIsInvisibleIff(utf8, NewDecoder(max), ops);
    DecoderRefinesMeaning(utf8, max, Received(ops));
  }

  /** The edge, seen in the input: all its complete lines are good, and what is left is a full-length line
      and a CR. */
  lemma PrematureIff(utf8: Utf8, max: nat, s: Bytes)
    ensures
      var p := SplitLines(s);
      Premature(Drain(utf8, Feed(NewDecoder(max), s)).0) <==>
        FirstBad(utf8, max, LinesOf(p.cuts), 0) == |p.cuts| && Edge(p.rest, max)
  {
    hide Drain, SplitLines;
    FedBuffer(max, s);
    var lines := LinesOf(SplitLines(s).cuts);
    assert lines[0..] == lines;
    DrainMeans(utf8, Feed(NewDecoder(max), s), lines, 0) by { ReadNothing(max, s, lines); }
  }

  lemma ReadNothing(max: nat, s: Bytes, lines: seq<Bytes>)
    ensures Read(Decoder(max, s, [], false, None), lines, 0)
  {
  }
}
