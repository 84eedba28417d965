/** The wire format from the writer's side: lines printed byte by byte, and what the decoder reads from them.
    Nothing here mentions how the decoder takes a line apart. */
module SseWire {
  import opened Options
  import opened Invocations
  import opened Sse
  import opened SseChunking
  import opened SseRefinement

  /** A line to be sent: an empty one, a comment, or a field with or without a colon; `pad` puts one space after
      the colon. */
  datatype Wire =
    | Blank
    | Note(pad: bool, text: Bytes)
    | Field(name: Bytes, colon: bool, pad: bool, value: Bytes)

  predicate NoEnd(s: Bytes) { forall b :: b in s ==> b != 10 && b != 13 }

  function Space(pad: bool): Bytes { if pad then [32] else [] }

  function Print(w: Wire): Bytes {
    match w
    case Blank => []
    case Note(pad, text) => [58] + Space(pad) + text
    case Field(name, colon, pad, value) => if colon then name + [58] + Space(pad) + value else name
  }

  /** Printable without ambiguity: no line end inside, no colon in a name, and a leading space of the text is
      written only behind a pad. */
  predicate WellFormed(w: Wire) {
    match w
    case Blank => true
    case Note(pad, text) => NoEnd(text) && (!pad ==> text == [] || text[0] != 32)
    case Field(name, colon, pad, value) =>
      && name != [] && NoEnd(name) && 58 !in name && NoEnd(value)
      && (if colon then pad || value == [] || value[0] != 32 else !pad && value == [])
  }

  predicate Legible(utf8: Utf8, w: Wire) {
    match w
    case Blank => true
    case Note(pad, text) => utf8(Space(pad) + text)
    case Field(name, _, _, value) => utf8(name) && utf8(value)
  }

  predicate Good(utf8: Utf8, max: nat, w: Wire) { |Print(w)| <= max && Legible(utf8, w) }

  /** Lines, each ended by LF or by CR LF. */
  function PrintAll(ws: seq<Wire>, ends: seq<bool>): Bytes
    requires |ends| == |ws|
  {
    if ws == [] then [] else Print(ws[0]) + (if ends[0] then [13, 10] else [10]) + PrintAll(ws[1..], ends[1..])
  }

  /** Values with a line feed between any two. */
  function Lines(values: seq<Bytes>): Bytes {
    if values == [] then []
    else if |values| == 1 then values[0]
    else Lines(values[..|values| - 1]) + [10] + values[|values| - 1]
  }

  /** What the lines say: a comment at once; at an empty line the values of the `data` fields since the last one. */
  function Said(ws: seq<Wire>, values: seq<Bytes>): seq<SseEvent>
    decreases |ws|
  {
    if ws == [] then []
    else
      match ws[0]
      case Note(_, text) => [Comment(text)] + Said(ws[1..], values)
      case Blank => (if values == [] then [] else [Message(Lines(values))]) + Said(ws[1..], [])
      case Field(name, _, _, value) =>
        Said(ws[1..], if name == [100, 97, 116, 97] then values + [value] else values)
  }

  // ---- every line is one of these ----

  function ColonIn(s: Bytes): (i: nat)
    ensures i <= |s| && (forall j :: 0 <= j < i ==> s[j] != 58) && (i < |s| ==> s[i] == 58)
  {
    if s == [] || s[0] == 58 then 0 else 1 + ColonIn(s[1..])
  }

  /** The line that prints as these bytes. */
  function Scan(s: Bytes): Wire {
    if s == [] then Blank
    else
      var i := ColonIn(s);
      if i == |s| then Field(s, false, false, [])
      else
        var pad := i + 1 < |s| && s[i + 1] == 32;
        var text := s[if pad then i + 2 else i + 1..];
        if i == 0 then Note(pad, text) else Field(s[..i], true, pad, text)
  }

  /** Any bytes without a line end are exactly one well-formed line. */
  lemma PrintingIsOnto(s: Bytes)
    requires NoEnd(s)
    ensures WellFormed(Scan(s)) && Print(Scan(s)) == s
  {
    var i := ColonIn(s);
    if s != [] && i < |s| {
      var pad := i + 1 < |s| && s[i + 1] == 32;
      var text := s[if pad then i + 2 else i + 1..];
      assert s == s[..i] + [58] + Space(pad) + text;
      Parts(s, i, text);
      if i == 0 { assert s == [58] + Space(pad) + text; }
    }
  }

  lemma Parts(s: Bytes, i: nat, text: Bytes)
    requires NoEnd(s) && i < |s| && |text| <= |s| && text == s[|s| - |text|..]
    ensures NoEnd(s[..i]) && NoEnd(text)
  {
    forall b | b in s[..i] ensures b in s { }
    forall b | b in text ensures b in s { }
  }

  lemma PrintingIsOneToOne(w: Wire)
    requires WellFormed(w)
    ensures Scan(Print(w)) == w
  {
    var s := Print(w);
    match w
    case Blank =>
    case Note(pad, text) => assert s[0] == 58 && s[1..] == Space(pad) + text;
    case Field(name, colon, pad, value) =>
      ColonOf(name, s);
      if colon {
        assert s[|name| + 1..] == Space(pad) + value;
        assert s[..|name|] == name;
      }
  }

  lemma ColonOf(name: Bytes, s: Bytes)
    requires name != [] && 58 !in name && name <= s && (|s| > |name| ==> s[|name|] == 58)
    ensures ColonIn(s) == |name| && ColonAt(s) == |name|
  {
    assert forall j :: 0 <= j < |name| ==> s[j] == name[j] && name[j] in name;
  }

  // ---- the decoder reads what was printed ----

  lemma PrintNoEnd(w: Wire)
    requires WellFormed(w)
    ensures Unbroken(Print(w))
  {
    forall i | 0 <= i < |Print(w)| ensures !Terminator(Print(w)[i]) { assert Print(w)[i] in Print(w); }
  }

  lemma {:induction false} SplitPrinted(ws: seq<Wire>, ends: seq<bool>)
    requires |ends| == |ws| && forall w :: w in ws ==> WellFormed(w)
    ensures
      var p := SplitLines(PrintAll(ws, ends));
      p.rest == [] && |p.cuts| == |ws| && forall i :: 0 <= i < |ws| ==> p.cuts[i].line == Print(ws[i])
  {
    if ws != [] {
      hide Print, WellFormed;
      assert ws[0] in ws;
      PrintNoEnd(ws[0]);
      SplitPrinted(ws[1..], ends[1..]);
      SplitFirst(Print(ws[0]), ends[0], PrintAll(ws[1..], ends[1..]));
    }
  }

  lemma SplitFirst(line: Bytes, crlf: bool, rest: Bytes)
    requires Unbroken(line)
    ensures
      var end: Bytes := if crlf then [13, 10] else [10];
      SplitLines(line + end + rest) == Split([Cut(line, end)] + SplitLines(rest).cuts, SplitLines(rest).rest)
  {
    var end: Bytes := if crlf then [13, 10] else [10];
    var s := line + end + rest;
    assert forall i :: 0 <= i < |line| ==> s[i] == line[i];
    assert s[|line|] == end[0] && LineEnd(s) == |line|;
    assert s[..|line|] == line && s[|line|..|line| + |end|] == end && s[|line| + |end|..] == rest;
    if crlf { assert s[|line| + 1] == end[1]; }
  }

  /** How the decoder sees a printed line. */
  predicate Seen(utf8: Utf8, w: Wire) {
    var s := Print(w);
    && (ValidLine(utf8, s) <==> Legible(utf8, w))
    && (w.Blank? <==> s == []) && (IsComment(s) <==> w.Note?)
    && (w.Note? ==> StripSpace(s[1..]) == w.text)
    && (IsData(s) <==> w.Field? && w.name == [100, 97, 116, 97])
    && (w.Field? ==> FieldValue(s) == w.value)
  }

  lemma SeenNote(utf8: Utf8, w: Wire)
    requires WellFormed(w) && !w.Field?
    ensures Seen(utf8, w)
  {
    if w.Note? { assert Print(w)[1..] == Space(w.pad) + w.text; }
    hide FieldValue, FieldName;
  }

  lemma SeenField(utf8: Utf8, w: Wire)
    requires WellFormed(w) && w.Field?
    ensures Seen(utf8, w)
  {
    var s := Print(w);
    ColonOf(w.name, s);
    assert w.name[0] in w.name && s[0] == w.name[0] && s[..|w.name|] == w.name;
    if w.colon {
      assert s[|w.name| + 1..] == Space(w.pad) + w.value;
      assert StripSpace(Space(w.pad) + w.value) == w.value;
    }
    hide NoEnd;
  }

  lemma JoinIsLines(values: seq<Bytes>)
    ensures Join(values) == Lines(values)
  {
  }

  /** One line, in the specification of the decoder. */
  lemma SaidOne(utf8: Utf8, w: Wire, lines: seq<Bytes>, i: nat)
    requires i < |lines| && lines[i] == Print(w) && Seen(utf8, w)
    ensures
      var values := DataBefore(lines, i);
      && EventAt(lines, i) ==
         (if w.Note? then [Comment(w.text)] else if w.Blank? && values != [] then [Message(Lines(values))] else [])
      && DataBefore(lines, i + 1) ==
         if w.Blank? then []
         else if w.Field? && w.name == [100, 97, 116, 97] then values + [w.value]
         else values
  {
    var values := DataBefore(lines, i);
    JoinIsLines(values);
    assert values + [] == values;
    hide Print, StripSpace, FieldValue, IsComment, IsData, ValidLine, Legible, Join, Lines;
  }

  lemma {:induction false} EventsAreSaid(utf8: Utf8, ws: seq<Wire>, lines: seq<Bytes>, i: nat, n: nat)
    requires i <= n <= |lines| == |ws| && forall w :: w in ws ==> WellFormed(w)
    requires forall x :: 0 <= x < |ws| ==> lines[x] == Print(ws[x])
    ensures EventsFrom(lines, i, n) == Said(ws[i..n], DataBefore(lines, i))
    decreases n - i
  {
    hide Print, WellFormed, Seen, DataBefore, EventAt, Lines;
    if i < n {
      assert ws[i] in ws;
      if ws[i].Field? { SeenField(utf8, ws[i]); } else { SeenNote(utf8, ws[i]); }
      SaidOne(utf8, ws[i], lines, i);
      assert ws[i..n][0] == ws[i] && ws[i..n][1..] == ws[i + 1..n];
      EventsAreSaid(utf8, ws, lines, i + 1, n);
      assert [] + EventsFrom(lines, i + 1, n) == EventsFrom(lines, i + 1, n);
    }
  }

  /** Print any lines, ended by LF or CR LF as one pleases, and feed the bytes: the decoder yields exactly what the
      lines before the first bad one say, and its error is that line's - too long, or not UTF-8 - or none. */
  lemma DecodesWhatWasPrinted(utf8: Utf8, max: nat, ws: seq<Wire>, ends: seq<bool>, n: nat)
    requires |ends| == |ws| && n <= |ws| && forall w :: w in ws ==> WellFormed(w)
    requires (forall i :: 0 <= i < n ==> Good(utf8, max, ws[i])) && (n < |ws| ==> !Good(utf8, max, ws[n]))
    ensures
      var (d, es) := Drain(utf8, Feed(NewDecoder(max), PrintAll(ws, ends)));
      && es == Said(ws[..n], [])
      && d.error == (if n == |ws| then None
                     else Some(if |Print(ws[n])| > max then LineTooLong(max) else InvalidUtf8))
  {
    hide Drain, SplitLines, Print, WellFormed, Legible, Said, EventsFrom, ValidLine;
    var s := PrintAll(ws, ends);
    var lines := LinesOf(SplitLines(s).cuts);
    DecoderRefinesMeaning(utf8, max, s);
    SplitPrinted(ws, ends);
    forall i | 0 <= i < |ws| ensures GoodLine(utf8, max, lines[i]) <==> Good(utf8, max, ws[i]) {
      assert ws[i] in ws;
      if ws[i].Field? { SeenField(utf8, ws[i]); } else { SeenNote(utf8, ws[i]); }
    }
    assert FirstBad(utf8, max, lines, 0) == n;
    EventsAreSaid(utf8, ws, lines, 0, n);
    assert ws[0..n] == ws[..n];
  }

  // ---- in particular ----

  /** One `data` line and an empty line are one message with exactly the value: one space after the colon belongs
      to the format, a second one to the value. */
  lemma DataLine(utf8: Utf8, max: nat, pad: bool, v: Bytes)
    requires NoEnd(v) && utf8([100, 97, 116, 97]) && utf8(v) && (!pad ==> v == [] || v[0] != 32)
    requires |v| + (if pad then 6 else 5) <= max
    ensures
      var line: Bytes := [100, 97, 116, 97, 58] + (if pad then [32] else []) + v;
      var (d, es) := Drain(utf8, Feed(NewDecoder(max), line + [10, 10]));
      es == [Message(v)] && d.error.None?
  {
    var ws := [Field([100, 97, 116, 97], true, pad, v), Blank];
    var line := Print(ws[0]);
    assert line == [100, 97, 116, 97, 58] + (if pad then [32] else []) + v;
    assert ws[1..] == [Blank] && ws[1..][1..] == [] && ws[..2] == ws;
    assert [false, false][1..] == [false] && [false][1..] == [];
    assert PrintAll(ws[1..], [false]) == [10];
    assert PrintAll(ws, [false, false]) == line + [10] + [10] == line + [10, 10];
    assert Said(ws[1..], [v]) == [Message(v)] + [];
    assert [] + [v] == [v];
    hide Drain;
    DecodesWhatWasPrinted(utf8, max, ws, [false, false], 2);
  }

  /** A comment line is one comment with exactly its text; a field of any other name says nothing. */
  lemma OtherLines(utf8: Utf8, max: nat, pad: bool, name: Bytes, v: Bytes)
    requires NoEnd(v) && (!pad ==> v == [] || v[0] != 32)
    requires name != [] && NoEnd(name) && 58 !in name && name != [100, 97, 116, 97]
    requires utf8(name) && utf8(v) && utf8((if pad then [32] else []) + v)
    requires |name| + |v| + (if pad then 2 else 1) <= max
    ensures
      var tail: Bytes := [58] + (if pad then [32] else []) + v + [10, 10];
      Drain(utf8, Feed(NewDecoder(max), tail)).1 == [Comment(v)]
      && Drain(utf8, Feed(NewDecoder(max), name + tail)).1 == []
  {
    var tail: Bytes := [58] + (if pad then [32] else []) + v + [10, 10];
    var one, two := [Note(pad, v), Blank], [Field(name, true, pad, v), Blank];
    assert [false, false][1..] == [false] && [false][1..] == [];
    assert one[1..] == [Blank] && two[1..] == [Blank] && [Blank][1..] == [] && one[..2] == one && two[..2] == two;
    assert PrintAll([Blank], [false]) == [10];
    assert PrintAll(one, [false, false]) == tail;
    assert PrintAll(two, [false, false]) == name + tail;
    assert Said([Blank], []) == [];
    hide Drain;
    DecodesWhatWasPrinted(utf8, max, one, [false, false], 2);
    DecodesWhatWasPrinted(utf8, max, two, [false, false], 2);
  }
}
