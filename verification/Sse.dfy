/** The incremental Server-Sent Events decoder: bytes are fed in, events are pulled out. Text is kept as
    its UTF-8 bytes; which byte strings are valid UTF-8 is a parameter. */
module Sse {
  import opened Options
  import opened Invocations

  const CR: byte := 13
  const SPACE: byte := 32
  const COLON: byte := 58
  const DATA: Bytes := [100, 97, 116, 97]
  const DEFAULT_MAX_LINE_BYTES: nat := 1024 * 1024

  type Utf8 = Bytes -> bool

  datatype SseEvent = Message(data: Bytes) | Comment(text: Bytes)

  datatype SseError = LineTooLong(limit: nat) | InvalidUtf8

  /** Decoder state: bytes not consumed yet, the data of the current event, and the sticky error. */
  datatype Decoder = Decoder(maxLineBytes: nat, buf: Bytes, data: Bytes, hasDataField: bool, error: Option<SseError>)

  function NewDecoder(max: nat): Decoder { Decoder(max, [], [], false, None) }

  function Feed(d: Decoder, chunk: Bytes): Decoder { d.(buf := d.buf + chunk) }

  // ---- lines ----

  predicate Terminator(b: byte) { b == LF || b == CR }

  /** Position of the first byte that satisfies `Terminator`, or the length. */
  function LineEnd(s: Bytes): (i: nat)
    ensures i <= |s|
    ensures forall j :: 0 <= j < i ==> !Terminator(s[j])
    ensures i < |s| ==> Terminator(s[i])
  {
    if s == [] || Terminator(s[0]) then 0 else 1 + LineEnd(s[1..])
  }

  datatype Taken = Line(length: nat, consumed: nat) | NeedMore | TooLong

  function PendingOrTooLong(s: Bytes, max: nat): Taken { if |s| > max then TooLong else NeedMore }

  /** `take_line` as a look at the buffer: the next line and how many bytes it uses up. */
  function TakeLine(s: Bytes, max: nat): (t: Taken)
    ensures t.Line? ==> t.length < t.consumed <= |s| && t.length <= max
  {
    var i := LineEnd(s);
    if i == |s| then PendingOrTooLong(s, max)
    else if s[i] == CR && i + 1 == |s| then PendingOrTooLong(s, max)
    else if i > max then TooLong
    else Line(i, if s[i] == CR && s[i + 1] == LF then i + 2 else i + 1)
  }

  /** Position of the first colon, or the length. */
  function ColonAt(line: Bytes): (i: nat)
    ensures i <= |line|
    ensures forall j :: 0 <= j < i ==> line[j] != COLON
    ensures i < |line| ==> line[i] == COLON
  {
    if line == [] || line[0] == COLON then 0 else 1 + ColonAt(line[1..])
  }

  function StripSpace(s: Bytes): Bytes { if s != [] && s[0] == SPACE then s[1..] else s }

  function FieldName(line: Bytes): Bytes { line[..ColonAt(line)] }

  function FieldValue(line: Bytes): Bytes {
    if ColonAt(line) == |line| then [] else StripSpace(line[ColonAt(line) + 1..])
  }

  predicate IsComment(line: Bytes) { line != [] && line[0] == COLON }

  predicate IsData(line: Bytes) { line != [] && !IsComment(line) && FieldName(line) == DATA }

  predicate ValidLine(utf8: Utf8, line: Bytes) {
    if line == [] then true
    else if IsComment(line) then utf8(line[1..])
    else utf8(FieldName(line)) && utf8(FieldValue(line))
  }

  function DropLf(data: Bytes): Bytes {
    if data != [] && data[|data| - 1] == LF then data[..|data| - 1] else data
  }

  // ---- pulling ----

  /** One line of `next_event`: nothing to take, an error, or a line consumed and perhaps an event. */
  datatype Progress = Stuck | Failed(after: Decoder) | Moved(after: Decoder, event: Option<SseEvent>)

  function OnLine(utf8: Utf8, d: Decoder, line: Bytes): (p: Progress)
    ensures !p.Stuck? && p.after.buf == d.buf && p.after.maxLineBytes == d.maxLineBytes
    ensures if p.Failed? then p.after.error.Some? else p.after.error == d.error
  {
    if line == [] then
      if d.hasDataField then Moved(d.(data := [], hasDataField := false), Some(Message(DropLf(d.data))))
      else Moved(d, None)
    else if !ValidLine(utf8, line) then Failed(d.(error := Some(InvalidUtf8)))
    else if IsComment(line) then Moved(d, Some(Comment(StripSpace(line[1..]))))
    else if IsData(line) then Moved(d.(data := d.data + FieldValue(line) + [LF], hasDataField := true), None)
    else Moved(d, None)
  }

  function Advance(utf8: Utf8, d: Decoder): (p: Progress)
    ensures p.Moved? ==> |p.after.buf| < |d.buf| && p.after.error == d.error && p.after.maxLineBytes == d.maxLineBytes
    ensures p.Failed? ==> p.after.error.Some?
  {
    var t := TakeLine(d.buf, d.maxLineBytes);
    match t
    case NeedMore => Stuck
    case TooLong => Failed(d.(error := Some(LineTooLong(d.maxLineBytes))))
    case Line(length, consumed) => OnLine(utf8, d.(buf := d.buf[consumed..]), d.buf[..length])
  }

  /** `next_event`. */
  function Next(utf8: Utf8, d: Decoder): (r: (Decoder, Result<Option<SseEvent>, SseError>))
    ensures r.1.Ok? && r.1.value.Some? ==> |r.0.buf| < |d.buf|
    ensures r.1.Err? <==> r.0.error.Some?
    decreases |d.buf|
  {
    if d.error.Some? then (d, Err(d.error.value))
    else
      match Advance(utf8, d)
      case Stuck => (d, Ok(None))
      case Failed(d1) => (d1, Err(d1.error.value))
      case Moved(d1, event) => if event.Some? then (d1, Ok(event)) else Next(utf8, d1)
  }

  /** Pull until there is nothing more: the final state and the events in order. */
  function Drain(utf8: Utf8, d: Decoder): (Decoder, seq<SseEvent>)
    decreases |d.buf|
  {
    var (d1, r) := Next(utf8, d);
    if r.Ok? && r.value.Some? then
      var (d2, events) := Drain(utf8, d1);
      (d2, [r.value.value] + events)
    else (d1, [])
  }

  // ---- the object ----

  class SseDecoder {
    const utf8: Utf8
    const maxLineBytes: nat
    var buf: Bytes
    var data: Bytes
    var hasDataField: bool
    var error: Option<SseError>

    function Value(): Decoder
      reads this
    {
      Decoder(maxLineBytes, buf, data, hasDataField, error)
    }

    constructor WithMaxLineBytes(utf8: Utf8, max: nat)
      ensures this.utf8 == utf8 && Value() == NewDecoder(max)
    {
      this.utf8, maxLineBytes := utf8, max;
      buf, data, hasDataField, error := [], [], false, None;
    }

    method FeedBytes(chunk: Bytes)
      modifies this
      ensures Value() == Feed(old(Value()), chunk)
    {
      buf := buf + chunk;
    }

    method NextEvent() returns (r: Result<Option<SseEvent>, SseError>)
      modifies this
      ensures (Value(), r) == Next(utf8, old(Value()))
    {
      hide OnLine, TakeLine;
      if error.Some? { return Err(error.value); }
      while true
        invariant error.None?
        invariant Next(utf8, old(Value())) == Next(utf8, Value())
        decreases |buf|
      {
        ghost var before := Value();
        var taken := ReadLine();
        if taken.Err? { return Err(taken.error); }
        if taken.value.None? { return Ok(None); }
        var line := taken.value.value;
        assert Advance(utf8, before) == OnLine(utf8, Value(), line);
        r := HandleLine(line);
        if r.Err? || r.value.Some? { return; }
      }
    }

    /** The body of the `next_event` loop on one line. */
    method HandleLine(line: Bytes) returns (r: Result<Option<SseEvent>, SseError>)
      requires error.None?
      modifies this
      ensures buf == old(buf)
      ensures
        var p := OnLine(utf8, old(Value()), line);
        && (p.Failed? ==> Value() == p.after && r == Err(p.after.error.value))
        && (p.Moved? ==> Value() == p.after && r == Ok(p.event))
    {
      if line == [] {
        if !hasDataField { return Ok(None); }
        var whole := data;
        if whole != [] && whole[|whole| - 1] == LF { whole := whole[..|whole| - 1]; }
        data, hasDataField := [], false;
        return Ok(Some(Message(whole)));
      }
      if line[0] == COLON {
        if !utf8(line[1..]) { r := Fail(InvalidUtf8); return; }
        var text := line[1..];
        return Ok(Some(Comment(if text != [] && text[0] == SPACE then text[1..] else text)));
      }
      var colon := FindColon(line);
      var field, value := line[..colon], [];
      if colon < |line| {
        value := if colon + 1 < |line| && line[colon + 1] == SPACE then line[colon + 2..] else line[colon + 1..];
        assert value == FieldValue(line);
      }
      if !utf8(field) || !utf8(value) { r := Fail(InvalidUtf8); return; }
      if field == DATA {
        data := data + value + [LF];
        hasDataField := true;
      }
      return Ok(None);
    }

    method Fail(e: SseError) returns (r: Result<Option<SseEvent>, SseError>)
      modifies this
      ensures Value() == old(Value()).(error := Some(e)) && r == Err(e)
    {
      error := Some(e);
      return Err(e);
    }

    /** `take_line`. */
    method ReadLine() returns (r: Result<Option<Bytes>, SseError>)
      requires error.None?
      modifies this
      ensures
        var d := old(Value());
        var t := TakeLine(d.buf, d.maxLineBytes);
        match t
        case NeedMore => Value() == d && r == Ok(None)
        case TooLong => Value() == d.(error := Some(LineTooLong(maxLineBytes))) && r == Err(LineTooLong(maxLineBytes))
        case Line(length, consumed) => Value() == d.(buf := d.buf[consumed..]) && r == Ok(Some(d.buf[..length]))
    {
      var i := FindTerminator(buf);
      if i == |buf| || (buf[i] == CR && i + 1 == |buf|) {
        if |buf| > maxLineBytes {
          error := Some(LineTooLong(maxLineBytes));
          return Err(LineTooLong(maxLineBytes));
        }
        return Ok(None);
      }
      if i > maxLineBytes {
        error := Some(LineTooLong(maxLineBytes));
        return Err(LineTooLong(maxLineBytes));
      }
      var consumed := if buf[i] == CR && buf[i + 1] == LF then i + 2 else i + 1;
      var line := buf[..i];
      buf := buf[consumed..];
      return Ok(Some(line));
    }
  }

  method FindTerminator(s: Bytes) returns (i: nat)
    ensures i == LineEnd(s)
  {
    i := 0;
    while i < |s| && !Terminator(s[i])
      invariant i <= |s|
      invariant LineEnd(s) == i + LineEnd(s[i..])
    {
      assert s[i..][0] == s[i] && s[i..][1..] == s[i + 1..];
      i := i + 1;
    }
    if i < |s| { assert s[i..][0] == s[i]; }
  }

  method FindColon(s: Bytes) returns (i: nat)
    ensures i == ColonAt(s)
  {
    i := 0;
    while i < |s| && s[i] != COLON
      invariant i <= |s|
      invariant ColonAt(s) == i + ColonAt(s[i..])
    {
      assert s[i..][0] == s[i] && s[i..][1..] == s[i + 1..];
      i := i + 1;
    }
    if i < |s| { assert s[i..][0] == s[i]; }
  }
}
