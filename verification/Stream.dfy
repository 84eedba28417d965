/** Reading a streamed response: bytes through the event decoder, payloads into one assembled result. */
module Stream {
  import opened Options
  import opened Invocations
  import opened Transcript
  import opened Sse

  datatype ToolDelta = ToolDelta(index: nat, id: Option<string>, name: Option<string>, fragment: Option<string>)

  datatype Usage = Usage(prompt: Option<nat>, completion: Option<nat>, total: Option<nat>, cacheHit: Option<nat>,
                         cacheMiss: Option<nat>)

  datatype StreamChunk = StreamChunk(
    content: Option<string>, deltas: seq<ToolDelta>, finishReason: Option<string>, usage: Option<Usage>)

  datatype Payload = Piece(chunk: StreamChunk) | Done

  /** `decode_stream_payload`, seen from outside. */
  type Decode = Bytes -> Result<Payload, string>

  datatype CurlError = ReadFailed(message: string) | SseFailed(error: SseError) | PayloadFailed(message: string)

  datatype ToolSlot = ToolSlot(index: nat, id: string, name: string, args: string)

  datatype Assembly = Assembly(content: string, slots: seq<ToolSlot>, finishReason: Option<string>,
                               usage: Option<Usage>)

  const EMPTY_ASSEMBLY := Assembly("", [], None, None)

  datatype CallResult = CallResult(content: string, calls: seq<ToolCall>, finishReason: Option<string>,
                                   usage: Option<Usage>)

  // ---- assembly ----

  /** Position of the slot with this index, or the number of slots. */
  function SlotIndex(slots: seq<ToolSlot>, index: nat): (i: nat)
    ensures i <= |slots|
    ensures i < |slots| ==> slots[i].index == index
    ensures forall j :: 0 <= j < i ==> slots[j].index != index
  {
    if slots == [] || slots[0].index == index then 0 else 1 + SlotIndex(slots[1..], index)
  }

  function Fill(slot: ToolSlot, d: ToolDelta): ToolSlot {
    slot.(id := if d.id.Some? && slot.id == "" then d.id.value else slot.id,
          name := if d.name.Some? && slot.name == "" then d.name.value else slot.name,
          args := if d.fragment.Some? then slot.args + d.fragment.value else slot.args)
  }

  function AbsorbTool(slots: seq<ToolSlot>, d: ToolDelta): seq<ToolSlot> {
    var i := SlotIndex(slots, d.index);
    if i == |slots| then slots + [Fill(ToolSlot(d.index, "", "", ""), d)] else slots[i := Fill(slots[i], d)]
  }

  function AbsorbTools(slots: seq<ToolSlot>, ds: seq<ToolDelta>): seq<ToolSlot> {
    if ds == [] then slots else AbsorbTool(AbsorbTools(slots, ds[..|ds| - 1]), ds[|ds| - 1])
  }

  function Later<T>(earlier: Option<T>, next: Option<T>): Option<T> { if next.Some? then next else earlier }

  function AbsorbChunk(a: Assembly, c: StreamChunk): Assembly {
    Assembly(if c.content.Some? then a.content + c.content.value else a.content,
             AbsorbTools(a.slots, c.deltas), Later(a.finishReason, c.finishReason), Later(a.usage, c.usage))
  }

  function CallsOfSlots(slots: seq<ToolSlot>): (calls: seq<ToolCall>)
    ensures |calls| == |slots|
    ensures forall i :: 0 <= i < |slots| ==> calls[i] == ToolCall(slots[i].id, slots[i].name, slots[i].args)
  {
    seq(|slots|, i requires 0 <= i < |slots| => ToolCall(slots[i].id, slots[i].name, slots[i].args))
  }

  function Finish(a: Assembly): CallResult { CallResult(a.content, CallsOfSlots(a.slots), a.finishReason, a.usage) }

  // ---- the read loop ----

  type Outcome = Result<CallResult, CurlError>

  /** Where the loop stands: still reading, or finished early. */
  datatype Flow = Going(d: Decoder, a: Assembly) | Stopped(outcome: Outcome)

  datatype Absorbed = More(a: Assembly) | Stop(outcome: Outcome)

  function OnEvent(decode: Decode, a: Assembly, e: SseEvent): Absorbed {
    if e.Comment? then More(a)
    else
      match decode(e.data)
      case Err(m) => Stop(Err(PayloadFailed(m)))
      case Ok(Done) => Stop(Ok(Finish(a)))
      case Ok(Piece(c)) => More(AbsorbChunk(a, c))
  }

  /** Pull and absorb until the decoder has nothing more. */
  function Pump(utf8: Utf8, decode: Decode, d: Decoder, a: Assembly): Flow
    decreases |d.buf|
  {
    var (d1, r) := Next(utf8, d);
    if r.Err? then Stopped(Err(SseFailed(r.error)))
    else if r.value.None? then Going(d1, a)
    else
      match OnEvent(decode, a, r.value.value)
      case Stop(outcome) => Stopped(outcome)
      case More(a1) => Pump(utf8, decode, d1, a1)
  }

  /** How the input ends: cleanly, or with a read error. */
  function Ending(a: Assembly, fault: Option<string>): Outcome {
    if fault.Some? then Err(ReadFailed(fault.value)) else Ok(Finish(a))
  }

  /** `decode_sse_stream` on what the reader delivers; an empty input is the end of input. */
  function ReadAll(utf8: Utf8, decode: Decode, d: Decoder, a: Assembly, inputs: seq<Bytes>,
                   fault: Option<string>): Outcome
    decreases |inputs|
  {
    if inputs == [] then Ending(a, fault)
    else if inputs[0] == [] then Ok(Finish(a))
    else
      match Pump(utf8, decode, Feed(d, inputs[0]), a)
      case Stopped(outcome) => outcome
      case Going(d1, a1) => ReadAll(utf8, decode, d1, a1, inputs[1..], fault)
  }

  // ---- the objects ----

  class AssemblyBuilder {
    var content: string
    var toolSlots: seq<ToolSlot>
    var finishReason: Option<string>
    var usage: Option<Usage>

    function Value(): Assembly
      reads this
    {
      Assembly(content, toolSlots, finishReason, usage)
    }

    constructor ()
      ensures Value() == EMPTY_ASSEMBLY
    {
      content, toolSlots, finishReason, usage := "", [], None, None;
    }

    method Absorb(c: StreamChunk)
      modifies this
      ensures Value() == AbsorbChunk(old(Value()), c)
    {
      if c.content.Some? { content := content + c.content.value; }
      ghost var before, text := toolSlots, content;
      for i := 0 to |c.deltas|
        invariant Value() == old(Value()).(content := text, slots := toolSlots)
        invariant toolSlots == AbsorbTools(before, c.deltas[..i])
      {
        assert c.deltas[..i + 1][..i] == c.deltas[..i];
        AbsorbToolCall(c.deltas[i]);
      }
      assert c.deltas[..|c.deltas|] == c.deltas;
      if c.finishReason.Some? { finishReason := c.finishReason; }
      if c.usage.Some? { usage := c.usage; }
    }

    method AbsorbToolCall(d: ToolDelta)
      modifies this
      ensures Value() == old(Value()).(slots := AbsorbTool(old(toolSlots), d))
    {
      var i := 0;
      while i < |toolSlots| && toolSlots[i].index != d.index
        invariant i <= |toolSlots| && toolSlots == old(toolSlots)
        invariant SlotIndex(toolSlots, d.index) == i + SlotIndex(toolSlots[i..], d.index)
        invariant Value() == old(Value())
      {
        assert toolSlots[i..][0] == toolSlots[i] && toolSlots[i..][1..] == toolSlots[i + 1..];
        i := i + 1;
      }
      if i == |toolSlots| { toolSlots := toolSlots + [ToolSlot(d.index, "", "", "")]; }
      var slot := toolSlots[i];
      if d.id.Some? && slot.id == "" { slot := slot.(id := d.id.value); }
      if d.name.Some? && slot.name == "" { slot := slot.(name := d.name.value); }
      if d.fragment.Some? { slot := slot.(args := slot.args + d.fragment.value); }
      toolSlots := toolSlots[i := slot];
    }

    method Result() returns (r: CallResult)
      ensures r == Finish(Value())
    {
      var calls: seq<ToolCall> := [];
      for i := 0 to |toolSlots|
        invariant calls == CallsOfSlots(toolSlots)[..i]
      {
        calls := calls + [ToolCall(toolSlots[i].id, toolSlots[i].name, toolSlots[i].args)];
      }
      return CallResult(content, calls, finishReason, usage);
    }
  }

  /** `decode_sse_stream`. */
  method DecodeSseStream(utf8: Utf8, decode: Decode, inputs: seq<Bytes>, fault: Option<string>)
      returns (outcome: Outcome)
    ensures outcome == ReadAll(utf8, decode, NewDecoder(DEFAULT_MAX_LINE_BYTES), EMPTY_ASSEMBLY, inputs, fault)
  {
    var decoder := new SseDecoder.WithMaxLineBytes(utf8, DEFAULT_MAX_LINE_BYTES);
    var assembly := new AssemblyBuilder();
    for i := 0 to |inputs|
      invariant fresh(decoder) && fresh(assembly) && decoder.utf8 == utf8
      invariant ReadAll(utf8, decode, NewDecoder(DEFAULT_MAX_LINE_BYTES), EMPTY_ASSEMBLY, inputs, fault) ==
                ReadAll(utf8, decode, decoder.Value(), assembly.Value(), inputs[i..], fault)
    {
      assert inputs[i..][0] == inputs[i] && inputs[i..][1..] == inputs[i + 1..];
      if inputs[i] == [] {
        var whole := assembly.Result();
        return Ok(whole);
      }
      ghost var before := Pump(utf8, decode, Feed(decoder.Value(), inputs[i]), assembly.Value());
      decoder.FeedBytes(inputs[i]);
      var stopped := PumpAll(decode, decoder, assembly);
      if stopped.Some? { return stopped.value; }
    }
    if fault.Some? { return Err(ReadFailed(fault.value)); }
    var whole := assembly.Result();
    return Ok(whole);
  }

  /** The inner loop: pull events and absorb them; an outcome when the stream is over early. */
  method PumpAll(decode: Decode, decoder: SseDecoder, assembly: AssemblyBuilder) returns (stopped: Option<Outcome>)
    modifies decoder, assembly
    ensures
      var flow := Pump(decoder.utf8, decode, old(decoder.Value()), old(assembly.Value()));
      if stopped.Some? then flow == Stopped(stopped.value) else flow == Going(decoder.Value(), assembly.Value())
  {
    while true
      invariant Pump(decoder.utf8, decode, old(decoder.Value()), old(assembly.Value())) ==
                Pump(decoder.utf8, decode, decoder.Value(), assembly.Value())
      decreases |decoder.buf|
    {
      ghost var d, a := decoder.Value(), assembly.Value();
      var r := decoder.NextEvent();
      if r.Err? { return Some(Err(SseFailed(r.error))); }
      if r.value.None? { return None; }
      if r.value.value.Message? {
        var payload := decode(r.value.value.data);
        if payload.Err? { return Some(Err(PayloadFailed(payload.error))); }
        if payload.value.Done? {
          var whole := assembly.Result();
          return Some(Ok(whole));
        }
        assembly.Absorb(payload.value.chunk);
      }
    }
  }
}
