/** The outcome of a streamed response, from the lines the server wrote to the result or error: without the
    decoder, without the assembly, and however the bytes arrive. */
module StreamOutcomes {
  import opened Options
  import opened Invocations
  import opened Transcript
  import opened Sse
  import opened SseRefinement
  import opened SseWire
  import opened Stream
  import opened StreamLaws

  /** The events before the first that ends the stream are chunks and comments. */
  predicate EndsAt(decode: Decode, es: seq<SseEvent>, n: nat) {
    && n <= |es| && AllHarmless(decode, es[..n])
    && (n < |es| ==> es[n].Message? && (decode(es[n].data).Err? || decode(es[n].data) == Ok(Done)))
  }

  /** There always is such a place. */
  lemma {:induction false} EndExists(decode: Decode, es: seq<SseEvent>) returns (n: nat)
    ensures EndsAt(decode, es, n)
  {
    if es == [] {
      n := 0;
    } else {
      var before := es[..|es| - 1];
      n := EndExists(decode, before);
      assert es[..n] == before[..n];
      if n == |before| && Harmless(decode, es[n]) {
        assert es[..n + 1] == es && forall i :: 0 <= i < |before| ==> es[i] == before[..n][i];
        n := n + 1;
      }
    }
  }

  /** What chunks add up to. */
  function Assembled(cs: seq<StreamChunk>): CallResult {
    var slots := SlotsSpec(AllDeltas(cs));
    CallResult(Joined(Contents(cs)),
               seq(|slots|, i requires 0 <= i < |slots| => ToolCall(slots[i].id, slots[i].name, slots[i].args)),
               Last(Reasons(cs)), Last(Usages(cs)))
  }

  /** The outcome of events: a bad payload is an error with its message; an end marker gives what came before it; a
      decoding error and then a read error are reported; and an input that ends without a marker gives all of it. */
  function OutcomeOf(decode: Decode, es: seq<SseEvent>, n: nat, error: Option<SseError>, fault: Option<string>): Outcome
    requires EndsAt(decode, es, n)
  {
    if n < |es| && decode(es[n].data).Err? then Err(PayloadFailed(decode(es[n].data).error))
    else if n == |es| && error.Some? then Err(SseFailed(error.value))
    else if n == |es| && fault.Some? then Err(ReadFailed(fault.value))
    else Ok(Assembled(PiecesOf(decode, es[..n])))
  }

  lemma FinishAssembled(cs: seq<StreamChunk>)
    ensures Finish(AbsorbAll(cs)) == Assembled(cs)
  {
    ChunksAssemble(cs);
    hide Joined, SlotsSpec, AllDeltas, Last, AbsorbAll;
    assert Finish(AbsorbAll(cs)).calls == Assembled(cs).calls;
  }

  lemma ResultIsOutcome(decode: Decode, es: seq<SseEvent>, n: nat, error: Option<SseError>, fault: Option<string>)
    requires EndsAt(decode, es, n)
    ensures StreamLaws.Result(decode, EMPTY_ASSEMBLY, es, error, fault) == OutcomeOf(decode, es, n, error, fault)
  {
    hide Assembled, Finish, AbsorbAll, AbsorbChunk, PiecesOf, Consume, AllHarmless;
    var cs := PiecesOf(decode, es[..n]);
    ConsumePieces(decode, es[..n]);
    FinishAssembled(cs);
    if n < |es| {
      assert es == es[..n] + ([es[n]] + es[n + 1..]);
      ConsumeAppend(decode, EMPTY_ASSEMBLY, es[..n], [es[n]] + es[n + 1..]);
      ConsumeCons(decode, AbsorbAll(cs), es[n], es[n + 1..]);
    } else {
      assert es[..n] == es;
    }
  }

  /** From lines to outcome: print well-formed lines, deliver the bytes in any reads. If a read ends at the edge too
      early the outcome is the length error; else it is that of what the lines before the first bad one say. */
  lemma PrintedStreamRead(utf8: Utf8, decode: Decode, max: nat, ws: seq<Wire>, ends: seq<bool>, good: nat, n: nat,
                          inputs: seq<Bytes>, fault: Option<string>)
    requires |ends| == |ws| && good <= |ws| && forall w :: w in ws ==> WellFormed(w)
    requires (forall i :: 0 <= i < good ==> Good(utf8, max, ws[i])) && (good < |ws| ==> !Good(utf8, max, ws[good]))
    requires Delivered(inputs) && Concat(inputs) == PrintAll(ws, ends)
    requires EndsAt(decode, Said(ws[..good], []), n)
    ensures
      var error :=
        if good == |ws| then None
        else if |Print(ws[good])| > max then Some(LineTooLong(max))
        else Some(InvalidUtf8);
      ReadAll(utf8, decode, NewDecoder(max), EMPTY_ASSEMBLY, inputs, fault) ==
        if Trips(utf8, decode, max, inputs) then Err(SseFailed(LineTooLong(max)))
        else OutcomeOf(decode, Said(ws[..good], []), n, error, fault)
  {
    hide ReadAll, Trips, StreamLaws.Result, Drain, Meaning, Said, Good, WellFormed, Print, OutcomeOf, EndsAt, Concat;
    ReadingIsMeaning(utf8, decode, max, inputs, fault);
    DecodesWhatWasPrinted(utf8, max, ws, ends, good);
    DecoderRefinesMeaning(utf8, max, PrintAll(ws, ends));
    ResultIsOutcome(decode, Said(ws[..good], []), n, Meaning(utf8, max, PrintAll(ws, ends)).1, fault);
  }

  /** An empty read is the end of the input: nothing after it is read, and no read error either. */
  lemma {:induction false} EmptyReadEnds(utf8: Utf8, decode: Decode, d: Decoder, a: Assembly, one: seq<Bytes>,
                                         more: seq<Bytes>, fault: Option<string>)
    requires Delivered(one)
    ensures ReadAll(utf8, decode, d, a, one + [[]] + more, fault) == ReadAll(utf8, decode, d, a, one, None)
    decreases |one|
  {
    hide Pump;
    if one == [] {
      assert (one + [[]] + more)[0] == [];
    } else {
      var all := one + [[]] + more;
      assert all[0] == one[0] && all[1..] == one[1..] + [[]] + more;
      var flow := Pump(utf8, decode, Feed(d, one[0]), a);
      if flow.Going? { EmptyReadEnds(utf8, decode, flow.d, flow.a, one[1..], more, fault); }
    }
  }
}
