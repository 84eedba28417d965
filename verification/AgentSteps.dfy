/** The five events of a tool phase have one shape: they look for an entry, replace it, and either emit
    one action or see whether the turn is answered. */
module AgentSteps {
  import opened Options
  import opened Transcript
  import opened Invocations
  import opened Agent
  import opened AgentInvariant

  datatype Edit = NoEdit | Edit(at: nat, entry: Entry, action: Option<Action>)

  predicate ToolEvent(e: Event) {
    e.ToolResult? || e.PatchPreviewReady? || e.ApproveToolCall? || e.RejectToolCall? || e.CommandOutputChunk?
  }

  function WantOf(e: Event): Want
    requires ToolEvent(e)
  {
    if e.ToolResult? then Unresolved else if e.PatchPreviewReady? then Previewable
    else if e.CommandOutputChunk? then RunningCommand else Undecided
  }

  /** What the event makes of the entry it found, and the action that goes with it. */
  function EntryAfter(k: Codec, request: nat, r: Entry, e: Event): (Entry, Option<Action>)
    requires ToolEvent(e)
  {
    match e
    case ToolResult(_, _, outcome) => (r.(outcome := Some(outcome)), None)
    case PatchPreviewReady(_, _, content, preview) =>
      (r.(patchPreview := Some(preview), previewContent := content, approval := Pending), None)
    case CommandOutputChunk(_, _, stream, bytes) => (r.(tail := Some(Extended(k, r.tail, stream, bytes))), None)
    case RejectToolCall(_) => (r.(approval := Rejected, outcome := Some(RejectionOf(r.name))), None)
    case _ =>
      var a := Approving(k, request, r.(approval := Approved));
      if a.Ok? then (r.(approval := Approved), Some(a.value))
      else (r.(approval := Approved, outcome := Some(Err(a.error))), None)
  }

  function EditOf(k: Codec, c: Core, e: Event): (d: Edit)
    requires ToolEvent(e)
    ensures d.Edit? ==> c.pending.Some? && c.pending.value.phase != Streaming && d.at < |c.pending.value.results|
  {
    if c.pending.None? || c.pending.value.phase == Streaming then NoEdit
    else if !e.ApproveToolCall? && !e.RejectToolCall? && e.request != c.pending.value.id then NoEdit
    else
      var p := c.pending.value;
      var i := Find(WantOf(e), e.callId, p.results);
      if i == |p.results| then NoEdit
      else
        var (r, action) := EntryAfter(k, p.id, p.results[i], e);
        Edit(i, r, action)
  }

  function Edited(k: Codec, c: Core, d: Edit): (Core, seq<Action>)
    requires d.Edit? && c.pending.Some? && c.pending.value.phase != Streaming && d.at < |c.pending.value.results|
  {
    var c1 := Refreshed(c, c.pending.value.results[d.at := d.entry]);
    if d.action.Some? then (c1, [d.action.value, Redraw]) else MaybeAdvance(k, c1)
  }

  /** The step of a tool event, up to counters. */
  ghost predicate StepsAs(k: Codec, c: Core, e: Event, d: Edit)
    requires d.Edit? ==> c.pending.Some? && c.pending.value.phase != Streaming && d.at < |c.pending.value.results|
  {
    var s := Step(k, c, e);
    if d.NoEdit? then s == (c.(metrics := s.0.metrics), [])
    else s == (Edited(k, c, d).0.(metrics := s.0.metrics), Edited(k, c, d).1)
  }

  lemma EntryPending(k: Codec, c: Core, rs: seq<Entry>, i: nat)
    requires c.pending.Some? && c.pending.value.phase != Streaming
    requires i < |rs| && rs[i].outcome.None?
    ensures MaybeAdvance(k, Refreshed(c, rs)) == (Refreshed(c, rs), [Redraw])
  {
  }

  lemma MetricsApart(k: Codec, c: Core, d: Edit, n: multiset<Counter>)
    requires d.Edit? && c.pending.Some? && c.pending.value.phase != Streaming && d.at < |c.pending.value.results|
    ensures Edited(k, c.(metrics := n), d) == (Edited(k, c, d).0.(metrics := n), Edited(k, c, d).1)
  {
  }

  lemma ResultStep(k: Codec, c: Core, e: Event)
    requires e.ToolResult?
    ensures StepsAs(k, c, e, EditOf(k, c, e))
  {
  }

  lemma PreviewStep(k: Codec, c: Core, e: Event)
    requires e.PatchPreviewReady?
    ensures StepsAs(k, c, e, EditOf(k, c, e))
  {
    var d := EditOf(k, c, e);
    if d.Edit? {
      EntryPending(k, c, c.pending.value.results[d.at := d.entry], d.at);
    }
  }

  lemma ChunkStep(k: Codec, c: Core, e: Event)
    requires Valid(c) && e.CommandOutputChunk?
    ensures StepsAs(k, c, e, EditOf(k, c, e))
  {
    var d := EditOf(k, c, e);
    if d.Edit? {
      var rs := c.pending.value.results;
      EntryPending(k, c, rs[d.at := d.entry], d.at);
      SameDecisions(rs, rs[d.at := d.entry]);
    }
  }

  lemma RejectStep(k: Codec, c: Core, e: Event)
    requires Valid(c) && e.RejectToolCall?
    ensures StepsAs(k, c, e, EditOf(k, c, e))
  {
    var d := EditOf(k, c, e);
    if d.Edit? { MetricsApart(k, c, d, c.metrics + multiset{ToolCallRejectionsCommitted}); }
  }

  lemma ApproveStep(k: Codec, c: Core, e: Event)
    requires Valid(c) && e.ApproveToolCall?
    ensures StepsAs(k, c, e, EditOf(k, c, e))
  {
    var d := EditOf(k, c, e);
    if d.Edit? && d.action.None? {
      MetricsApart(k, c, d, (c.metrics + multiset{ToolCallApprovalsCommitted}));
    }
  }

  lemma ToolStep(k: Codec, c: Core, e: Event)
    requires Valid(c) && ToolEvent(e)
    ensures StepsAs(k, c, e, EditOf(k, c, e))
  {
    hide Step, StepsAs, EditOf, Valid;
    if e.ToolResult? { ResultStep(k, c, e); }
    else if e.PatchPreviewReady? { PreviewStep(k, c, e); }
    else if e.CommandOutputChunk? { ChunkStep(k, c, e); }
    else if e.ApproveToolCall? { ApproveStep(k, c, e); }
    else { RejectStep(k, c, e); }
  }

  // ---- the output of a running command ----

  datatype Output = Output(stream: Stream, bytes: Bytes)

  /** The tail after some output, chunk by chunk. */
  function TailAfter(k: Codec, out: seq<Output>): Option<OutputTail> {
    if out == [] then None
    else Some(Extended(k, TailAfter(k, out[..|out| - 1]), out[|out| - 1].stream, out[|out| - 1].bytes))
  }

  /** All the text of one pipe, and its size. */
  function Text(k: Codec, out: seq<Output>, s: Stream): string {
    if out == [] then ""
    else Text(k, out[..|out| - 1], s) + if out[|out| - 1].stream == s then k.lossy(out[|out| - 1].bytes) else ""
  }

  function Size(out: seq<Output>, s: Stream): nat {
    if out == [] then 0
    else Size(out[..|out| - 1], s) + if out[|out| - 1].stream == s then |out[|out| - 1].bytes| else 0
  }

  lemma BoundedAppend(a: string, b: string, max: nat)
    ensures Bounded(Bounded(a, max) + b, max) == Bounded(a + b, max)
  {
    if |a| > max {
      assert Bounded(a, max) + b == (a + b)[|a| - max..];
    }
  }

  /** The last 4096 characters, or all. */
  predicate IsEnd(s: string, whole: string) {
    |s| <= |whole| && s == whole[|whole| - |s|..] && |s| == if |whole| < 4096 then |whole| else 4096
  }

  /** Trimming chunk by chunk keeps exactly the end of the whole output of each pipe, and the byte totals
      count everything. */
  lemma {:induction false} TailIsTheEnd(k: Codec, out: seq<Output>)
    requires out != []
    ensures
      var t := TailAfter(k, out);
      && t.Some? && IsEnd(t.value.stdout, Text(k, out, Stdout)) && IsEnd(t.value.stderr, Text(k, out, Stderr))
      && t.value.stdoutBytes == Size(out, Stdout) && t.value.stderrBytes == Size(out, Stderr)
  {
    TailIsBounded(k, out);
  }

  lemma {:induction false} TailIsBounded(k: Codec, out: seq<Output>)
    requires out != []
    ensures TailAfter(k, out) == Some(OutputTail(
      Bounded(Text(k, out, Stdout), COMMAND_TAIL_CHARS), Bounded(Text(k, out, Stderr), COMMAND_TAIL_CHARS),
      Size(out, Stdout), Size(out, Stderr)))
  {
    var before, last := out[..|out| - 1], out[|out| - 1];
    if before != [] { TailIsBounded(k, before); }
    BoundedAppend(Text(k, before, last.stream), k.lossy(last.bytes), COMMAND_TAIL_CHARS);
    NoMore(Text(k, before, Stdout));
    NoMore(Text(k, before, Stderr));
  }

  lemma NoMore(s: string)
    ensures s + "" == s
  {
  }
}
