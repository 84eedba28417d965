/** Physical pruning of conversation.jsonl: where the file is cut, and what a reload then returns. */
module Prune {
  import opened Options
  import opened Transcript
  import opened SessionLog
  import opened Compaction

  /** The members of a rendered line that the prune scan looks at. */
  datatype Line = Line(kind: string, text: Option<string>, calls: seq<ToolCall>, bytes: nat)

  /** The characters with the Unicode property White_Space, which `trim` strips. */
  predicate IsSpace(c: char) {
    var n := c as int;
    || 0x9 <= n <= 0xD || n == 0x20 || n == 0x85 || n == 0xA0 || n == 0x1680 || 0x2000 <= n <= 0x200A
    || n == 0x2028 || n == 0x2029 || n == 0x202F || n == 0x205F || n == 0x3000
  }

  predicate Blank(s: string) { forall i :: 0 <= i < |s| ==> IsSpace(s[i]) }

  /** `line_is_safe_boundary`. */
  predicate LineIsSafeBoundary(line: Line) {
    line.kind == "user" ||
    (line.kind == "assistant" && ((line.text.Some? && !Blank(line.text.value)) || line.calls == []))
  }

  /** The line `Session::append` writes for a record: an assistant's prose goes under `content`, so
      its line has no `text` member. */
  function Render(rec: Record, bytes: nat): Line {
    match rec
    case Message(User(text)) => Line("user", Some(text), [], bytes)
    case Message(Assistant(_, calls)) => Line("assistant", None, calls, bytes)
    case Message(Tool(_, _)) => Line("tool", None, [], bytes)
    case Summary(_, text) => Line("summary", Some(text), [], bytes)
    case InvocationStart => Line("invocation_start", None, [], bytes)
    case ToolApproval(_, _, _) => Line("tool_approval", None, [], bytes)
    case TokenUsage(_) => Line("token_usage", None, [], bytes)
    case InvocationEnd(_) => Line("invocation_end", None, [], bytes)
    case _ => Line("other", None, [], bytes)
  }

  /** On the lines attini writes, the prune scan and the compaction walk agree on what is safe: the
      clause for assistant lines with non-blank `text` never fires. */
  lemma RenderedBoundary(rec: Record, bytes: nat)
    ensures LineIsSafeBoundary(Render(rec, bytes)) <==> rec.Message? && IsSafeBoundary(rec.msg)
  {
  }

  function Offset(lines: seq<Line>, i: nat): nat
    requires i <= |lines|
  {
    if i == 0 then 0 else Offset(lines, i - 1) + lines[i - 1].bytes
  }

  predicate CutHere(lines: seq<Line>, i: nat, midpoint: nat)
    requires i < |lines|
  {
    Offset(lines, i) >= midpoint && LineIsSafeBoundary(lines[i])
  }

  /** Index of the first line to keep, or |lines| when there is no cut. */
  function FirstCut(lines: seq<Line>, i: nat, midpoint: nat): (r: nat)
    requires i <= |lines|
    ensures i <= r <= |lines|
    ensures r < |lines| ==> CutHere(lines, r, midpoint)
    ensures forall j :: i <= j < r ==> !CutHere(lines, j, midpoint)
    decreases |lines| - i
  {
    if i == |lines| || CutHere(lines, i, midpoint) then i else FirstCut(lines, i + 1, midpoint)
  }

  /** `prune_offset_past_midpoint`: the least safe line start at or past the midpoint, and how many
      records precede it. */
  method PruneOffsetPastMidpoint(lines: seq<Line>, size: nat) returns (cut: Option<(nat, nat)>)
    ensures
      var i := FirstCut(lines, 0, size / 2);
      cut == if i < |lines| then Some((Offset(lines, i), i)) else None
  {
    var midpoint := size / 2;
    var offset := 0;
    for index := 0 to |lines|
      invariant offset == Offset(lines, index)
      invariant FirstCut(lines, 0, midpoint) == FirstCut(lines, index, midpoint)
    {
      var start := offset;
      offset := offset + lines[index].bytes;
      if start >= midpoint && LineIsSafeBoundary(lines[index]) { return Some((start, index)); }
    }
    return None;
  }

  // ---- reload after a prune ----

  /** The clock never runs backwards, a summary covers only earlier times, and later summaries cover
      at least as much. */
  predicate Chronological(log: seq<Stamped>) {
    && ClockForward(log)
    && (forall i :: 0 <= i < |log| && log[i].rec.Summary? ==> log[i].rec.cutoff < log[i].ts)
    && (forall i, j :: 0 <= i < j < |log| && log[i].rec.Summary? && log[j].rec.Summary? ==>
          log[i].rec.cutoff <= log[j].rec.cutoff)
  }

  lemma {:induction false} CutoffIs(log: seq<Stamped>) returns (k: int)
    ensures Cutoff(log).None? ==> k == -1 && forall i :: 0 <= i < |log| ==> !log[i].rec.Summary?
    ensures Cutoff(log).Some? ==> 0 <= k < |log| && CutoffOf(log[k].rec) == Cutoff(log)
    ensures forall i :: 0 <= i < |log| && log[i].rec.Summary? ==>
        Cutoff(log).Some? && log[i].rec.cutoff <= Cutoff(log).value
  {
    k := -1;
    if log != [] {
      var n := |log| - 1;
      k := CutoffIs(log[..n]);
      if log[n].rec.Summary? && Cutoff(log) == CutoffOf(log[n].rec) { k := n; }
    }
  }

  /** What a prune before line `j` removes from the loaded records. */
  function Dropped(log: seq<Stamped>, j: nat): seq<TimedMsg>
    requires j <= |log|
  {
    Retain(Records(log[..j]), Cutoff(log))
  }

  /** The newest cutoff survives the cut, unless every summary lies before it. */
  lemma SuffixCutoff(log: seq<Stamped>, j: nat)
    requires Chronological(log) && j <= |log|
    ensures Cutoff(log[j..]) == Cutoff(log) ||
            (Cutoff(log[j..]).None? && exists k :: 0 <= k < j && CutoffOf(log[k].rec) == Cutoff(log))
  {
    var suffix := log[j..];
    var k := CutoffIs(log);
    var k' := CutoffIs(suffix);
    if Cutoff(suffix).Some? {
      assert log[j + k'] == suffix[k'];
    }
    if k >= j { assert suffix[k - j] == log[k]; }
  }

  lemma SuffixPast(log: seq<Stamped>, j: nat, n: nat)
    requires Chronological(log) && j <= n < |log| && log[n].rec.Message?
    ensures
      var r := TimedMsg(log[n].ts, log[n].rec.msg);
      Past(r, Cutoff(log[j..])) == Past(r, Cutoff(log))
  {
    SuffixCutoff(log, j);
    if Cutoff(log[j..]) != Cutoff(log) {
      var k :| 0 <= k < j && CutoffOf(log[k].rec) == Cutoff(log);
      assert log[k].ts <= log[n].ts;
    }
  }

  lemma {:induction false} RetainSame(rs: seq<TimedMsg>, a: Option<nat>, b: Option<nat>)
    requires forall r :: r in rs ==> Past(r, a) == Past(r, b)
    ensures Retain(rs, a) == Retain(rs, b)
  {
    if rs != [] { assert rs[0] in rs; RetainSame(rs[1..], a, b); }
  }

  /** A reload after a prune is a suffix of the reload before it, and when anything is lost that
      suffix starts at the boundary the cut was made at; even when the newest summary is cut away. */
  lemma ReloadAfterPrune(log: seq<Stamped>, j: nat)
    requires Chronological(log) && j < |log| && log[j].rec.Message?
    ensures Load(log) == Dropped(log, j) + Load(log[j..])
    ensures Dropped(log, j) != [] ==> Load(log[j..]) != [] && Load(log[j..])[0] == TimedMsg(log[j].ts, log[j].rec.msg)
  {
    var suffix := log[j..];
    assert log == log[..j] + suffix;
    RecordsAppend(log[..j], suffix);
    RetainAppend(Records(log[..j]), Records(suffix), Cutoff(log));
    SuffixRetained(log, j);
    hide Chronological, Retain;
    if Dropped(log, j) != [] { FirstKept(log, j); }
  }

  lemma SuffixRetained(log: seq<Stamped>, j: nat)
    requires Chronological(log) && j <= |log|
    ensures Retain(Records(log[j..]), Cutoff(log[j..])) == Retain(Records(log[j..]), Cutoff(log))
  {
    var suffix := log[j..];
    RecordsMembers(suffix);
    forall r | r in Records(suffix) ensures Past(r, Cutoff(suffix)) == Past(r, Cutoff(log)) {
      var n :| 0 <= n < |suffix| && suffix[n] == Stamped(r.ts, Message(r.msg));
      SuffixPast(log, j, j + n);
    }
    RetainSame(Records(suffix), Cutoff(suffix), Cutoff(log));
  }

  lemma FirstKept(log: seq<Stamped>, j: nat)
    requires Chronological(log) && j < |log| && log[j].rec.Message? && Dropped(log, j) != []
    ensures Load(log[j..]) != [] && Load(log[j..])[0] == TimedMsg(log[j].ts, log[j].rec.msg)
  {
    var lost := Dropped(log, j)[0];
    assert lost in Dropped(log, j);
    RetainMembers(Records(log[..j]), Cutoff(log));
    RecordsMembers(log[..j]);
    var i :| 0 <= i < j && log[..j][i] == Stamped(lost.ts, Message(lost.msg));
    assert log[i].ts <= log[j].ts;
    assert log[j..][0] == log[j];
    SuffixPast(log, j, j);
    assert Records(log[j..])[0] == TimedMsg(log[j].ts, log[j].rec.msg);
  }

  // ---- what a prune may lose ----

  lemma {:induction false} SuffixSummary(log: seq<Stamped>, j: nat)
    requires j <= |log|
    ensures LatestSummary(log[j..]) ==
      if exists i :: j <= i < |log| && log[i].rec.Summary? then LatestSummary(log) else None
    ensures LatestSummary(log).None? <==> forall i :: 0 <= i < |log| ==> !log[i].rec.Summary?
  {
    if log != [] {
      var n := |log| - 1;
      if j <= n {
        assert log[j..][..|log[j..]| - 1] == log[..n][j..] && log[j..][|log[j..]| - 1] == log[n];
        SuffixSummary(log[..n], j);
        assert forall i :: 0 <= i < n ==> log[..n][i] == log[i];
      } else {
        SuffixSummary(log[..n], n);
        assert log[j..] == [];
        assert forall i :: 0 <= i < n ==> log[..n][i] == log[i];
      }
    }
  }

  /** A prune before record `j` keeps the newest summary if and only if there was none, or one stands at or
      after the cut; and it keeps the loaded records if and only if none of them lay before the cut. */
  lemma PruneKeepsIff(log: seq<Stamped>, j: nat)
    requires Chronological(log) && j < |log| && log[j].rec.Message?
    ensures LatestSummary(log[j..]) == LatestSummary(log) <==>
      (forall i :: 0 <= i < |log| ==> !log[i].rec.Summary?) || exists i :: j <= i < |log| && log[i].rec.Summary?
    ensures Load(log[j..]) == Load(log) <==> Dropped(log, j) == []
  {
    SuffixSummary(log, j);
    ReloadAfterPrune(log, j);
    assert [] + Load(log[j..]) == Load(log[j..]);
  }
}
