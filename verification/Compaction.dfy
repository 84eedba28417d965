/** Where the history is cut: the compaction cutoff, the physical prune, and what a reload returns
    after either. */
module Compaction {
  import opened Options
  import opened Transcript
  import opened SessionLog

  predicate IsSafeBoundary(m: Msg) {
    m.User? || (m.Assistant? && m.calls == [])
  }

  function CallLen(calls: seq<ToolCall>): nat {
    if calls == [] then 0 else Utf8Len(calls[0].name) + Utf8Len(calls[0].args) + CallLen(calls[1..])
  }

  /** `message_raw_char_len`: bytes, whatever its name says. */
  function RawLen(m: Msg): nat {
    match m
    case System(s) => Utf8Len(s)
    case User(s) => Utf8Len(s)
    case Assistant(content, calls) => Utf8Len(content) + CallLen(calls)
    case Tool(_, content) => Utf8Len(content)
  }

  function TotalLen(ms: seq<Msg>): nat {
    if ms == [] then 0 else RawLen(ms[0]) + TotalLen(ms[1..])
  }

  // ---- the cutoff ----

  /** The least safe boundary at or after `i`, or the end. */
  function SafeFrom(ms: seq<Msg>, i: nat): nat
    requires i <= |ms|
    ensures i <= SafeFrom(ms, i) <= |ms|
    decreases |ms| - i
  {
    if i == |ms| || IsSafeBoundary(ms[i]) then i else SafeFrom(ms, i + 1)
  }

  function SafeTailStart(ms: seq<Msg>, keep: nat): (start: nat)
    ensures start <= |ms|
  {
    if |ms| <= keep then 0
    else
      var i := SafeFrom(ms, |ms| - keep);
      if i < |ms| then i else 0
  }

  function Walk(ms: seq<Msg>, k: nat, budget: nat): (r: nat)
    requires k <= |ms|
    ensures k <= r <= |ms|
    decreases |ms| - k
  {
    if k == |ms| || TotalLen(ms[k..]) <= budget then k else Walk(ms, SafeFrom(ms, k + 1), budget)
  }

  function CompactionCutoff(ms: seq<Msg>, keep: nat, budget: nat): (r: Option<nat>)
    ensures r.Some? ==> 0 < r.value <= |ms|
  {
    var k := Walk(ms, SafeTailStart(ms, keep), budget);
    if k == 0 then None else Some(k)
  }

  method ComputeSafeTailStart(ms: seq<Msg>, keep: nat) returns (start: nat)
    ensures start == SafeTailStart(ms, keep)
  {
    if |ms| <= keep { return 0; }
    var i := |ms| - keep;
    while i < |ms|
      invariant |ms| - keep <= i <= |ms|
      invariant SafeFrom(ms, |ms| - keep) == SafeFrom(ms, i)
    {
      if IsSafeBoundary(ms[i]) { return i; }
      i := i + 1;
    }
    return 0;
  }

  method ComputeCompactionCutoff(ms: seq<Msg>, keep: nat, budget: nat) returns (r: Option<nat>)
    ensures r == CompactionCutoff(ms, keep, budget)
  {
    var keepStart := ComputeSafeTailStart(ms, keep);
    ghost var start := keepStart;
    while keepStart < |ms|
      invariant keepStart <= |ms|
      invariant Walk(ms, start, budget) == Walk(ms, keepStart, budget)
    {
      var tailLen := ComputeTotalLen(ms[keepStart..]);
      if tailLen <= budget { break; }
      var next := keepStart + 1;
      while next < |ms| && !IsSafeBoundary(ms[next])
        invariant keepStart < next <= |ms|
        invariant SafeFrom(ms, keepStart + 1) == SafeFrom(ms, next)
      {
        next := next + 1;
      }
      keepStart := next;
    }
    return if keepStart == 0 then None else Some(keepStart);
  }

  method ComputeTotalLen(ms: seq<Msg>) returns (sum: nat)
    ensures sum == TotalLen(ms)
  {
    sum := 0;
    for i := 0 to |ms|
      invariant TotalLen(ms) == sum + TotalLen(ms[i..])
    {
      assert ms[i..][1..] == ms[i + 1..];
      sum := sum + RawLen(ms[i]);
    }
  }

  lemma {:induction false} SafeFromIsLeast(ms: seq<Msg>, i: nat)
    requires i <= |ms|
    ensures SafeFrom(ms, i) < |ms| ==> IsSafeBoundary(ms[SafeFrom(ms, i)])
    ensures forall j :: i <= j < SafeFrom(ms, i) ==> !IsSafeBoundary(ms[j])
    decreases |ms| - i
  {
    if i < |ms| && !IsSafeBoundary(ms[i]) { SafeFromIsLeast(ms, i + 1); }
  }

  /** A place the tail may start: `start` itself, a safe boundary after it, or the end. */
  predicate Candidate(ms: seq<Msg>, start: nat, k: nat) {
    start <= k <= |ms| && (k == start || k == |ms| || IsSafeBoundary(ms[k]))
  }

  predicate Fits(ms: seq<Msg>, k: nat, budget: nat)
    requires k <= |ms|
  {
    k == |ms| || TotalLen(ms[k..]) <= budget
  }

  lemma {:induction false} WalkIsLeast(ms: seq<Msg>, start: nat, budget: nat)
    requires start <= |ms|
    ensures
      var k := Walk(ms, start, budget);
      Candidate(ms, start, k) && Fits(ms, k, budget) &&
      forall j: nat :: Candidate(ms, start, j) && j < k ==> !Fits(ms, j, budget)
    decreases |ms| - start
  {
    if !Fits(ms, start, budget) {
      SafeFromIsLeast(ms, start + 1);
      WalkIsLeast(ms, SafeFrom(ms, start + 1), budget);
    }
  }

  /** The cut is the least candidate whose tail fits the budget; it never falls between an assistant
      message and its answers; and there is no cut exactly when the whole history already fits
      and no record is far enough back. */
  lemma CompactionCutoffIsLeast(ms: seq<Msg>, keep: nat, budget: nat)
    ensures
      var start := SafeTailStart(ms, keep);
      match CompactionCutoff(ms, keep, budget)
      case None => start == 0 && Fits(ms, 0, budget)
      case Some(k) =>
        && (k == |ms| || IsSafeBoundary(ms[k]))
        && Candidate(ms, start, k) && Fits(ms, k, budget)
        && (forall j: nat :: Candidate(ms, start, j) && j < k ==> !Fits(ms, j, budget))
  {
    var start := SafeTailStart(ms, keep);
    WalkIsLeast(ms, start, budget);
    if |ms| > keep { SafeFromIsLeast(ms, |ms| - keep); }
  }

  /** The start of the search: the least safe boundary among the newest `keep` records, if any. */
  lemma SafeTailStartIsLeast(ms: seq<Msg>, keep: nat)
    ensures
      var start := SafeTailStart(ms, keep);
      && (start != 0 ==>
            && |ms| - keep <= start < |ms| && IsSafeBoundary(ms[start])
            && forall j :: |ms| - keep <= j < start ==> !IsSafeBoundary(ms[j]))
      && (start == 0 ==> |ms| <= keep || forall j :: |ms| - keep <= j < |ms| && j > 0 ==> !IsSafeBoundary(ms[j]))
  {
    if |ms| > keep { SafeFromIsLeast(ms, |ms| - keep); }
  }

  // ---- reload after compaction ----

  /** The first `k` records all lie at or before the last of them, and the others after it. */
  predicate SplitsAt(rs: seq<TimedMsg>, k: nat)
    requires 0 < k <= |rs|
  {
    && (forall i :: 0 <= i < k ==> rs[i].ts <= rs[k - 1].ts)
    && (forall i :: k <= i < |rs| ==> rs[k - 1].ts < rs[i].ts)
  }

  lemma RetainTail(rs: seq<TimedMsg>, k: nat)
    requires 0 < k <= |rs| && SplitsAt(rs, k)
    ensures Retain(rs, Some(rs[k - 1].ts)) == rs[k..]
  {
    var cutoff := Some(rs[k - 1].ts);
    assert rs == rs[..k] + rs[k..];
    RetainAppend(rs[..k], rs[k..], cutoff);
    RetainNone(rs[..k], cutoff);
    RetainAll(rs[k..], cutoff);
  }

  lemma RetainTailNeeds(rs: seq<TimedMsg>, k: nat)
    requires 0 < k <= |rs| && Retain(rs, Some(rs[k - 1].ts)) == rs[k..]
    ensures SplitsAt(rs, k)
  {
    hide Retain;
    var cutoff := Some(rs[k - 1].ts);
    assert rs == rs[..k] + rs[k..];
    RetainAppend(rs[..k], rs[k..], cutoff);
    RetainMembers(rs, cutoff);
    RetainMembers(rs[..k], cutoff);
    forall i | k <= i < |rs| ensures rs[k - 1].ts < rs[i].ts { assert rs[k..][i - k] in rs[k..]; }
    RetainAll(rs[k..], cutoff);
    assert |Retain(rs[..k], cutoff)| == 0;
    forall i | 0 <= i < k ensures rs[i].ts <= rs[k - 1].ts { assert rs[..k][i] in rs[..k]; }
  }

  lemma {:induction false} RetainTwice(rs: seq<TimedMsg>, low: Option<nat>, high: nat)
    requires low.Some? ==> low.value <= high
    ensures Retain(Retain(rs, low), Some(high)) == Retain(rs, Some(high))
  {
    if rs != [] {
      RetainTwice(rs[1..], low, high);
      var rest := Retain(rs[1..], low);
      assert ([rs[0]] + rest)[1..] == rest && [] + rest == rest;
      assert Retain(rs, low) == if Past(rs[0], low) then [rs[0]] + rest else rest;
    }
  }

  lemma {:induction false} RetainMembers(rs: seq<TimedMsg>, cutoff: Option<nat>)
    ensures forall r :: r in Retain(rs, cutoff) <==> r in rs && Past(r, cutoff)
  {
    if rs != [] {
      RetainMembers(rs[1..], cutoff);
      assert rs == [rs[0]] + rs[1..];
    }
  }

  lemma {:induction false} RetainSorted(rs: seq<TimedMsg>, cutoff: Option<nat>)
    requires Sorted(rs)
    ensures Sorted(Retain(rs, cutoff))
  {
    if rs != [] {
      assert forall r :: r in rs[1..] ==> rs[0].ts <= r.ts;
      RetainSorted(rs[1..], cutoff);
      RetainMembers(rs[1..], cutoff);
      SortedCons(rs[0], Retain(rs[1..], cutoff));
    }
  }

  lemma SortedCons(first: TimedMsg, rest: seq<TimedMsg>)
    requires Sorted(rest) && forall r :: r in rest ==> first.ts <= r.ts
    ensures Sorted([first] + rest)
  {
    var out := [first] + rest;
    forall i, j | 0 <= i < j < |out| ensures out[i].ts <= out[j].ts {
      assert out[j] == rest[j - 1] && rest[j - 1] in rest;
      if i > 0 { assert out[i] == rest[i - 1]; }
    }
  }

  predicate ClockForward(log: seq<Stamped>) {
    forall i, j :: 0 <= i < j < |log| ==> log[i].ts <= log[j].ts
  }

  lemma {:induction false} RecordsMembers(log: seq<Stamped>)
    ensures forall r :: r in Records(log) <==> Stamped(r.ts, Message(r.msg)) in log
  {
    if log != [] {
      RecordsMembers(log[1..]);
      assert log == [log[0]] + log[1..];
    }
  }

  lemma {:induction false} RecordsSorted(log: seq<Stamped>)
    requires ClockForward(log)
    ensures Sorted(Records(log))
  {
    if log != [] {
      assert forall x :: x in log[1..] ==> log[0].ts <= x.ts;
      RecordsSorted(log[1..]);
      RecordsMembers(log[1..]);
      if log[0].rec.Message? { SortedCons(TimedMsg(log[0].ts, log[0].rec.msg), Records(log[1..])); }
    }
  }

  /** Folding the first `k` loaded records into a summary and loading again returns exactly the kept tail, on
      any log whatever its clock did, if and only if the folded records are stamped at or before the last of
      them and the kept ones after it. */
  lemma ReloadIsTailIff(log: seq<Stamped>, k: nat, ts: nat, text: string)
    requires 0 < k <= |Load(log)|
    ensures
      var rs := Load(log);
      Load(log + [Stamped(ts, Summary(rs[k - 1].ts, text))]) == rs[k..] <==> SplitsAt(rs, k)
  {
    var rs := Load(log);
    var cutoff := rs[k - 1].ts;
    RecordsPush(log, Stamped(ts, Summary(cutoff, text)));
    RetainMembers(Records(log), Cutoff(log));
    assert rs[k - 1] in rs;
    RetainTwice(Records(log), Cutoff(log), cutoff);
    if SplitsAt(rs, k) { RetainTail(rs, k); }
    else if Retain(rs, Some(cutoff)) == rs[k..] { RetainTailNeeds(rs, k); }
  }

  /** A message appended to any log is loaded if and only if it is stamped after the newest cutoff. */
  lemma MessageLoadedIff(log: seq<Stamped>, ts: nat, m: Msg)
    ensures
      var r := TimedMsg(ts, m);
      Load(log + [Stamped(ts, Message(m))]) == Load(log) + (if Past(r, Cutoff(log)) then [r] else [])
  {
    var r := TimedMsg(ts, m);
    RecordsPush(log, Stamped(ts, Message(m)));
    RetainAppend(Records(log), [r], Cutoff(log));
    assert Retain([r], Cutoff(log)) == (if Past(r, Cutoff(log)) then [r] else []) + Retain([], Cutoff(log));
    assert Retain([r], Cutoff(log)) == if Past(r, Cutoff(log)) then [r] else [];
  }

  lemma LoadSorted(log: seq<Stamped>)
    requires ClockForward(log)
    ensures Sorted(Load(log))
  {
    RecordsSorted(log);
    RetainSorted(Records(log), Cutoff(log));
  }
}
