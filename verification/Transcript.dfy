/** Chat transcripts: the message list sent to the model, and what makes it legal.
    Shared by the session protocol (`attini tell` / `attini approve`) and by AgentCore. */
module Transcript {

  datatype ToolCall = ToolCall(id: string, name: string, args: string)

  datatype Msg =
    | System(text: string)
    | User(text: string)
    | Assistant(content: string, calls: seq<ToolCall>)
    | Tool(id: string, content: string)

  /** The first |calls| messages of `ms` answer `calls`, position by position. */
  predicate AnswersTo(calls: seq<ToolCall>, ms: seq<Msg>) {
    |calls| <= |ms| &&
    forall i :: 0 <= i < |calls| ==> ms[i].Tool? && ms[i].id == calls[i].id
  }

  /** A closed transcript: every assistant message is immediately followed by exactly one answer
      per call, in call order, and there is no other tool message. */
  predicate Closed(ms: seq<Msg>)
    decreases |ms|
  {
    ms == [] ||
    match ms[0]
    case Assistant(_, calls) => AnswersTo(calls, ms[1..]) && Closed(ms[1 + |calls|..])
    case Tool(_, _) => false
    case _ => Closed(ms[1..])
  }

  /** Ids of all calls, in transcript order. */
  function CallIds(ms: seq<Msg>): seq<string> {
    if ms == [] then [] else IdsOf(ms[0]) + CallIds(ms[1..])
  }

  function IdsOf(m: Msg): seq<string> {
    if m.Assistant? then Ids(m.calls) else []
  }

  function Ids(calls: seq<ToolCall>): (ids: seq<string>)
    ensures |ids| == |calls|
    ensures forall i :: 0 <= i < |calls| ==> ids[i] == calls[i].id
  {
    seq(|calls|, i requires 0 <= i < |calls| => calls[i].id)
  }

  /** The messages that are not tool results, in order. */
  function NonTool(ms: seq<Msg>): seq<Msg> {
    if ms == [] then []
    else (if ms[0].Tool? then [] else [ms[0]]) + NonTool(ms[1..])
  }

  predicate Distinct<T(==)>(s: seq<T>) {
    forall i, j :: 0 <= i < j < |s| ==> s[i] != s[j]
  }

  /** Bytes of a string in UTF-8. */
  function Utf8Len(s: string): nat {
    if s == "" then 0 else CharLen(s[0]) + Utf8Len(s[1..])
  }

  function CharLen(ch: char): nat {
    if ch as int < 0x80 then 1 else if ch as int < 0x800 then 2 else if ch as int < 0x1_0000 then 3 else 4
  }

  lemma ConcatAssoc<T>(a: seq<T>, b: seq<T>, c: seq<T>)
    ensures a + b + c == a + (b + c)
  {
  }

  // ---- closed transcripts compose ----

  lemma {:induction false} ClosedAppend(a: seq<Msg>, b: seq<Msg>)
    requires Closed(a)
    ensures Closed(a + b) <==> Closed(b)
    decreases |a|
  {
    if a == [] {
      assert a + b == b;
    } else {
      var n := if a[0].Assistant? then 1 + |a[0].calls| else 1;
      assert (a + b)[0] == a[0];
      assert (a + b)[n..] == a[n..] + b;
      assert (a + b)[1..] == a[1..] + b;
      ClosedAppend(a[n..], b);
    }
  }

  lemma {:induction false} CallIdsAppend(a: seq<Msg>, b: seq<Msg>)
    ensures CallIds(a + b) == CallIds(a) + CallIds(b)
  {
    if a == [] {
      assert a + b == b;
    } else {
      assert (a + b)[1..] == a[1..] + b;
      CallIdsAppend(a[1..], b);
    }
  }

  lemma {:induction false} NonToolAppend(a: seq<Msg>, b: seq<Msg>)
    ensures NonTool(a + b) == NonTool(a) + NonTool(b)
  {
    if a == [] {
      assert a + b == b;
    } else {
      assert (a + b)[1..] == a[1..] + b;
      NonToolAppend(a[1..], b);
    }
  }

  lemma {:induction false} CallIdsMember(ms: seq<Msg>, i: nat, id: string)
    requires i < |ms| && id in IdsOf(ms[i])
    ensures id in CallIds(ms)
  {
    if i > 0 { CallIdsMember(ms[1..], i - 1, id); }
  }

  lemma DistinctAppend<T>(a: seq<T>, b: seq<T>)
    ensures Distinct(a + b) <==>
      Distinct(a) && Distinct(b) && forall x :: x in a ==> x !in b
  {
    var c := a + b;
    if Distinct(c) {
      forall i, j | 0 <= i < j < |a| ensures a[i] != a[j] { assert c[i] == a[i] && c[j] == a[j]; }
      forall i, j | 0 <= i < j < |b| ensures b[i] != b[j] { assert c[|a| + i] == b[i] && c[|a| + j] == b[j]; }
      forall i, j | 0 <= i < |a| && 0 <= j < |b| ensures a[i] != b[j] {
        assert c[i] == a[i] && c[|a| + j] == b[j];
      }
    } else {
      var i, j :| 0 <= i < j < |c| && c[i] == c[j];
      if i < |a| <= j { assert a[i] in a && a[i] == b[j - |a|] && b[j - |a|] in b; }
      else if |a| <= i { assert b[i - |a|] == b[j - |a|]; }
    }
  }
}
