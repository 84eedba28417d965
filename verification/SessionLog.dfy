/** The append-only conversation log of a session and how it is loaded. */
module SessionLog {
  import opened Options
  import opened Transcript

  datatype EndReason = Completed | AwaitingApproval | SessionToolCallExhausted | MaxTurns | TransportError | Failed

  /** One line of conversation.jsonl. `Message` carries a user, assistant or tool record. */
  datatype Record =
    | InvocationStart
    | Message(msg: Msg)
    | Summary(cutoff: nat, text: string)
    | ToolApproval(id: string, approve: bool, byRepair: bool)
    | TokenUsage(prompt: Option<nat>)
    | MetricsSnapshot
    | InvocationEnd(reason: EndReason)

  datatype Stamped = Stamped(ts: nat, rec: Record)

  /** The records of a log, without their times. */
  function Recs(log: seq<Stamped>): seq<Record> {
    if log == [] then [] else Recs(log[..|log| - 1]) + [log[|log| - 1].rec]
  }

  lemma RecsPush(log: seq<Stamped>, r: Stamped)
    ensures Recs(log + [r]) == Recs(log) + [r.rec]
  {
    assert (log + [r])[..|log|] == log;
  }

  datatype TimedMsg = TimedMsg(ts: nat, msg: Msg)

  /** Every message record, in file order. */
  function Records(log: seq<Stamped>): seq<TimedMsg> {
    if log == [] then []
    else (if log[0].rec.Message? then [TimedMsg(log[0].ts, log[0].rec.msg)] else []) + Records(log[1..])
  }

  function Later(a: Option<nat>, b: Option<nat>): Option<nat> {
    if a.None? then b else if b.None? || b.value <= a.value then a else b
  }

  function CutoffOf(rec: Record): Option<nat> {
    if rec.Summary? then Some(rec.cutoff) else None
  }

  /** The newest cutoff any summary has recorded. */
  function Cutoff(log: seq<Stamped>): Option<nat> {
    if log == [] then None else Later(Cutoff(log[..|log| - 1]), CutoffOf(log[|log| - 1].rec))
  }

  predicate Past(r: TimedMsg, cutoff: Option<nat>) {
    cutoff.Some? ==> r.ts > cutoff.value
  }

  function Retain(rs: seq<TimedMsg>, cutoff: Option<nat>): seq<TimedMsg> {
    if rs == [] then []
    else (if Past(rs[0], cutoff) then [rs[0]] else []) + Retain(rs[1..], cutoff)
  }

  /** `load_records_since_last_summary`. */
  function Load(log: seq<Stamped>): seq<TimedMsg> {
    Retain(Records(log), Cutoff(log))
  }

  function Msgs(rs: seq<TimedMsg>): (ms: seq<Msg>)
    ensures |ms| == |rs|
    ensures forall i :: 0 <= i < |rs| ==> ms[i] == rs[i].msg
  {
    seq(|rs|, i requires 0 <= i < |rs| => rs[i].msg)
  }

  /** `latest_summary`. */
  function LatestSummary(log: seq<Stamped>): Option<string> {
    if log == [] then None
    else
      var last := log[|log| - 1].rec;
      if last.Summary? then Some(last.text) else LatestSummary(log[..|log| - 1])
  }

  /** `last_invocation_end_reason`. */
  function LastEnd(log: seq<Stamped>): Option<EndReason> {
    if log == [] then None
    else
      var last := log[|log| - 1].rec;
      if last.InvocationEnd? then Some(last.reason) else LastEnd(log[..|log| - 1])
  }

  /** `latest_prompt_tokens`. */
  function LatestPromptTokens(log: seq<Stamped>): Option<nat> {
    if log == [] then None
    else
      var last := log[|log| - 1].rec;
      if last.TokenUsage? && last.prompt.Some? then last.prompt else LatestPromptTokens(log[..|log| - 1])
  }

  // ---- the loader ----

  method ReadChatMessages(log: seq<Stamped>, all: bool) returns (records: seq<TimedMsg>)
    ensures records == if all then Records(log) else Load(log)
  {
    var latestCutoff: Option<nat> := None;
    records := [];
    for i := 0 to |log|
      invariant latestCutoff == Cutoff(log[..i])
      invariant records == Records(log[..i])
    {
      assert log[..i + 1] == log[..i] + [log[i]];
      RecordsPush(log[..i], log[i]);
      match log[i].rec
      case Message(msg) => records := records + [TimedMsg(log[i].ts, msg)];
      case Summary(cutoff, _) =>
        latestCutoff := match latestCutoff
          case Some(prev) => Some(if prev >= cutoff then prev else cutoff)
          case None => Some(cutoff);
      case _ =>
    }
    assert log[..|log|] == log;
    if !all && latestCutoff.Some? {
      var kept := [];
      for i := 0 to |records|
        invariant kept == Retain(records[..i], latestCutoff)
      {
        assert records[..i + 1] == records[..i] + [records[i]];
        RetainAppend(records[..i], [records[i]], latestCutoff);
        if records[i].ts > latestCutoff.value { kept := kept + [records[i]]; }
      }
      assert records[..|records|] == records;
      records := kept;
    } else if !all {
      RetainAll(records, None);
    }
  }

  method ReadLatestSummary(log: seq<Stamped>) returns (latest: Option<string>)
    ensures latest == LatestSummary(log)
  {
    latest := None;
    for i := 0 to |log|
      invariant latest == LatestSummary(log[..i])
    {
      assert log[..i + 1][..i] == log[..i];
      if log[i].rec.Summary? { latest := Some(log[i].rec.text); }
    }
    assert log[..|log|] == log;
  }

  method ReadLastEnd(log: seq<Stamped>) returns (latest: Option<EndReason>)
    ensures latest == LastEnd(log)
  {
    latest := None;
    for i := 0 to |log|
      invariant latest == LastEnd(log[..i])
    {
      assert log[..i + 1][..i] == log[..i];
      if log[i].rec.InvocationEnd? { latest := Some(log[i].rec.reason); }
    }
    assert log[..|log|] == log;
  }

  method ReadLatestPromptTokens(log: seq<Stamped>) returns (latest: Option<nat>)
    ensures latest == LatestPromptTokens(log)
  {
    latest := None;
    for i := 0 to |log|
      invariant latest == LatestPromptTokens(log[..i])
    {
      assert log[..i + 1][..i] == log[..i];
      if log[i].rec.TokenUsage? && log[i].rec.prompt.Some? { latest := log[i].rec.prompt; }
    }
    assert log[..|log|] == log;
  }

  lemma {:induction false} RecordsAppend(a: seq<Stamped>, b: seq<Stamped>)
    ensures Records(a + b) == Records(a) + Records(b)
  {
    if a == [] { assert a + b == b; }
    else {
      assert (a + b)[0] == a[0] && (a + b)[1..] == a[1..] + b;
      RecordsAppend(a[1..], b);
      ConcatAssoc(if a[0].rec.Message? then [TimedMsg(a[0].ts, a[0].rec.msg)] else [], Records(a[1..]), Records(b));
    }
  }

  lemma RecordsPush(log: seq<Stamped>, r: Stamped)
    ensures Records(log + [r]) ==
            if r.rec.Message? then Records(log) + [TimedMsg(r.ts, r.rec.msg)] else Records(log)
    ensures Cutoff(log + [r]) == Later(Cutoff(log), CutoffOf(r.rec))
  {
    RecordsAppend(log, [r]);
    assert (log + [r])[..|log + [r]| - 1] == log;
  }

  lemma {:induction false} RetainAppend(a: seq<TimedMsg>, b: seq<TimedMsg>, cutoff: Option<nat>)
    ensures Retain(a + b, cutoff) == Retain(a, cutoff) + Retain(b, cutoff)
  {
    if a == [] { assert a + b == b; }
    else {
      assert (a + b)[0] == a[0] && (a + b)[1..] == a[1..] + b;
      RetainAppend(a[1..], b, cutoff);
      ConcatAssoc(if Past(a[0], cutoff) then [a[0]] else [], Retain(a[1..], cutoff), Retain(b, cutoff));
    }
  }

  lemma {:induction false} RetainAll(rs: seq<TimedMsg>, cutoff: Option<nat>)
    requires forall r :: r in rs ==> Past(r, cutoff)
    ensures Retain(rs, cutoff) == rs
  {
    if rs != [] { assert rs[0] in rs; RetainAll(rs[1..], cutoff); }
  }

  lemma {:induction false} RetainNone(rs: seq<TimedMsg>, cutoff: Option<nat>)
    requires forall r :: r in rs ==> !Past(r, cutoff)
    ensures Retain(rs, cutoff) == []
  {
    if rs != [] { assert rs[0] in rs; RetainNone(rs[1..], cutoff); }
  }

  predicate Sorted(rs: seq<TimedMsg>) {
    forall i, j :: 0 <= i < j < |rs| ==> rs[i].ts <= rs[j].ts
  }
}
