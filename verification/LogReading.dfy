/** What the readers of the log return, by position in it, and what the size tests of compaction and pruning see. */
module LogReading {
  import opened Options
  import opened Transcript
  import opened SessionLog
  import opened Compaction
  import opened Prune
  import opened Tell

  // ---- the newest record of a kind ----

  predicate NewestSummary(log: seq<Stamped>, i: nat) {
    i < |log| && log[i].rec.Summary? && forall j :: i < j < |log| ==> !log[j].rec.Summary?
  }

  predicate NewestEnd(log: seq<Stamped>, i: nat) {
    i < |log| && log[i].rec.InvocationEnd? && forall j :: i < j < |log| ==> !log[j].rec.InvocationEnd?
  }

  predicate Counts(rec: Record) { rec.TokenUsage? && rec.prompt.Some? }

  predicate NewestCount(log: seq<Stamped>, i: nat) {
    i < |log| && Counts(log[i].rec) && forall j :: i < j < |log| ==> !Counts(log[j].rec)
  }

  /** The summary read is the text of the newest summary record, if there is one. */
  lemma {:induction false} SummaryIs(log: seq<Stamped>)
    ensures forall i: nat :: NewestSummary(log, i) ==> LatestSummary(log) == Some(log[i].rec.text)
    ensures LatestSummary(log).None? <==> forall i :: 0 <= i < |log| ==> !log[i].rec.Summary?
  {
    if log != [] {
      var before := log[..|log| - 1];
      SummaryIs(before);
      assert forall i :: 0 <= i < |before| ==> before[i] == log[i];
      forall i: nat | NewestSummary(log, i) && i < |before| ensures NewestSummary(before, i) { }
    }
  }

  /** The end reason read is that of the newest end record. */
  lemma {:induction false} EndIs(log: seq<Stamped>)
    ensures forall i: nat :: NewestEnd(log, i) ==> LastEnd(log) == Some(log[i].rec.reason)
    ensures LastEnd(log).None? <==> forall i :: 0 <= i < |log| ==> !log[i].rec.InvocationEnd?
  {
    if log != [] {
      var before := log[..|log| - 1];
      EndIs(before);
      assert forall i :: 0 <= i < |before| ==> before[i] == log[i];
      forall i: nat | NewestEnd(log, i) && i < |before| ensures NewestEnd(before, i) { }
    }
  }

  /** The prompt size read is the newest one recorded. */
  lemma {:induction false} CountIs(log: seq<Stamped>)
    ensures forall i: nat :: NewestCount(log, i) ==> LatestPromptTokens(log) == log[i].rec.prompt
    ensures LatestPromptTokens(log).None? <==> forall i :: 0 <= i < |log| ==> !Counts(log[i].rec)
  {
    if log != [] {
      var before := log[..|log| - 1];
      CountIs(before);
      assert forall i :: 0 <= i < |before| ==> before[i] == log[i];
      forall i: nat | NewestCount(log, i) && i < |before| ensures NewestCount(before, i) { }
    }
  }

  // ---- the messages loaded ----

  /** No summary anywhere in the log covers this time. */
  predicate NotFolded(log: seq<Stamped>, ts: nat) {
    forall j :: 0 <= j < |log| && log[j].rec.Summary? ==> log[j].rec.cutoff < ts
  }

  /** The messages of `rest` that no summary of `log` covers, in order. */
  function Uncovered(log: seq<Stamped>, rest: seq<Stamped>): seq<TimedMsg>
    decreases |rest|
  {
    if rest == [] then []
    else
      (if rest[0].rec.Message? && NotFolded(log, rest[0].ts) then [TimedMsg(rest[0].ts, rest[0].rec.msg)] else [])
      + Uncovered(log, rest[1..])
  }

  lemma {:induction false} RetainIsUncovered(log: seq<Stamped>, rest: seq<Stamped>)
    requires forall ts :: NotFolded(log, ts) <==> Past(TimedMsg(ts, User("")), Cutoff(log))
    ensures Retain(Records(rest), Cutoff(log)) == Uncovered(log, rest)
    decreases |rest|
  {
    hide NotFolded;
    if rest != [] {
      var r := TimedMsg(rest[0].ts, if rest[0].rec.Message? then rest[0].rec.msg else User(""));
      assert Past(r, Cutoff(log)) == Past(TimedMsg(rest[0].ts, User("")), Cutoff(log));
      var first := if rest[0].rec.Message? then [r] else [];
      assert Records(rest) == first + Records(rest[1..]);
      RetainAppend(first, Records(rest[1..]), Cutoff(log));
      if first == [r] { assert Retain([r], Cutoff(log)) == (if Past(r, Cutoff(log)) then [r] else []) + []; }
      RetainIsUncovered(log, rest[1..]);
    }
  }

  /** Loading returns the messages, in order, that lie after every summary's cutoff. */
  lemma LoadIs(log: seq<Stamped>)
    ensures Load(log) == Uncovered(log, log)
  {
    var k := CutoffIs(log);
    forall ts ensures NotFolded(log, ts) <==> Past(TimedMsg(ts, User("")), Cutoff(log)) {
      if Cutoff(log).Some? { assert log[k].rec.Summary?; }
    }
    RetainIsUncovered(log, log);
  }

  // ---- sizes ----

  /** The UTF-8 encoding of a character, section 3 of RFC 3629. */
  function Encode(c: char): (bytes: seq<nat>) {
    var n := c as int;
    if n < 0x80 then [n]
    else if n < 0x800 then [0xC0 + n / 0x40, 0x80 + n % 0x40]
    else if n < 0x1_0000 then [0xE0 + n / 0x1000, 0x80 + n / 0x40 % 0x40, 0x80 + n % 0x40]
    else [0xF0 + n / 0x4_0000, 0x80 + n / 0x1000 % 0x40, 0x80 + n / 0x40 % 0x40, 0x80 + n % 0x40]
  }

  function EncodeAll(s: string): seq<nat> { if s == "" then [] else Encode(s[0]) + EncodeAll(s[1..]) }

  /** The length counted is the length of the encoding. */
  lemma {:induction false} Utf8LenIs(s: string)
    ensures Utf8Len(s) == |EncodeAll(s)|
  {
    if s != "" { Utf8LenIs(s[1..]); }
  }

  lemma {:induction false} EncodeAppend(a: string, b: string)
    ensures EncodeAll(a + b) == EncodeAll(a) + EncodeAll(b)
  {
    if a == "" {
      assert a + b == b;
    } else {
      assert (a + b)[0] == a[0] && (a + b)[1..] == a[1..] + b;
      EncodeAppend(a[1..], b);
    }
  }

  /** Names and arguments of calls, one after the other. */
  function CallText(calls: seq<ToolCall>): string {
    if calls == [] then "" else calls[0].name + calls[0].args + CallText(calls[1..])
  }

  /** All the text a message carries. */
  function Payload(m: Msg): string {
    match m
    case System(text) => text
    case User(text) => text
    case Assistant(content, calls) => content + CallText(calls)
    case Tool(_, content) => content
  }

  lemma {:induction false} CallLenIs(calls: seq<ToolCall>)
    ensures CallLen(calls) == |EncodeAll(CallText(calls))|
  {
    if calls != [] {
      CallLenIs(calls[1..]);
      Utf8LenIs(calls[0].name);
      Utf8LenIs(calls[0].args);
      EncodeAppend(calls[0].name + calls[0].args, CallText(calls[1..]));
      EncodeAppend(calls[0].name, calls[0].args);
    }
  }

  /** The size of a message is the number of bytes of its text. */
  lemma RawLenIs(m: Msg)
    ensures RawLen(m) == |EncodeAll(Payload(m))|
  {
    Utf8LenIs(if m.Assistant? || m.Tool? then m.content else m.text);
    if m.Assistant? {
      CallLenIs(m.calls);
      EncodeAppend(m.content, CallText(m.calls));
    }
  }

  // ---- when compaction runs ----

  /** The prompt size a compaction is judged by. */
  predicate JudgedBy(log: seq<Stamped>, tokens: nat) {
    (exists i :: 0 <= i < |log| && NewestCount(log, i) && log[i].rec.prompt == Some(tokens))
    || (tokens == 0 && forall i :: 0 <= i < |log| ==> !Counts(log[i].rec))
  }

  /** One byte per record on top of its text. */
  function Weight(ms: seq<Msg>): nat { if ms == [] then 0 else RawLen(ms[0]) + 1 + Weight(ms[1..]) }

  lemma {:induction false} WeightIs(ms: seq<Msg>)
    ensures TotalChars(ms) == Weight(ms)
  {
    if ms != [] { WeightIs(ms[1..]); }
  }

  /** Compaction writes a summary if and only if the last prompt reached the trigger or the loaded records weigh more
      than 250000 bytes, there is something to fold, and the summariser answered; it then writes that answer, with the
      time of the last folded record as its cutoff. Otherwise it changes nothing. */
  lemma CompactMeans(k: Site, st: St, cfg: Config, w: World, tokens: nat)
    requires JudgedBy(st.log, tokens)
    ensures
      var records := Load(st.log);
      var cut := CompactionCutoff(Msgs(records), 10, 250_000);
      Compact(k, st, cfg, w) ==
        if (tokens >= cfg.triggerTokens || Weight(Msgs(records)) > 250_000) && cut.Some? && w.summary.Some?
        then Append(k, st, Summary(records[cut.value - 1].ts, w.summary.value))
        else st
  {
    CountIs(st.log);
    WeightIs(Msgs(Load(st.log)));
    hide CompactionCutoff, Load, Weight, TotalLen, LatestPromptTokens;
  }

  // ---- where the log is cut ----

  /** The bytes of the first `i` records. */
  function Bytes(k: Site, log: seq<Stamped>, i: nat): nat
    requires i <= |log|
  {
    if i == 0 then 0 else Bytes(k, log, i - 1) + k.lineBytes(log[i - 1].rec)
  }

  /** Record `i` starts at or past the midpoint, and is a user message or an assistant message without calls. */
  predicate MayCutAt(k: Site, log: seq<Stamped>, i: nat)
    requires i < |log|
  {
    && Bytes(k, log, i) >= Bytes(k, log, |log|) / 2 && log[i].rec.Message?
    && (log[i].rec.msg.User? || (log[i].rec.msg.Assistant? && log[i].rec.msg.calls == []))
  }

  lemma {:induction false} OffsetIs(k: Site, log: seq<Stamped>, i: nat)
    requires i <= |log|
    ensures Offset(Lines(k, log), i) == Bytes(k, log, i)
  {
    if i > 0 { OffsetIs(k, log, i - 1); }
  }

  /** The log is cut before its `i`-th record, i > 0, if and only if it is over 100 MiB and that is the first record it
      may be cut at; and not at all when that record starts the file. */
  lemma CutAtIs(k: Site, log: seq<Stamped>, i: nat)
    requires i < |log|
    ensures
      i > 0 && CutAt(k, log) == i <==>
      && Bytes(k, log, |log|) > 100 * 1024 * 1024 && Bytes(k, log, i) > 0
      && MayCutAt(k, log, i) && forall j :: 0 <= j < i ==> !MayCutAt(k, log, j)
  {
    var lines := Lines(k, log);
    var size := Offset(lines, |lines|);
    OffsetIs(k, log, |log|);
    forall j | 0 <= j < |log| ensures CutHere(lines, j, size / 2) <==> MayCutAt(k, log, j) {
      OffsetIs(k, log, j);
      RenderedBoundary(log[j].rec, k.lineBytes(log[j].rec));
    }
    var f := FirstCut(lines, 0, size / 2);
    OffsetIs(k, log, f);
    OffsetIs(k, log, i);
    hide Offset, Bytes, MayCutAt, CutHere, Lines;
    ZeroBytes(k, log);
  }

  lemma ZeroBytes(k: Site, log: seq<Stamped>)
    ensures Bytes(k, log, 0) == 0
  {
  }
}
