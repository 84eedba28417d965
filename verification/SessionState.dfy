/** What every step of a session keeps: the clock order of the log, the shape of the recorded
    conversation, the at-most-once history and the pending set. */
module SessionState {
  import opened Options
  import opened Transcript
  import opened TranscriptRepair
  import opened RepairLaws
  import opened OpenCalls
  import opened SessionLog
  import opened Compaction
  import opened Prune
  import opened Tell
  import opened Requests

  /** The clock never runs backwards; readings may tie. */
  ghost predicate Forward(k: Site) {
    forall i: nat, j: nat :: i < j ==> k.clock(i) <= k.clock(j)
  }

  /** The log was written by this clock: in order, nothing after now. */
  predicate Timed(k: Site, log: seq<Stamped>, stamps: nat) {
    Chronological(log) && forall i :: 0 <= i < |log| ==> log[i].ts <= k.clock(stamps)
  }

  /** A summary that folds the first `cut` loaded records is written after the clock has moved on from the
      last of them, and no kept record shares its time. */
  predicate FoldTicks(k: Site, log: seq<Stamped>, stamps: nat, cut: nat) {
    var rs := Load(log);
    0 < cut <= |rs| ==> rs[cut - 1].ts < k.clock(stamps) && (cut < |rs| ==> rs[cut - 1].ts < rs[cut].ts)
  }

  /** A fresh prompt cuts this log: nothing is pending, and the log is over the trigger size with a safe line
      at or past its midpoint. */
  predicate Pruned(k: Site, st: St) { st.pending.None? && CutAt(k, st.log) > 0 }

  /** The only ties that matter: those at the cut of a compaction whose summary reaches the log. */
  predicate CompactTicks(k: Site, st: St, cfg: Config, w: World) {
    var cut := CompactionCutoff(Conversation(st.log), KEEP_RECENT_RECORDS_TARGET, RETAINED_TAIL_MAX_CHARS);
    st.pending.None? && !Pruned(k, st) && cut.Some? && Compact(k, st, cfg, w) != st ==>
      FoldTicks(k, st.log, st.stamps, cut.value)
  }

  predicate Ticks(k: Site, st: St, inv: Invocation) {
    inv.cont.Prompt? ==> CompactTicks(k, Begun(k, st), inv.cfg, inv.world)
  }

  /** The invocation will cut the log it writes to. */
  predicate Cuts(k: Site, st: St, inv: Invocation) { inv.cont.Prompt? && Pruned(k, Begun(k, st)) }

  /** An invocation that cuts the log finds no call open and leaves none parked. */
  predicate Harmless(k: Site, st: St, inv: Invocation) {
    Cuts(k, st, inv) ==> OpenAfter(Conversation(st.log), {}) == {} && Invoke(k, st, inv).0.pending == None
  }

  /** Every compaction and every cut of the session meets its condition. */
  predicate Ticked(k: Site, invs: seq<Invocation>) {
    invs == [] ||
    (var before, last := invs[..|invs| - 1], invs[|invs| - 1];
     Ticked(k, before) && Ticks(k, Session(k, before), last) && Harmless(k, Session(k, before), last))
  }

  /** Records reach the log, and it was written by this clock. */
  predicate Recording(k: Site, st: St) { st.attached && Timed(k, st.log, st.stamps) }

  // ---- the log under appends ----

  lemma CutoffBefore(k: Site, log: seq<Stamped>, stamps: nat)
    requires Timed(k, log, stamps)
    ensures Cutoff(log).Some? ==> Cutoff(log).value < k.clock(stamps)
  {
    var i := CutoffIs(log);
  }

  lemma AppendTimed(k: Site, log: seq<Stamped>, stamps: nat, rec: Record)
    requires Forward(k) && Timed(k, log, stamps) && !rec.Summary?
    ensures
      var log' := log + [Stamped(k.clock(stamps), rec)];
      && Timed(k, log', stamps + 1)
      && Load(log') == if rec.Message? then Load(log) + [TimedMsg(k.clock(stamps), rec.msg)] else Load(log)
  {
    var now := k.clock(stamps);
    RecordsPush(log, Stamped(now, rec));
    CutoffBefore(k, log, stamps);
    if rec.Message? { MessageLoadedIff(log, now, rec.msg); }
  }

  lemma MsgsPush(rs: seq<TimedMsg>, r: TimedMsg)
    ensures Msgs(rs + [r]) == Msgs(rs) + [r.msg]
  {
  }

  /** Log and memory move together: the loaded conversation and the list grow by the same messages. */
  predicate InSync(k: Site, a: St, b: St, added: seq<Msg>) {
    && Adds(a, b, added) && Recording(k, b)
    && Conversation(b.log) == Conversation(a.log) + added
    && b.called == a.called && b.pending == a.pending
  }

  lemma InSyncTrans(k: Site, a: St, b: St, c: St, u: seq<Msg>, v: seq<Msg>)
    requires InSync(k, a, b, u) && InSync(k, b, c, v)
    ensures InSync(k, a, c, u + v)
  {
    AddsTrans(a, b, c, u, v);
    ConcatAssoc(Conversation(a.log), u, v);
  }

  lemma AppendLog(k: Site, st: St, rec: Record)
    requires Forward(k) && Recording(k, st) && !rec.Summary?
    ensures
      var st' := Append(k, st, rec);
      && Recording(k, st')
      && Conversation(st'.log) == if rec.Message? then Conversation(st.log) + [rec.msg] else Conversation(st.log)
  {
    hide Timed, Load, Forward;
    AppendTimed(k, st.log, st.stamps, rec);
    if rec.Message? { MsgsPush(Load(st.log), TimedMsg(k.clock(st.stamps), rec.msg)); }
  }

  lemma AppendQuiet(k: Site, st: St, rec: Record)
    requires Forward(k) && Recording(k, st) && !rec.Summary? && !rec.Message?
    ensures InSync(k, st, Append(k, st, rec), [])
  {
    AppendLog(k, st, rec);
    AppendAdds(k, st, rec);
    assert Conversation(st.log) + [] == Conversation(st.log);
  }

  lemma AppendMsgSync(k: Site, st: St, m: Msg)
    requires Forward(k) && Recording(k, st)
    ensures InSync(k, st, AppendMsg(k, st, m), [m])
  {
    AppendLog(k, st, Message(m));
    AppendMsgAdds(k, st, m);
  }

  // ---- history and shape ----

  /** Each id is run at most once, answered at most once, and never run after it was answered. */
  predicate AtMostOnce(hist: seq<Event>) {
    forall i, j :: 0 <= i < j < |hist| && hist[i].id == hist[j].id ==> hist[i].Ran? && hist[j].Answered?
  }

  predicate Untouched(hist: seq<Event>, id: string) {
    forall i :: 0 <= i < |hist| ==> hist[i].id != id
  }

  predicate Within<T(==)>(a: seq<T>, b: seq<T>) {
    forall i :: 0 <= i < |a| ==> a[i] in b
  }

  /** The recorded conversation, the history and the ids called so far fit together. */
  predicate Core(x: seq<Msg>, hist: seq<Event>, called: seq<string>) {
    && Grouped(x, {}) && Distinct(CallIds(x)) && Within(CallIds(x), called)
    && AtMostOnce(hist)
    && (forall i :: 0 <= i < |hist| ==> hist[i].id in called)
    && (forall id :: id in OpenAfter(x, {}) ==> Untouched(hist, id))
  }

  function PendingIds(ps: seq<Pending>): (ids: seq<string>)
    ensures |ids| == |ps| && forall i :: 0 <= i < |ps| ==> ids[i] == ps[i].id
  {
    seq(|ps|, i requires 0 <= i < |ps| => ps[i].id)
  }

  /** Parked calls are open, distinct, and if commands, parse. */
  predicate Parked(k: Site, ps: seq<Pending>, open: set<string>) {
    && Distinct(PendingIds(ps))
    && forall i :: 0 <= i < |ps| ==> ps[i].id in open && (ps[i].kind == CommandTool ==> k.commandParses(ps[i].args))
  }

  predicate PendingOk(k: Site, pending: Option<seq<Pending>>, open: set<string>) {
    pending.Some? ==> pending.value != [] && Parked(k, pending.value, open)
  }

  /** The calls of the last assistant message. */
  function LastCalls(ms: seq<Msg>): seq<ToolCall> {
    if ms == [] then []
    else
      var last := ms[|ms| - 1];
      if last.Assistant? then last.calls else LastCalls(ms[..|ms| - 1])
  }

  /** Each parked call is one of the calls asked for: its id, name and arguments, under the kind of its name. */
  predicate AskedFor(ps: seq<Pending>, calls: seq<ToolCall>) {
    forall i :: 0 <= i < |ps| ==> IsCall(ps[i], calls)
  }

  predicate IsCall(p: Pending, calls: seq<ToolCall>) {
    ToolCall(p.id, p.name, p.args) in calls && p.kind == Classify(p.name)
  }

  predicate Good(k: Site, st: St) {
    && Timed(k, st.log, st.stamps)
    && Core(Conversation(st.log), st.hist, st.called)
    && PendingOk(k, st.pending, OpenAfter(Conversation(st.log), {}))
    && (st.pending.Some? ==> AskedFor(st.pending.value, LastCalls(Conversation(st.log))))
  }

  /** Good, with records still reaching the log. */
  predicate Live(k: Site, st: St) { Good(k, st) && st.attached }

  predicate AllTools(ms: seq<Msg>) {
    forall i :: 0 <= i < |ms| ==> ms[i].Tool?
  }

  lemma {:induction false} LastCallsKept(x: seq<Msg>, tools: seq<Msg>)
    requires AllTools(tools)
    ensures LastCalls(x + tools) == LastCalls(x)
    decreases |tools|
  {
    if tools == [] {
      assert x + tools == x;
    } else {
      var n := |tools| - 1;
      assert (x + tools)[..|x + tools| - 1] == x + tools[..n] && (x + tools)[|x + tools| - 1] == tools[n];
      LastCallsKept(x, tools[..n]);
    }
  }

  lemma LastCallsAre(x: seq<Msg>, content: string, calls: seq<ToolCall>)
    ensures LastCalls(x + [Assistant(content, calls)]) == calls
  {
  }

  lemma {:induction false} OpenAreCalls(ms: seq<Msg>, open: set<string>)
    ensures forall id :: id in OpenAfter(ms, open) ==> id in open || id in CallIds(ms)
  {
    if ms != [] {
      OpenAreCalls(ms[1..], OpenStep(ms[0], open));
      if ms[0].Assistant? { IdsAreIdSet(ms[0].calls); }
    }
  }

  lemma HistAnswer(hist: seq<Event>, id: string, ran: bool)
    requires AtMostOnce(hist) && Untouched(hist, id)
    ensures AtMostOnce(hist + (if ran then [Ran(id)] else []) + [Answered(id)])
  {
  }

  lemma HistAnswerCalled(hist: seq<Event>, called: seq<string>, id: string, ran: bool)
    requires (forall i :: 0 <= i < |hist| ==> hist[i].id in called) && id in called
    ensures
      var h := hist + (if ran then [Ran(id)] else []) + [Answered(id)];
      forall i :: 0 <= i < |h| ==> h[i].id in called
  {
  }

  lemma UntouchedAnswer(hist: seq<Event>, id: string, ran: bool, other: string)
    requires Untouched(hist, other) && other != id
    ensures Untouched(hist + (if ran then [Ran(id)] else []) + [Answered(id)], other)
  {
  }

  lemma CallIdsAnswer(x: seq<Msg>, id: string, content: string)
    ensures CallIds(x + [Tool(id, content)]) == CallIds(x)
  {
    CallIdsAppend(x, [Tool(id, content)]);
    assert CallIds(x) + [] == CallIds(x);
    assert CallIds([Tool(id, content)]) == [];
  }

  /** Answering an open call, run or not. */
  lemma CoreAnswer(x: seq<Msg>, hist: seq<Event>, called: seq<string>, id: string, content: string, ran: bool)
    requires Core(x, hist, called) && id in OpenAfter(x, {})
    ensures
      var x' := x + [Tool(id, content)];
      && Core(x', hist + (if ran then [Ran(id)] else []) + [Answered(id)], called)
      && OpenAfter(x', {}) == OpenAfter(x, {}) - {id}
  {
    hide AtMostOnce, Untouched, Distinct, Within, Grouped, OpenAfter, CallIds;
    GroupedPush(x, Tool(id, content));
    OpenAreCalls(x, {});
    assert id in CallIds(x);
    WithinMember(CallIds(x), called, id);
    HistAnswer(hist, id, ran);
    HistAnswerCalled(hist, called, id, ran);
    CallIdsAnswer(x, id, content);
    forall other | other in OpenAfter(x + [Tool(id, content)], {})
      ensures Untouched(hist + (if ran then [Ran(id)] else []) + [Answered(id)], other)
    {
      UntouchedAnswer(hist, id, ran, other);
    }
  }

  lemma WithinMember<T>(a: seq<T>, b: seq<T>, e: T)
    requires Within(a, b) && e in a
    ensures e in b
  {
  }

  /** A new reply, with ids never used before. */
  lemma CoreReply(x: seq<Msg>, hist: seq<Event>, called: seq<string>, content: string, calls: seq<ToolCall>)
    requires Core(x, hist, called) && OpenAfter(x, {}) == {} && Distinct(called + Ids(calls))
    ensures
      var x' := x + [Assistant(content, calls)];
      Core(x', hist, called + Ids(calls)) && OpenAfter(x', {}) == IdSet(calls)
  {
    var a := Assistant(content, calls);
    DistinctAppend(called, Ids(calls));
    GroupedPush(x, a);
    IdsAreIdSet(calls);
    CallIdsAppend(x, [a]);
    assert CallIds([a]) == Ids(calls) + [] == Ids(calls);
    FreshIds(CallIds(x), called, Ids(calls));
    forall id | id in IdSet(calls) ensures Untouched(hist, id) { assert id !in called; }
  }

  lemma FreshIds<T>(a: seq<T>, b: seq<T>, c: seq<T>)
    requires Distinct(a) && Within(a, b) && Distinct(b + c)
    ensures Distinct(a + c) && Within(a + c, b + c)
  {
    DistinctAppend(b, c);
    DistinctAppend(a, c);
  }

  lemma CoreUser(x: seq<Msg>, hist: seq<Event>, called: seq<string>, text: string)
    requires Core(x, hist, called) && OpenAfter(x, {}) == {}
    ensures Core(x + [User(text)], hist, called) && OpenAfter(x + [User(text)], {}) == {}
  {
    GroupedPush(x, User(text));
    CallIdsAppend(x, [User(text)]);
    assert CallIds([User(text)]) == [] && CallIds(x) + [] == CallIds(x);
  }

  /** Cutting history where a turn starts, or all of it. */
  lemma CoreCut(a: seq<Msg>, x: seq<Msg>, hist: seq<Event>, called: seq<string>)
    requires Core(a + x, hist, called) && (x != [] ==> !x[0].Tool?)
    ensures Core(x, hist, called)
  {
    hide CallIds, Distinct, Within, AtMostOnce, Untouched;
    CallIdsAppend(a, x);
    DistinctAppend(CallIds(a), CallIds(x));
    WithinTail(CallIds(a), CallIds(x), called);
    if x == [] { NoIdsOf(x); } else { GroupedTail(a, x); }
  }

  lemma WithinTail<T>(a: seq<T>, b: seq<T>, c: seq<T>)
    requires Within(a + b, c)
    ensures Within(b, c)
  {
    assert forall i :: 0 <= i < |b| ==> b[i] == (a + b)[|a| + i];
  }

  lemma NoIdsOf(x: seq<Msg>)
    requires x == []
    ensures CallIds(x) == [] && OpenAfter(x, {}) == {}
  {
  }
}
