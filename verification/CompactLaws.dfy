/** What pruning and compaction before a fresh prompt keep of the session, and what they lose. */
module CompactLaws {
  import opened Options
  import opened Transcript
  import opened OpenCalls
  import opened SessionLog
  import opened Compaction
  import opened Prune
  import opened Tell
  import opened SessionState

  // ---- compaction before a prompt ----

  lemma TimedSuffix(k: Site, log: seq<Stamped>, stamps: nat, i: nat)
    requires Timed(k, log, stamps) && i <= |log|
    ensures Timed(k, log[i..], stamps)
  {
  }

  lemma MsgsAppend(a: seq<TimedMsg>, b: seq<TimedMsg>)
    ensures Msgs(a + b) == Msgs(a) + Msgs(b)
  {
  }

  /** A cut keeps the clock order and shortens the loaded conversation only where a turn starts. */
  lemma PruneKeeps(k: Site, log: seq<Stamped>, stamps: nat) returns (a: seq<Msg>)
    requires Timed(k, log, stamps)
    ensures
      var log' := log[CutAt(k, log)..];
      && Timed(k, log', stamps) && Conversation(log) == a + Conversation(log')
      && (a != [] ==> Conversation(log') != [] && !Conversation(log')[0].Tool?)
  {
    var i := CutAt(k, log);
    a := [];
    assert a + Conversation(log) == Conversation(log);
    if i > 0 {
      CutIsSafe(k, log);
      TimedSuffix(k, log, stamps, i);
      ReloadAfterPrune(log, i);
      MsgsAppend(Dropped(log, i), Load(log[i..]));
      a := Msgs(Dropped(log, i));
    } else {
      assert log[0..] == log;
    }
  }

  lemma CutIsSafe(k: Site, log: seq<Stamped>)
    requires CutAt(k, log) > 0
    ensures log[CutAt(k, log)].rec.Message? && IsSafeBoundary(log[CutAt(k, log)].rec.msg)
  {
    var i := CutAt(k, log);
    RenderedBoundary(log[i].rec, k.lineBytes(log[i].rec));
  }

  lemma SummaryTimed(k: Site, log: seq<Stamped>, stamps: nat, cut: nat, text: string)
    requires Forward(k) && Timed(k, log, stamps) && 0 < cut <= |Load(log)| && FoldTicks(k, log, stamps, cut)
    ensures
      var log' := log + [Stamped(k.clock(stamps), Summary(Load(log)[cut - 1].ts, text))];
      Timed(k, log', stamps + 1) && Load(log') == Load(log)[cut..]
  {
    var rs := Load(log);
    LoadedPast(log, cut - 1);
    SummaryChronological(k, log, stamps, rs[cut - 1].ts, text);
    LoadSorted(log);
    ReloadIsTailIff(log, cut, k.clock(stamps), text);
  }

  /** Why the clock must have moved on when the summary is written: if it still reads the time of the last
      folded record, and does so for one more record, that message is never loaded. */
  lemma FoldNeedsTick(k: Site, log: seq<Stamped>, stamps: nat, cut: nat, text: string, m: Msg)
    requires 0 < cut <= |Load(log)|
    requires Load(log)[cut - 1].ts == k.clock(stamps) == k.clock(stamps + 1)
    ensures
      var folded := log + [Stamped(k.clock(stamps), Summary(Load(log)[cut - 1].ts, text))];
      Load(folded + [Stamped(k.clock(stamps + 1), Message(m))]) == Load(folded)
  {
    var summary := Stamped(k.clock(stamps), Summary(Load(log)[cut - 1].ts, text));
    RecordsPush(log, summary);
    MessageLoadedIff(log + [summary], k.clock(stamps + 1), m);
    assert Load(log + [summary]) + [] == Load(log + [summary]);
  }

  lemma LoadedPast(log: seq<Stamped>, i: nat)
    requires i < |Load(log)|
    ensures Past(Load(log)[i], Cutoff(log))
  {
    RetainMembers(Records(log), Cutoff(log));
    assert Load(log)[i] in Load(log);
  }

  lemma SummaryChronological(k: Site, log: seq<Stamped>, stamps: nat, cutoff: nat, text: string)
    requires Forward(k) && Timed(k, log, stamps) && cutoff < k.clock(stamps)
    requires Cutoff(log).Some? ==> Cutoff(log).value <= cutoff
    ensures
      var log' := log + [Stamped(k.clock(stamps), Summary(cutoff, text))];
      Chronological(log') && forall i :: 0 <= i < |log'| ==> log'[i].ts <= k.clock(stamps + 1)
  {
    var i := CutoffIs(log);
  }

  /** A long log whose newest summary and an unsummarised record both lie before the midpoint loses both. */
  lemma PruneLosesSummaryAndTail(k: Site, summary: string, a: string, b: string)
    requires forall rec :: k.lineBytes(rec) == 60 * 1024 * 1024
    ensures
      var log := [Stamped(1, Summary(0, summary)), Stamped(2, Message(User(a))), Stamped(3, Message(User(b)))];
      && Chronological(log)
      && LatestSummary(log) == Some(summary) && LatestSummary(log[CutAt(k, log)..]) == None
      && Load(log) == [TimedMsg(2, User(a)), TimedMsg(3, User(b))]
      && Load(log[CutAt(k, log)..]) == [TimedMsg(3, User(b))]
  {
    var log := [Stamped(1, Summary(0, summary)), Stamped(2, Message(User(a))), Stamped(3, Message(User(b)))];
    PruneCutsAtTwo(k, log);
    var kept := log[2..];
    assert kept == [Stamped(3, Message(User(b)))];
    LoadOne(3, User(b));
    LoadThree(log);
    SummaryFirst(log);
    SuffixSummary(log, 2);
  }

  lemma SummaryFirst(log: seq<Stamped>)
    requires |log| == 3 && log[0].rec.Summary? && log[1].rec.Message? && log[2].rec.Message?
    ensures LatestSummary(log) == Some(log[0].rec.text)
  {
    assert log[..2][..1] == log[..1];
    assert LatestSummary(log[..1]) == Some(log[0].rec.text);
    assert LatestSummary(log[..2]) == LatestSummary(log[..1]);
  }

  lemma LoadOne(ts: nat, m: Msg)
    ensures Load([Stamped(ts, Message(m))]) == [TimedMsg(ts, m)]
  {
    var log := [Stamped(ts, Message(m))];
    assert log[1..] == [] && log[..0] == [];
    assert Records(log) == [TimedMsg(ts, m)] + [] == [TimedMsg(ts, m)];
    assert Cutoff(log).None?;
    RetainAll(Records(log), None);
  }

  lemma LoadThree(log: seq<Stamped>)
    requires |log| == 3 && log[0].rec.Summary? && log[1].rec.Message? && log[2].rec.Message?
    requires log[0].rec.cutoff < log[1].ts && log[0].rec.cutoff < log[2].ts
    ensures Load(log) == [TimedMsg(log[1].ts, log[1].rec.msg), TimedMsg(log[2].ts, log[2].rec.msg)]
  {
    var one, two := [log[0]], [log[0], log[1]];
    assert log == two + [log[2]] && two == one + [log[1]] && one == [] + [log[0]];
    RecordsPush([], log[0]);
    RecordsPush(one, log[1]);
    RecordsPush(two, log[2]);
    RetainAll(Records(log), Cutoff(log));
  }

  lemma PruneCutsAtTwo(k: Site, log: seq<Stamped>)
    requires forall rec :: k.lineBytes(rec) == 60 * 1024 * 1024
    requires |log| == 3 && log[2].rec.Message? && log[2].rec.msg.User?
    ensures CutAt(k, log) == 2
  {
    var lines := Lines(k, log);
    var mb := 60 * 1024 * 1024;
    assert forall i :: 0 <= i < 3 ==> lines[i].bytes == mb;
    assert Offset(lines, 0) == 0 && Offset(lines, 1) == mb && Offset(lines, 2) == 2 * mb && Offset(lines, 3) == 3 * mb;
    RenderedBoundary(log[2].rec, mb);
    assert FirstCut(lines, 2, 3 * mb / 2) == 2;
    assert FirstCut(lines, 1, 3 * mb / 2) == 2;
    assert FirstCut(lines, 0, 3 * mb / 2) == 2;
  }

  lemma MsgsTail(rs: seq<TimedMsg>, cut: nat)
    requires cut <= |rs|
    ensures Msgs(rs) == Msgs(rs)[..cut] + Msgs(rs[cut..])
    ensures cut < |rs| ==> Msgs(rs[cut..])[0] == Msgs(rs)[cut]
  {
  }

  lemma GoodLater(k: Site, st: St)
    requires Forward(k) && Good(k, st)
    ensures Good(k, st.(stamps := st.stamps + 1))
  {
  }

  /** Cutting the log of a good state leaves a good state, with the same calls open. */
  lemma PruneIsGood(k: Site, st: St)
    requires Good(k, st) && st.pending == None
    ensures
      var st' := PruneLog(k, st);
      Good(k, st') && OpenAfter(Conversation(st'.log), {}) == OpenAfter(Conversation(st.log), {})
  {
    var i := CutAt(k, st.log);
    assert i == 0 ==> st.log[i..] == st.log;
    var a := PruneKeeps(k, st.log, st.stamps);
    var x := Conversation(st.log[i..]);
    if a == [] {
      assert a + x == x;
    } else {
      CoreCut(a, x, st.hist, st.called);
      GroupedTail(a, x);
    }
  }

  lemma SummaryIsLive(k: Site, st: St, cut: nat, text: string)
    requires Forward(k) && Live(k, st) && st.pending == None && 0 < cut <= |Load(st.log)|
    requires cut < |Load(st.log)| ==> IsSafeBoundary(Conversation(st.log)[cut])
    requires FoldTicks(k, st.log, st.stamps, cut)
    ensures Live(k, Append(k, st, Summary(Load(st.log)[cut - 1].ts, text)))
  {
    var rs := Load(st.log);
    SummaryTimed(k, st.log, st.stamps, cut, text);
    MsgsTail(rs, cut);
    CoreCut(Msgs(rs)[..cut], Msgs(rs[cut..]), st.hist, st.called);
  }

  lemma CompactIs(k: Site, st: St, cfg: Config, w: World)
    ensures
      var cut := CompactionCutoff(Conversation(st.log), KEEP_RECENT_RECORDS_TARGET, RETAINED_TAIL_MAX_CHARS);
      var st' := Compact(k, st, cfg, w);
      st' == st || (cut.Some? && cut.value <= |Load(st.log)| && w.summary.Some? &&
                    st' == Append(k, st, Summary(Load(st.log)[cut.value - 1].ts, w.summary.value)))
  {
    hide CompactionCutoff, Load, LatestPromptTokens, ShouldCompact, TotalChars;
  }

  lemma AppendFrame(k: Site, st: St, rec: Record)
    ensures
      var st' := Append(k, st, rec);
      st'.sent == st.sent && st'.called == st.called && st'.pending == st.pending && st'.hist == st.hist
      && st'.attached == st.attached
  {
  }

  /** While calls are pending, a fresh prompt neither prunes nor compacts. */
  lemma AutoCompactIs(k: Site, st: St, cfg: Config, w: World)
    ensures AutoCompact(k, st, cfg, w) ==
      if st.pending.Some? then st else Compact(k, PruneLog(k, st), cfg, w)
    ensures PruneLog(k, st) ==
      if CutAt(k, st.log) == 0 then st else st.(log := st.log[CutAt(k, st.log)..], attached := false)
  {
  }

  /** Once the handle is stale, an append only takes the time. */
  lemma AppendLost(k: Site, st: St, rec: Record)
    requires !st.attached
    ensures Append(k, st, rec) == st.(stamps := st.stamps + 1)
  {
  }

  /** Before a fresh prompt: a log that is not cut is folded into a good state that still records; a log that
      is cut stays cut, the summary is lost, and so is the handle. Nothing else of the session changes, and
      while calls are pending nothing does. */
  lemma AutoCompactKeeps(k: Site, st: St, cfg: Config, w: World)
    requires Forward(k) && Live(k, st) && CompactTicks(k, st, cfg, w)
    ensures
      var st' := AutoCompact(k, st, cfg, w);
      && Good(k, st') && (st'.attached <==> !Pruned(k, st))
      && (Pruned(k, st) ==> st'.log == st.log[CutAt(k, st.log)..])
      && st'.sent == st.sent && st'.called == st.called && st'.pending == st.pending && st'.hist == st.hist
      && (st.pending.Some? ==> st' == st)
  {
    hide *;
    AutoCompactIs(k, st, cfg, w);
    PrunedIs(k, st);
    LiveIs(k, st);
    if st.pending.Some? { return; }
    var st1 := PruneLog(k, st);
    PruneIsGood(k, st);
    CompactIs(k, st1, cfg, w);
    if Compact(k, st1, cfg, w) != st1 {
      CompactionCutoffIsLeast(Conversation(st1.log), KEEP_RECENT_RECORDS_TARGET, RETAINED_TAIL_MAX_CHARS);
      var cut := CompactionCutoff(Conversation(st1.log), KEEP_RECENT_RECORDS_TARGET, RETAINED_TAIL_MAX_CHARS);
      ConversationLength(st1.log);
      var rec := Summary(Load(st1.log)[cut.value - 1].ts, w.summary.value);
      AppendFrame(k, st1, rec);
      if st1.attached {
        TicksAtCut(k, st, cfg, w);
        SummaryIsLive(k, st1, cut.value, w.summary.value);
        LiveIs(k, Append(k, st1, rec));
      } else {
        AppendLost(k, st1, rec);
        GoodLater(k, st1);
      }
    }
  }

  lemma PrunedIs(k: Site, st: St)
    ensures Pruned(k, st) <==> st.pending.None? && CutAt(k, st.log) != 0
  {
  }

  lemma LiveIs(k: Site, st: St)
    ensures Live(k, st) <==> Good(k, st) && st.attached
  {
  }

  lemma TicksAtCut(k: Site, st: St, cfg: Config, w: World)
    requires CompactTicks(k, st, cfg, w) && st.pending.None? && !Pruned(k, st)
    ensures
      var cut := CompactionCutoff(Conversation(st.log), KEEP_RECENT_RECORDS_TARGET, RETAINED_TAIL_MAX_CHARS);
      cut.Some? && Compact(k, st, cfg, w) != st ==> FoldTicks(k, st.log, st.stamps, cut.value)
  {
  }

  lemma ConversationLength(log: seq<Stamped>)
    ensures |Conversation(log)| == |Load(log)|
  {
  }
}
