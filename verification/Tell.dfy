/** One invocation of `attini tell` / `attini approve` as a function of the session state: the log and
    pending set on disk, the message list in memory, and what the outside world does. */
module Tell {
  import opened Options
  import opened Transcript
  import opened TranscriptRepair
  import opened SessionLog
  import opened Compaction
  import opened Prune
  import Gate

  // ---- the outside world ----

  /** What is fixed for a session: the wall-clock reading at its n-th stamp, which command arguments
      parse, and how many bytes a record's line takes. */
  datatype Site = Site(clock: nat -> nat, commandParses: string -> bool, lineBytes: Record -> nat)

  datatype Reply =
    | TransportFault
    | HttpFault
    | Reply(content: string, calls: seq<ToolCall>, usage: Option<Option<nat>>)

  /** How a call is judged when it is dispatched: answered on the spot (`ran` when the tool was
      actually run, `decision` when a permission rule decided), or left to the human. */
  datatype Verdict =
    | Answer(content: string, ran: bool, decision: Option<bool>)
    | NeedsApproval

  /** Everything an invocation learns from outside: the model's reply per turn, the verdict on call
      `i` of a turn and the clock then, the result of the i-th approved call, whether the grant
      request is valid, and the summariser's text. */
  datatype World = World(
    reply: nat -> Reply,
    verdict: (nat, nat) -> Verdict,
    now: (nat, nat) -> nat,
    executed: nat -> string,
    grantOk: bool,
    summary: Option<string>)

  datatype Config = Config(
    maxTurns: nat,
    limits: Gate.Limits,
    triggerTokens: nat)

  datatype Continuation = Prompt(text: string) | Approve | Retry

  datatype Invocation = Invocation(cont: Continuation, cfg: Config, world: World)

  const KEEP_RECENT_RECORDS_TARGET: nat := 10
  const RETAINED_TAIL_MAX_CHARS: nat := 250_000
  const RECORDS_TOTAL_MAX_CHARS: nat := 250_000
  const CONVERSATION_PRUNE_TRIGGER_BYTES: nat := 100 * 1024 * 1024

  const RESUME_PROMPT := "Continue from where you left off."
  const RESUME_AFTER_MAX_TURNS := "Your previous turn was cut off because the tool-call loop hit its turn limit."
  const RESUME_NUDGE_PROMPT := "Your previous turn ended without any output, which means the work was left unfinished."
  const SCRATCHPAD_NOTE := "# Working notes"
  const BATCHING_NOTE := "# Tool call batching"

  const TURN_LIMIT_ERROR := "turn_tool_call_limit_exceeded"
  const RATE_ERROR := "tool_call_rate_exceeded"
  const UNKNOWN_TOOL_ERROR := "unknown_tool"
  const COMMAND_ARGS_ERROR := "command_args"

  // ---- session state ----

  datatype ToolKind = ReadOnlyTool | PatchTool | CommandTool | UnknownTool

  function Classify(name: string): ToolKind {
    if name == "list" || name == "read" || name == "search" then ReadOnlyTool
    else if name == "patch" then PatchTool
    else if name == "command" then CommandTool
    else UnknownTool
  }

  datatype Pending = Pending(id: string, kind: ToolKind, name: string, args: string)

  datatype Event = Ran(id: string) | Answered(id: string)

  /** A request as sent: the messages, the log at that moment, the conversation part of the list the
      invocation repaired before its first request, and whether its records still reach the log. */
  datatype Sent = Sent(msgs: seq<Msg>, log: seq<Stamped>, base: seq<Msg>, attached: bool)

  /** `log`, the file the loaders read, and `pending` are on disk; `stamps` counts clock readings and
      `messages` is in memory. `attached` tells whether the append handle an invocation opens once still is
      the file on the log's path. The rest records the whole session: requests sent, tools run and calls
      answered, ids called. */
  datatype St = St(
    log: seq<Stamped>,
    pending: Option<seq<Pending>>,
    stamps: nat,
    messages: seq<Msg>,
    sent: seq<Sent>,
    hist: seq<Event>,
    called: seq<string>,
    attached: bool)

  const EMPTY := St([], None, 0, [], [], [], [], false)

  /** `Session::open`: the handle is the file now on the path. */
  function Open(st: St): St { st.(attached := true) }

  /** A write through the append handle; once the file on the path is another one, it is lost. */
  function Write(st: St, recs: seq<Stamped>): St {
    if st.attached then st.(log := st.log + recs) else st
  }

  function Append(k: Site, st: St, rec: Record): St {
    Write(st, [Stamped(k.clock(st.stamps), rec)]).(stamps := st.stamps + 1)
  }

  /** Append a message to the log and to the list in memory. */
  function AppendMsg(k: Site, st: St, m: Msg): St {
    Append(k, st, Message(m)).(messages := st.messages + [m])
  }

  function AppendTool(k: Site, st: St, id: string, content: string): St {
    AppendMsg(k, st, Tool(id, content)).(hist := st.hist + [Answered(id)])
  }

  // ---- loading ----

  function Prefix(log: seq<Stamped>): seq<Msg> {
    var summary := LatestSummary(log);
    (if summary.Some? then [System("# Prior conversation summary\n\n" + summary.value)] else []) +
    [System(SCRATCHPAD_NOTE), System(BATCHING_NOTE)]
  }

  function Conversation(log: seq<Stamped>): seq<Msg> { Msgs(Load(log)) }

  function InitialMessages(log: seq<Stamped>): seq<Msg> { Prefix(log) + Conversation(log) }

  // ---- repair ----

  /** Persist one cancellation, dropping the pending set it belongs to. */
  function HealOne(k: Site, st: St, o: Orphan): St {
    var bypassed := st.pending.Some? && exists p :: p in st.pending.value && p.id == o.id;
    var st1 := if bypassed then st.(pending := None) else st;
    var st2 := Append(k, st1, ToolApproval(o.id, false, true));
    Append(k, st2, Message(Tool(o.id, o.content))).(hist := st.hist + [Answered(o.id)])
  }

  function Heal(k: Site, st: St, orphans: seq<Orphan>): St
    decreases |orphans|
  {
    if orphans == [] then st else Heal(k, HealOne(k, st, orphans[0]), orphans[1..])
  }

  function RepairOrphans(k: Site, st: St): St {
    var r := Repair(st.messages);
    Heal(k, st, r.orphans).(messages := r.msgs)
  }

  // ---- compaction before a fresh prompt ----

  function Lines(k: Site, log: seq<Stamped>): (lines: seq<Line>)
    ensures |lines| == |log|
    ensures forall i :: 0 <= i < |log| ==> lines[i] == Render(log[i].rec, k.lineBytes(log[i].rec))
  {
    seq(|log|, i requires 0 <= i < |log| => Render(log[i].rec, k.lineBytes(log[i].rec)))
  }

  /** How many records a prune removes: those before the first safe line at or past the midpoint, once the
      file is over the trigger size. */
  function CutAt(k: Site, log: seq<Stamped>): (i: nat)
    ensures i < |log| || i == 0
  {
    var lines := Lines(k, log);
    var size := Offset(lines, |lines|);
    if size <= CONVERSATION_PRUNE_TRIGGER_BYTES then 0
    else
      var i := FirstCut(lines, 0, size / 2);
      if i == |log| || Offset(lines, i) == 0 then 0 else i
  }

  /** `maybe_prune_conversation`: a cut puts a new file on the path, and the handle keeps the old one. */
  function PruneLog(k: Site, st: St): St {
    var i := CutAt(k, st.log);
    if i == 0 then st else st.(log := st.log[i..], attached := false)
  }

  /** One more than its length for every record: the size the second trigger looks at. */
  function TotalChars(ms: seq<Msg>): nat { TotalLen(ms) + |ms| }

  function ShouldCompact(latest: nat, totalChars: nat, trigger: nat): bool {
    latest >= trigger || totalChars > RECORDS_TOTAL_MAX_CHARS
  }

  /** Fold the older records into a summary when the history is too large. */
  function Compact(k: Site, st: St, cfg: Config, w: World): St {
    var tokens := LatestPromptTokens(st.log);
    var latest := if tokens.Some? then tokens.value else 0;
    var records := Load(st.log);
    var totalChars := if latest < cfg.triggerTokens then TotalChars(Msgs(records)) else 0;
    if !ShouldCompact(latest, totalChars, cfg.triggerTokens) then st
    else
      var cut := CompactionCutoff(Msgs(records), KEEP_RECENT_RECORDS_TARGET, RETAINED_TAIL_MAX_CHARS);
      if cut.None? || w.summary.None? then st
      else Append(k, st, Summary(records[cut.value - 1].ts, w.summary.value))
  }

  function AutoCompact(k: Site, st: St, cfg: Config, w: World): St {
    if st.pending.Some? then st
    else Compact(k, PruneLog(k, st), cfg, w)
  }

  // ---- dispatching the calls of one turn ----

  datatype Effect = Skip | Respond(content: string, ran: bool, decision: Option<bool>) | Park(kind: ToolKind)

  /** What happens to an admitted call; `suspending` once an earlier call of the turn was parked. */
  function EffectOf(k: Site, call: ToolCall, v: Verdict, suspending: bool): Effect {
    match Classify(call.name)
    case ReadOnlyTool =>
      if suspending then Skip
      else if v.NeedsApproval? then Park(ReadOnlyTool) else Respond(v.content, v.ran, None)
    case PatchTool =>
      if v.NeedsApproval? then Park(PatchTool)
      else if suspending then Skip else Respond(v.content, v.ran, None)
    case CommandTool =>
      if !k.commandParses(call.args) then
        if suspending then Skip else Respond(COMMAND_ARGS_ERROR, false, None)
      else if v.NeedsApproval? then Park(CommandTool)
      else if suspending then Skip else Respond(v.content, v.ran && v.decision != Some(false), v.decision)
    case UnknownTool =>
      if suspending then Skip else Respond(UNKNOWN_TOOL_ERROR, false, None)
  }

  function ApplyEffect(k: Site, st: St, call: ToolCall, e: Effect): St {
    match e
    case Respond(content, ran, decision) =>
      var st1 := if decision.Some? then Append(k, st, ToolApproval(call.id, decision.value, false)) else st;
      var st2 := if ran then st1.(hist := st1.hist + [Ran(call.id)]) else st1;
      AppendTool(k, st2, call.id, content)
    case _ => st
  }

  datatype Dispatched = Dispatched(st: St, gate: Gate.Counts, parked: seq<Pending>, exhausted: bool)

  function DispatchFrom(k: Site, d: Dispatched, cfg: Config, w: World, turn: nat, calls: seq<ToolCall>,
                        i: nat): Dispatched
    requires i <= |calls|
    decreases |calls| - i
  {
    if i == |calls| || d.exhausted then d
    else DispatchFrom(k, DispatchOne(k, d, cfg, w, turn, calls[i], i), cfg, w, turn, calls, i + 1)
  }

  function DispatchOne(k: Site, d: Dispatched, cfg: Config, w: World, turn: nat, call: ToolCall, i: nat): Dispatched {
    var (gate, decision) := Gate.Admit(cfg.limits, d.gate, w.now(turn, i));
    match decision
    case TurnLimitExceeded => d.(gate := gate, st := AppendTool(k, d.st, call.id, TURN_LIMIT_ERROR))
    case RateLimitExceeded => d.(gate := gate, st := AppendTool(k, d.st, call.id, RATE_ERROR))
    case SessionExhausted => d.(gate := gate, exhausted := true)
    case Proceed =>
      var e := EffectOf(k, call, w.verdict(turn, i), d.parked != []);
      d.(gate := gate, st := ApplyEffect(k, d.st, call, e),
         parked := if e.Park? then d.parked + [Pending(call.id, e.kind, call.name, call.args)] else d.parked)
  }

  // ---- the model-call loop ----

  /** The assistant record, the usage record, and the list in memory after a reply. */
  function RecordReply(k: Site, st: St, r: Reply): St
    requires r.Reply?
  {
    var a := Assistant(r.content, r.calls);
    var st1 := Append(k, st, Message(a)).(called := st.called + Ids(r.calls));
    var st2 := if r.usage.Some? then Append(k, st1, TokenUsage(r.usage.value)) else st1;
    st2.(messages := st2.messages + [a])
  }

  datatype Loop = Loop(st: St, gate: Gate.Counts, turn: nat, retried: bool)

  datatype TurnResult = Ended(end: St, reason: EndReason) | Again(next: Loop)

  function EndState(t: TurnResult): St {
    match t case Ended(st, _) => st case Again(l) => l.st
  }

  function Send(st: St, base: seq<Msg>): St {
    st.(sent := st.sent + [Sent(st.messages, st.log, base, st.attached)])
  }

  /** One pass of the loop: send the list, record the reply, dispatch its calls. */
  function Turn(k: Site, l: Loop, cfg: Config, w: World, byApprove: bool, base: seq<Msg>): TurnResult {
    var st := Send(l.st, base);
    var gate := Gate.BeginTurn(l.gate);
    match w.reply(l.turn)
    case TransportFault => Ended(st, TransportError)
    case HttpFault => Ended(st, Failed)
    case Reply(content, calls, usage) =>
      var st1 := RecordReply(k, st, Reply(content, calls, usage));
      if calls == [] then
        if byApprove && Blank(content) && !l.retried then
          Again(Loop(AppendMsg(k, st1, User(RESUME_NUDGE_PROMPT)), gate, l.turn + 1, true))
        else Ended(st1, Completed)
      else
        var d := DispatchFrom(k, Dispatched(st1, gate, [], false), cfg, w, l.turn, calls, 0);
        if d.exhausted then Ended(d.st, SessionToolCallExhausted)
        else if d.parked != [] then Ended(d.st.(pending := Some(d.parked)), AwaitingApproval)
        else Again(Loop(d.st, d.gate, l.turn + 1, l.retried))
  }

  function Turns(k: Site, l: Loop, cfg: Config, w: World, byApprove: bool, base: seq<Msg>): (St, EndReason)
    decreases cfg.maxTurns - l.turn
  {
    if l.turn >= cfg.maxTurns then (l.st, MaxTurns)
    else
      match Turn(k, l, cfg, w, byApprove, base)
      case Ended(st, reason) => (st, reason)
      case Again(next) => Turns(k, next, cfg, w, byApprove, base)
  }

  // ---- one invocation ----

  function ResumePromptFor(last: Option<EndReason>): string {
    if last == Some(MaxTurns) then RESUME_AFTER_MAX_TURNS else RESUME_PROMPT
  }

  /** What a pending-free approve becomes. */
  function Normalise(st: St, cont: Continuation): Continuation {
    if cont != Approve || st.pending.Some? then cont
    else if LastEnd(st.log) == Some(TransportError) then Retry
    else Prompt(ResumePromptFor(LastEnd(st.log)))
  }

  /** Run the approved calls from the i-th on; stops at a command whose arguments do not parse. */
  function Execute(k: Site, st: St, w: World, ps: seq<Pending>, i: nat): (St, bool)
    requires i <= |ps|
    decreases |ps| - i
  {
    if i == |ps| then (st, true)
    else
      var p := ps[i];
      var st1 := Append(k, st, ToolApproval(p.id, true, false));
      if p.kind == CommandTool && !k.commandParses(p.args) then (st1, false)
      else
        var st2 := st1.(hist := st1.hist + [Ran(p.id)]);
        Execute(k, AppendTool(k, st2, p.id, w.executed(i)), w, ps, i + 1)
  }

  /** The conversation part of a message list: what follows the system messages. */
  function AfterPrefix(log: seq<Stamped>, messages: seq<Msg>): seq<Msg> {
    if |Prefix(log)| <= |messages| then messages[|Prefix(log)|..] else []
  }

  /** Up to the first request: the state, the conversation that was repaired, and whether the loop
      is entered. */
  function Start(k: Site, st: St, inv: Invocation): (St, seq<Msg>, bool) {
    var cont := Normalise(st, inv.cont);
    var st1 := if inv.cont.Prompt? then AutoCompact(k, st, inv.cfg, inv.world) else st;
    var st2 := st1.(messages := InitialMessages(st1.log));
    match cont
    case Approve =>
      if !inv.world.grantOk || st2.pending.None? then (st2, [], false)
      else
        var (st3, ok) := Execute(k, st2, inv.world, st2.pending.value, 0);
        if !ok then (st3, [], false)
        else (RepairOrphans(k, st3.(pending := None)), AfterPrefix(st3.log, st3.messages), true)
    case Retry =>
      (RepairOrphans(k, st2), Conversation(st2.log), true)
    case Prompt(text) =>
      (AppendMsg(k, RepairOrphans(k, st2), User(text)), Conversation(st2.log), true)
  }

  function Drive(k: Site, st: St, inv: Invocation): (St, EndReason) {
    var (st1, base, ready) := Start(k, st, inv);
    if !ready then (st1, Failed)
    else Turns(k, Loop(st1, Gate.NEW, 0, false), inv.cfg, inv.world, inv.cont.Approve?, base)
  }

  /** The two closing records, which share one clock reading. */
  function Close(k: Site, st: St, reason: EndReason): St {
    var end := k.clock(st.stamps);
    Write(st, [Stamped(end, MetricsSnapshot), Stamped(end, InvocationEnd(reason))]).(stamps := st.stamps + 1)
  }

  /** Where an invocation starts from: the log opened, the start record written. */
  function Begun(k: Site, st: St): St { Append(k, Open(st), InvocationStart) }

  function Invoke(k: Site, st: St, inv: Invocation): (St, EndReason) {
    var (st1, reason) := Drive(k, Begun(k, st), inv);
    (Close(k, st1, reason), reason)
  }

  /** A whole session: any sequence of invocations. */
  function Session(k: Site, invs: seq<Invocation>): St {
    if invs == [] then EMPTY
    else Invoke(k, Session(k, invs[..|invs| - 1]), invs[|invs| - 1]).0
  }
}
