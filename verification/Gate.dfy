/** `ToolCallGate`: the per-turn, sliding-window and invocation caps on tool calls. */
module Gate {
  import opened Options

  datatype RateLimit = RateLimit(calls: nat, window: nat)

  datatype Limits = Limits(turnLimit: nat, rate: Option<RateLimit>, sessionMax: Option<nat>)

  datatype Decision = Proceed | TurnLimitExceeded | RateLimitExceeded | SessionExhausted

  datatype Counts = Counts(turn: nat, recent: seq<nat>, session: nat)

  const NEW := Counts(0, [], 0)

  /** The oldest time still in the window. `checked_sub` falls back to `now` when the clock reads
      less than the window. */
  function WindowStart(window: nat, now: nat): nat {
    if now >= window then now - window else now
  }

  function Expire(recent: seq<nat>, start: nat): seq<nat> {
    if recent != [] && recent[0] < start then Expire(recent[1..], start) else recent
  }

  function Admit(l: Limits, g: Counts, now: nat): (Counts, Decision) {
    if g.turn >= l.turnLimit then (g, TurnLimitExceeded)
    else
      var g1 := if l.rate.Some? then g.(recent := Expire(g.recent, WindowStart(l.rate.value.window, now))) else g;
      if l.rate.Some? && |g1.recent| >= l.rate.value.calls then (g1, RateLimitExceeded)
      else if l.sessionMax.Some? && g1.session >= l.sessionMax.value then (g1, SessionExhausted)
      else (Counts(g1.turn + 1, if l.rate.Some? then g1.recent + [now] else g1.recent, g1.session + 1), Proceed)
  }

  function BeginTurn(g: Counts): Counts { g.(turn := 0) }

  class ToolCallGate {
    const limits: Limits
    var turnCount: nat
    var rateDeque: seq<nat>
    var sessionCount: nat

    function Value(): Counts reads this { Counts(turnCount, rateDeque, sessionCount) }

    constructor (limits: Limits)
      ensures this.limits == limits && Value() == NEW
    {
      this.limits := limits;
      turnCount, rateDeque, sessionCount := 0, [], 0;
    }

    method NewTurn()
      modifies this
      ensures Value() == BeginTurn(old(Value()))
    {
      turnCount := 0;
    }

    method TryAdmit(now: nat) returns (d: Decision)
      modifies this
      ensures (Value(), d) == Admit(limits, old(Value()), now)
    {
      if turnCount >= limits.turnLimit { return TurnLimitExceeded; }
      if limits.rate.Some? {
        var start := WindowStart(limits.rate.value.window, now);
        while rateDeque != [] && rateDeque[0] < start
          invariant turnCount == old(turnCount) && sessionCount == old(sessionCount)
          invariant Expire(old(rateDeque), start) == Expire(rateDeque, start)
          decreases |rateDeque|
        {
          rateDeque := rateDeque[1..];
        }
        if |rateDeque| >= limits.rate.value.calls { return RateLimitExceeded; }
      }
      if limits.sessionMax.Some? && sessionCount >= limits.sessionMax.value { return SessionExhausted; }
      turnCount := turnCount + 1;
      sessionCount := sessionCount + 1;
      if limits.rate.Some? { rateDeque := rateDeque + [now]; }
      return Proceed;
    }
  }

  // ---- runs ----

  datatype Op = Turn | Call(now: nat)

  /** What happened: the state, the admission times of the whole run and of the current turn. */
  datatype Run = Run(g: Counts, admitted: seq<nat>, inTurn: nat)

  function Step(l: Limits, r: Run, op: Op): Run {
    match op
    case Turn => Run(BeginTurn(r.g), r.admitted, 0)
    case Call(now) =>
      var (g, d) := Admit(l, r.g, now);
      if d == Proceed then Run(g, r.admitted + [now], r.inTurn + 1) else r.(g := g)
  }

  function After(l: Limits, ops: seq<Op>): Run {
    if ops == [] then Run(NEW, [], 0) else Step(l, After(l, ops[..|ops| - 1]), ops[|ops| - 1])
  }

  function Times(ops: seq<Op>): seq<nat> {
    if ops == [] then []
    else Times(ops[..|ops| - 1]) + (if ops[|ops| - 1].Call? then [ops[|ops| - 1].now] else [])
  }

  /** The clock never runs backwards and reads at least the window, or one less. */
  predicate Clocked(l: Limits, ops: seq<Op>) {
    var ts := Times(ops);
    && (forall i, j :: 0 <= i < j < |ts| ==> ts[i] <= ts[j])
    && (l.rate.Some? ==> forall t :: t in ts ==> t + 1 >= l.rate.value.window)
  }

  predicate Ascending(s: seq<nat>) { forall i, j :: 0 <= i < j < |s| ==> s[i] <= s[j] }

  /** The deque is the admissions from the `k`-th on; those before lie outside the window of every
      time from `t` on. */
  predicate Tracks(l: Limits, r: Run, k: nat, t: nat)
    requires l.rate.Some?
  {
    && k <= |r.admitted| && r.g.recent == r.admitted[k..]
    && (forall i :: 0 <= i < k ==> r.admitted[i] + l.rate.value.window < t)
    && Ascending(r.admitted)
    && (forall i :: 0 <= i < |r.admitted| ==> r.admitted[i] <= t && r.admitted[i] + 1 >= l.rate.value.window)
  }

  lemma {:induction false} ExpireIs(recent: seq<nat>, start: nat) returns (drop: nat)
    requires Ascending(recent)
    ensures drop <= |recent| && Expire(recent, start) == recent[drop..]
    ensures forall i :: 0 <= i < drop ==> recent[i] < start
    ensures forall i :: drop <= i < |recent| ==> recent[i] >= start
  {
    if recent != [] && recent[0] < start {
      var rest := recent[1..];
      var d := ExpireIs(rest, start);
      drop := d + 1;
      assert forall i :: 1 <= i < |recent| ==> recent[i] == rest[i - 1];
    } else {
      drop := 0;
    }
  }

  function InWindow(admitted: seq<nat>, start: int): nat {
    if admitted == [] then 0
    else InWindow(admitted[..|admitted| - 1], start) + (if admitted[|admitted| - 1] >= start then 1 else 0)
  }

  lemma {:induction false} InWindowSplit(admitted: seq<nat>, k: nat, start: int)
    requires k <= |admitted|
    requires forall i :: 0 <= i < k ==> admitted[i] < start
    requires forall i :: k <= i < |admitted| ==> admitted[i] >= start
    ensures InWindow(admitted, start) == |admitted| - k
  {
    if admitted != [] {
      var n := |admitted| - 1;
      InWindowSplit(admitted[..n], if k <= n then k else n, start);
    }
  }

  /** Expiry keeps exactly the admissions inside the window. */
  lemma ExpireTracks(l: Limits, r: Run, k: nat, t: nat, now: nat) returns (k': nat)
    requires l.rate.Some? && Tracks(l, r, k, t) && t <= now && now + 1 >= l.rate.value.window
    ensures k' <= |r.admitted|
    ensures Expire(r.g.recent, WindowStart(l.rate.value.window, now)) == r.admitted[k'..]
    ensures forall i :: 0 <= i < k' ==> r.admitted[i] + l.rate.value.window < now
    ensures forall i :: k' <= i < |r.admitted| ==> r.admitted[i] >= now - l.rate.value.window
  {
    var start := WindowStart(l.rate.value.window, now);
    assert Ascending(r.g.recent);
    var drop := ExpireIs(r.g.recent, start);
    k' := k + drop;
    assert r.admitted[k..][drop..] == r.admitted[k'..];
    assert forall i :: 0 <= i < |r.g.recent| ==> r.g.recent[i] == r.admitted[k + i];
    assert forall i :: k <= i < |r.admitted| ==> r.admitted[i] == r.g.recent[i - k];
  }

  function LastTime(ops: seq<Op>): nat {
    if Times(ops) == [] then 0 else Times(ops)[|Times(ops)| - 1]
  }

  lemma ClockedPrefix(l: Limits, ops: seq<Op>, op: Op)
    requires Clocked(l, ops + [op])
    ensures Clocked(l, ops)
    ensures After(l, ops + [op]) == Step(l, After(l, ops), op)
    ensures op.Call? ==> LastTime(ops) <= op.now == LastTime(ops + [op])
    ensures op.Call? && l.rate.Some? ==> l.rate.value.window <= op.now + 1
    ensures op.Turn? ==> LastTime(ops) == LastTime(ops + [op])
  {
    var all := ops + [op];
    assert all[..|all| - 1] == ops;
    var ts, ts' := Times(all), Times(ops);
    assert ts == ts' + (if op.Call? then [op.now] else []);
    assert forall i :: 0 <= i < |ts'| ==> ts'[i] == ts[i];
    assert forall t :: t in ts' ==> t in ts;
    if op.Call? { assert ts[|ts'|] == op.now && op.now in ts; }
  }

  lemma {:induction false} RunTracks(l: Limits, ops: seq<Op>) returns (k: nat)
    requires Clocked(l, ops) && l.rate.Some?
    ensures Tracks(l, After(l, ops), k, LastTime(ops))
  {
    k := 0;
    if ops != [] {
      var before, op := ops[..|ops| - 1], ops[|ops| - 1];
      assert ops == before + [op];
      ClockedPrefix(l, before, op);
      k := RunTracks(l, before);
      if op.Call? { k := StepTracks(l, After(l, before), k, LastTime(before), op.now); }
    }
  }

  lemma StepTracks(l: Limits, r: Run, k: nat, t: nat, now: nat) returns (k': nat)
    requires l.rate.Some? && Tracks(l, r, k, t) && t <= now && now + 1 >= l.rate.value.window
    ensures Tracks(l, Step(l, r, Call(now)), k', now)
  {
    if Admit(l, r.g, now).1 == TurnLimitExceeded { return k; }
    k' := ExpireTracks(l, r, k, t, now);
    hide Expire, WindowStart;
    if Admit(l, r.g, now).1 == Proceed { AscendingPush(r.admitted, k', now); }
  }

  lemma AscendingPush(s: seq<nat>, k: nat, now: nat)
    requires Ascending(s) && k <= |s| && forall i :: 0 <= i < |s| ==> s[i] <= now
    ensures Ascending(s + [now]) && (s + [now])[k..] == s[k..] + [now]
  {
  }

  /** The rate cap over every run: more than the window elapses between any admission and the
      `calls`-th admission after it. */
  lemma {:induction false} RateCapHolds(l: Limits, ops: seq<Op>, i: nat)
    requires Clocked(l, ops) && l.rate.Some?
    requires i + l.rate.value.calls < |After(l, ops).admitted|
    ensures After(l, ops).admitted[i + l.rate.value.calls] - After(l, ops).admitted[i] > l.rate.value.window
  {
    var before, op := ops[..|ops| - 1], ops[|ops| - 1];
    assert ops == before + [op];
    ClockedPrefix(l, before, op);
    var calls := l.rate.value.calls;
    var r := After(l, before);
    if i + calls < |r.admitted| {
      RateCapHolds(l, before, i);
    } else {
      var k := RunTracks(l, before);
      k := ExpireTracks(l, r, k, LastTime(before), op.now);
      assert |r.admitted| - k < calls;
    }
  }

  /** A call is rejected by the rate cap exactly when the turn has room and `calls` admissions already
      lie in the closed window; otherwise the session cap decides. */
  lemma DecisionIff(l: Limits, ops: seq<Op>, now: nat)
    requires Clocked(l, ops + [Call(now)])
    ensures
      var r := After(l, ops);
      var d := Admit(l, r.g, now).1;
      var full := l.rate.Some? && InWindow(r.admitted, now - l.rate.value.window) >= l.rate.value.calls;
      && (d == TurnLimitExceeded <==> r.inTurn >= l.turnLimit)
      && (d == RateLimitExceeded <==> r.inTurn < l.turnLimit && full)
      && (d == SessionExhausted <==>
            r.inTurn < l.turnLimit && !full && l.sessionMax.Some? && |r.admitted| >= l.sessionMax.value)
  {
    ClockedPrefix(l, ops, Call(now));
    CapsHold(l, ops);
    if l.rate.Some? { DequeIsWindow(l, ops, now); }
  }

  /** When a call is judged, the deque holds as many admissions as lie in the window. */
  lemma DequeIsWindow(l: Limits, ops: seq<Op>, now: nat)
    requires l.rate.Some? && Clocked(l, ops + [Call(now)])
    ensures
      var r := After(l, ops);
      |Expire(r.g.recent, WindowStart(l.rate.value.window, now))| == InWindow(r.admitted, now - l.rate.value.window)
  {
    ClockedPrefix(l, ops, Call(now));
    var k := RunTracks(l, ops);
    var r := After(l, ops);
    k := ExpireTracks(l, r, k, LastTime(ops), now);
    InWindowSplit(r.admitted, k, now - l.rate.value.window);
  }

  /** The counters count: admissions of the turn and of the invocation never exceed their caps. */
  lemma {:induction false} CapsHold(l: Limits, ops: seq<Op>)
    ensures
      var r := After(l, ops);
      && r.g.turn == r.inTurn <= l.turnLimit
      && r.g.session == |r.admitted|
      && (l.sessionMax.Some? ==> |r.admitted| <= l.sessionMax.value)
  {
    if ops != [] { CapsHold(l, ops[..|ops| - 1]); }
  }

  lemma {:induction false} ExpireTwice(recent: seq<nat>, a: nat, b: nat)
    requires a <= b
    ensures Expire(Expire(recent, a), b) == Expire(recent, b)
  {
    if recent != [] && recent[0] < a { ExpireTwice(recent[1..], a, b); }
  }

  // ---- rejections consume nothing ----

  /** The decision a call would meet after a run. */
  function Judged(l: Limits, ops: seq<Op>, now: nat): Decision { Admit(l, After(l, ops).g, now).1 }

  /** A run without some of its rejected calls: those at the positions `drop` picks. */
  function Thinned(l: Limits, ops: seq<Op>, drop: nat -> bool): seq<Op> {
    if ops == [] then []
    else
      var before, op := ops[..|ops| - 1], ops[|ops| - 1];
      Thinned(l, before, drop) +
        if op.Call? && Judged(l, before, op.now) != Proceed && drop(|before|) then [] else [op]
  }

  /** The start of the window, from the beginning of time on. */
  function Begin(window: nat, t: nat): nat { if t >= window then t - window else 0 }

  predicate OldEnough(l: Limits, recent: seq<nat>) {
    l.rate.Some? ==> forall t :: t in recent ==> t + 1 >= l.rate.value.window
  }

  lemma {:induction false} ExpireNone(recent: seq<nat>, start: nat)
    requires forall t :: t in recent ==> t >= start
    ensures Expire(recent, start) == recent
  {
    if recent != [] { assert recent[0] in recent; }
  }

  /** On a clock that reads at least the window, or one less, the fallback of `WindowStart` expires nothing. */
  lemma StartIsBegin(l: Limits, recent: seq<nat>, now: nat)
    requires l.rate.Some? && OldEnough(l, recent) && now + 1 >= l.rate.value.window
    ensures Expire(recent, WindowStart(l.rate.value.window, now)) == Expire(recent, Begin(l.rate.value.window, now))
  {
    if now < l.rate.value.window {
      ExpireNone(recent, now);
      ExpireNone(recent, 0);
    }
  }

  lemma {:induction false} ExpireMembers(recent: seq<nat>, start: nat)
    ensures forall t :: t in Expire(recent, start) ==> t in recent
  {
    if recent != [] && recent[0] < start { ExpireMembers(recent[1..], start); }
  }

  /** Indistinguishable from time `t` on: the same counts, and the same deque once expired. */
  predicate Alike(l: Limits, a: Counts, b: Counts, t: nat) {
    && a.turn == b.turn && a.session == b.session
    && OldEnough(l, a.recent) && OldEnough(l, b.recent)
    && (l.rate.Some? ==>
          Expire(a.recent, Begin(l.rate.value.window, t)) == Expire(b.recent, Begin(l.rate.value.window, t)))
  }

  predicate Late(l: Limits, t: nat) { l.rate.Some? ==> l.rate.value.window <= t + 1 }

  lemma AlikeLater(l: Limits, a: Counts, b: Counts, t: nat, now: nat)
    requires Alike(l, a, b, t) && t <= now
    ensures Alike(l, a, b, now)
  {
    if l.rate.Some? {
      var w := l.rate.value.window;
      ExpireTwice(a.recent, Begin(w, t), Begin(w, now));
      ExpireTwice(b.recent, Begin(w, t), Begin(w, now));
    }
  }

  /** Alike states decide alike and stay alike; and a rejection stays like the state it was made in. */
  lemma AlikeAdmit(l: Limits, a: Counts, b: Counts, now: nat)
    requires Alike(l, a, b, now) && Late(l, now)
    ensures
      var (a', d) := Admit(l, a, now);
      var (b', e) := Admit(l, b, now);
      d == e && Alike(l, a', b', now) && (d != Proceed ==> Alike(l, a', b, now))
  {
    if l.rate.Some? {
      var start := Begin(l.rate.value.window, now);
      StartIsBegin(l, a.recent, now);
      StartIsBegin(l, b.recent, now);
      ExpireTwice(a.recent, start, start);
      ExpireTwice(b.recent, start, start);
      ExpireMembers(a.recent, start);
      ExpireMembers(b.recent, start);
    }
  }

  lemma ThinnedSnoc(l: Limits, ops: seq<Op>, op: Op, drop: nat -> bool)
    ensures Thinned(l, ops + [op], drop) == Thinned(l, ops, drop) +
      if op.Call? && Judged(l, ops, op.now) != Proceed && drop(|ops|) then [] else [op]
  {
    assert (ops + [op])[..|ops|] == ops;
  }

  lemma AfterSnoc(l: Limits, ops: seq<Op>, op: Op)
    ensures After(l, ops + [op]) == Step(l, After(l, ops), op)
  {
    assert (ops + [op])[..|ops|] == ops;
  }

  /** The two runs after the same prefix: equal admissions, alike states. */
  predicate Matched(l: Limits, a: Run, b: Run, t: nat) {
    a.admitted == b.admitted && a.inTurn == b.inTurn && Alike(l, a.g, b.g, t)
  }

  lemma MatchedCall(l: Limits, a: Run, b: Run, t: nat, now: nat)
    requires Matched(l, a, b, t) && t <= now && Late(l, now)
    ensures Matched(l, Step(l, a, Call(now)), Step(l, b, Call(now)), now)
    ensures Admit(l, a.g, now).1 == Admit(l, b.g, now).1
    ensures Admit(l, a.g, now).1 != Proceed ==> Matched(l, Step(l, a, Call(now)), b, now)
  {
    hide Admit, Alike;
    AlikeLater(l, a.g, b.g, t, now);
    AlikeAdmit(l, a.g, b.g, now);
  }

  lemma MatchedTurn(l: Limits, a: Run, b: Run, t: nat)
    requires Matched(l, a, b, t)
    ensures Matched(l, Step(l, a, Turn), Step(l, b, Turn), t)
  {
  }

  lemma {:induction false} ThinnedMatches(l: Limits, ops: seq<Op>, drop: nat -> bool)
    requires Clocked(l, ops)
    ensures Matched(l, After(l, ops), After(l, Thinned(l, ops, drop)), LastTime(ops))
    decreases |ops|
  {
    hide Matched, Step, After, Thinned, Admit;
    if ops == [] {
      NothingMatches(l, drop);
    } else {
      var before, op := ops[..|ops| - 1], ops[|ops| - 1];
      assert ops == before + [op];
      ClockedPrefix(l, before, op);
      ThinnedMatches(l, before, drop);
      ThinnedSnoc(l, before, op, drop);
      var a, thin := After(l, before), Thinned(l, before, drop);
      AfterSnoc(l, thin, op);
      if op.Call? { MatchedCall(l, a, After(l, thin), LastTime(before), op.now); }
      else { MatchedTurn(l, a, After(l, thin), LastTime(before)); }
      assert thin + [] == thin;
    }
  }

  lemma NothingMatches(l: Limits, drop: nat -> bool)
    ensures Matched(l, After(l, []), After(l, Thinned(l, [], drop)), LastTime([]))
  {
  }

  /** A rejection consumes nothing: erase any rejected calls from a run, and the admissions, the turn count
      and the decision on every call after it are what they were. Being about every run, it is about the
      decision on each call of a run as well. */
  lemma RejectionConsumesNothing(l: Limits, ops: seq<Op>, drop: nat -> bool, now: nat)
    requires Clocked(l, ops + [Call(now)])
    ensures
      var r, thin := After(l, ops), After(l, Thinned(l, ops, drop));
      && thin.admitted == r.admitted && thin.inTurn == r.inTurn
      && Judged(l, Thinned(l, ops, drop), now) == Judged(l, ops, now)
  {
    hide Matched, Step, After, Thinned, Admit;
    ClockedPrefix(l, ops, Call(now));
    ThinnedMatches(l, ops, drop);
    MatchedCall(l, After(l, ops), After(l, Thinned(l, ops, drop)), LastTime(ops), now);
    MatchedParts(l, After(l, ops), After(l, Thinned(l, ops, drop)), LastTime(ops));
  }

  lemma MatchedParts(l: Limits, a: Run, b: Run, t: nat)
    requires Matched(l, a, b, t)
    ensures a.admitted == b.admitted && a.inTurn == b.inTurn
  {
  }

  // ---- the clock the rate cap needs ----

  /** The clock never runs backwards and reads at least `c`. */
  predicate ClockedFrom(c: nat, ops: seq<Op>) {
    var ts := Times(ops);
    (forall i, j :: 0 <= i < j < |ts| ==> ts[i] <= ts[j]) && forall t :: t in ts ==> t >= c
  }

  /** More than the window elapses between any admission and the `calls`-th after it. */
  predicate CapKept(l: Limits, ops: seq<Op>)
    requires l.rate.Some?
  {
    var admitted, calls := After(l, ops).admitted, l.rate.value.calls;
    forall i :: 0 <= i < |admitted| - calls ==> admitted[i + calls] - admitted[i] > l.rate.value.window
  }

  /** `turns` turns of one call each, all at time `c`. */
  function Burst(c: nat, turns: nat): seq<Op> {
    if turns == 0 then [] else Burst(c, turns - 1) + [Turn, Call(c)]
  }

  lemma TimesTwo(ops: seq<Op>, now: nat)
    ensures Times(ops + [Turn, Call(now)]) == Times(ops) + [now]
  {
    var all := ops + [Turn, Call(now)];
    assert all[..|all| - 1] == ops + [Turn] && (ops + [Turn])[..|ops|] == ops;
    assert Times(ops + [Turn]) == Times(ops) + [];
  }

  lemma AfterTwo(l: Limits, ops: seq<Op>, now: nat)
    ensures After(l, ops + [Turn, Call(now)]) == Step(l, Step(l, After(l, ops), Turn), Call(now))
  {
    assert ops + [Turn, Call(now)] == (ops + [Turn]) + [Call(now)];
    AfterSnoc(l, ops, Turn);
    AfterSnoc(l, ops + [Turn], Call(now));
  }

  function Copies(c: nat, n: nat): seq<nat> { seq(n, _ => c) }

  lemma {:induction false} ExpireCopies(c: nat, n: nat, start: nat)
    ensures Expire(Copies(c, n), start) == if c < start then [] else Copies(c, n)
  {
    if n > 0 {
      assert Copies(c, n)[1..] == Copies(c, n - 1);
      ExpireCopies(c, n - 1, start);
    }
  }

  lemma {:induction false} BurstAdmits(l: Limits, c: nat, n: nat)
    requires l.rate.Some? && n <= l.rate.value.calls && l.turnLimit >= 1
    requires l.sessionMax.Some? ==> n <= l.sessionMax.value
    ensures After(l, Burst(c, n)).admitted == Copies(c, n) && After(l, Burst(c, n)).g.recent == Copies(c, n)
    ensures After(l, Burst(c, n)).g.session == n && Times(Burst(c, n)) == Copies(c, n)
  {
    if n > 0 {
      BurstAdmits(l, c, n - 1);
      AfterTwo(l, Burst(c, n - 1), c);
      TimesTwo(Burst(c, n - 1), c);
      ExpireCopies(c, n - 1, WindowStart(l.rate.value.window, c));
      assert Copies(c, n) == Copies(c, n - 1) + [c];
    }
  }

  /** One tick later, below the window, the whole burst has expired. */
  lemma BurstThenOne(l: Limits, c: nat)
    requires l.rate.Some? && l.rate.value.calls >= 1 && l.turnLimit >= 1 && c + 1 < l.rate.value.window
    requires l.sessionMax.Some? ==> l.rate.value.calls < l.sessionMax.value
    ensures
      var ops := Burst(c, l.rate.value.calls) + [Turn, Call(c + 1)];
      ClockedFrom(c, ops) && !CapKept(l, ops)
  {
    var calls := l.rate.value.calls;
    var burst := Burst(c, calls);
    BurstAdmits(l, c, calls);
    AfterTwo(l, burst, c + 1);
    TimesTwo(burst, c + 1);
    ExpireCopies(c, calls, WindowStart(l.rate.value.window, c + 1));
    var admitted := After(l, burst + [Turn, Call(c + 1)]).admitted;
    assert admitted == Copies(c, calls) + [c + 1];
    assert admitted[0 + calls] - admitted[0] == 1;
  }

  /** With a clock that never reads less than the window minus one, nothing expires early. */
  lemma {:induction false} CapKeptFrom(l: Limits, c: nat, ops: seq<Op>)
    requires l.rate.Some? && ClockedFrom(c, ops) && c + 1 >= l.rate.value.window
    ensures CapKept(l, ops)
  {
    var calls := l.rate.value.calls;
    var r := After(l, ops);
    forall i | 0 <= i < |r.admitted| - calls ensures r.admitted[i + calls] - r.admitted[i] > l.rate.value.window {
      RateCapHolds(l, ops, i);
    }
  }

  /** The rate cap needs exactly this of the clock: for limits with any room, every run whose times never
      decrease and never fall below `c` keeps the cap if and only if `c` is at least the window minus one.
      Below that, `checked_sub` falls back to now and every earlier admission expires at once. */
  lemma CapNeedsClockIff(l: Limits, c: nat)
    requires l.rate.Some? && l.rate.value.calls >= 1 && l.turnLimit >= 1
    requires l.sessionMax.Some? ==> l.rate.value.calls < l.sessionMax.value
    ensures (forall ops :: ClockedFrom(c, ops) ==> CapKept(l, ops)) <==> c + 1 >= l.rate.value.window
  {
    if c + 1 < l.rate.value.window {
      BurstThenOne(l, c);
    } else {
      forall ops | ClockedFrom(c, ops) ensures CapKept(l, ops) { CapKeptFrom(l, c, ops); }
    }
  }
}
