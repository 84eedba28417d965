/** The byte search behind patch edits: counting, finding and replacing an occurrence. */
module ByteSearch {
  import opened Options
  import opened Invocations

  /** The needle stands at position `i`; an empty needle stands nowhere. */
  predicate OccursAt(h: Bytes, n: Bytes, i: nat) {
    n != [] && i + |n| <= |h| && h[i..i + |n|] == n
  }

  /** Leftmost occurrence from `i` on. */
  function FindFrom(h: Bytes, n: Bytes, i: nat): (p: Option<nat>)
    ensures p.Some? ==> i <= p.value && OccursAt(h, n, p.value)
    ensures p.Some? ==> forall j: nat :: i <= j < p.value ==> !OccursAt(h, n, j)
    ensures p.None? ==> forall j: nat :: i <= j ==> !OccursAt(h, n, j)
    decreases |h| - i
  {
    if i >= |h| then None else if OccursAt(h, n, i) then Some(i) else FindFrom(h, n, i + 1)
  }

  function Find(h: Bytes, n: Bytes): Option<nat> { FindFrom(h, n, 0) }

  /** Greedy count from `i` on: step over a match, else one byte further. */
  function CountFrom(h: Bytes, n: Bytes, i: nat): nat
    decreases |h| - i
  {
    if i >= |h| then 0
    else if OccursAt(h, n, i) then 1 + CountFrom(h, n, i + |n|)
    else CountFrom(h, n, i + 1)
  }

  function Count(h: Bytes, n: Bytes): nat { CountFrom(h, n, 0) }

  /** The leftmost occurrence replaced, the bytes before and after it untouched. */
  function Replace(h: Bytes, n: Bytes, r: Bytes): Bytes {
    var p := Find(h, n);
    if p.None? then h else h[..p.value] + r + h[p.value + |n|..]
  }

  // ---- the loops ----

  lemma {:induction false} TooShort(h: Bytes, n: Bytes, i: nat)
    requires n == [] || i + |n| > |h|
    ensures CountFrom(h, n, i) == 0 && FindFrom(h, n, i) == None
    decreases |h| - i
  {
    if i < |h| { TooShort(h, n, i + 1); }
  }

  /** `count_occurrences`. */
  method CountOccurrences(h: Bytes, n: Bytes) returns (count: nat)
    ensures count == Count(h, n)
  {
    TooShort(h, n, if |h| < |n| || n == [] then 0 else |h|);
    if n == [] || |h| < |n| { return 0; }
    count := 0;
    var i := 0;
    while i + |n| <= |h|
      invariant Count(h, n) == count + CountFrom(h, n, i)
      decreases |h| - i
    {
      if h[i..i + |n|] == n {
        assert OccursAt(h, n, i);
        count := count + 1;
        i := i + |n|;
      } else {
        i := i + 1;
      }
    }
    TooShort(h, n, i);
  }

  /** `position`. */
  method Position(h: Bytes, n: Bytes) returns (p: Option<nat>)
    ensures p == Find(h, n)
  {
    if n == [] || |h| < |n| {
      TooShort(h, n, 0);
      return None;
    }
    for i := 0 to |h| - |n| + 1
      invariant Find(h, n) == FindFrom(h, n, i)
    {
      if h[i..i + |n|] == n { return Some(i); }
    }
    TooShort(h, n, |h| - |n| + 1);
    return None;
  }

  /** `replace_once`. */
  method ReplaceOnce(h: Bytes, n: Bytes, r: Bytes) returns (out: Bytes)
    ensures out == Replace(h, n, r)
  {
    var p := Position(h, n);
    if p.None? { return h; }
    out := h[..p.value];
    out := out + r;
    out := out + h[p.value + |n|..];
  }

  // ---- counting is optimal ----

  /** Occurrences that do not overlap, from `i` on. */
  ghost predicate Packing(h: Bytes, n: Bytes, i: nat, s: set<nat>) {
    && (forall x :: x in s ==> i <= x && OccursAt(h, n, x))
    && (forall x, y :: x in s && y in s && x < y ==> x + |n| <= y)
  }

  /** Without a member that starts inside a window as long as the needle, a packing starts after it. */
  lemma PackingAfter(h: Bytes, n: Bytes, i: nat, s: set<nat>, x: nat)
    requires Packing(h, n, i, s) && x in s && x < i + |n|
    ensures Packing(h, n, i + |n|, s - {x})
  {
    hide OccursAt;
    forall y | y in s - {x} ensures i + |n| <= y {
      assert y < x ==> y + |n| <= x;
      assert x < y ==> x + |n| <= y;
    }
  }

  lemma PackingLater(h: Bytes, n: Bytes, i: nat, j: nat, s: set<nat>)
    requires Packing(h, n, i, s) && i <= j && forall x :: x in s ==> j <= x
    ensures Packing(h, n, j, s)
  {
    hide OccursAt;
  }

  lemma NoPacking(h: Bytes, n: Bytes, i: nat, s: set<nat>)
    requires Packing(h, n, i, s) && i >= |h|
    ensures s == {}
  {
    assert forall x :: x in s ==> OccursAt(h, n, x);
    assert s == {};
  }

  /** No set of non-overlapping occurrences is larger than the greedy count. */
  lemma {:induction false} GreedyBounds(h: Bytes, n: Bytes, i: nat, s: set<nat>)
    requires Packing(h, n, i, s)
    ensures |s| <= CountFrom(h, n, i)
    decreases |h| - i
  {
    hide OccursAt, Packing;
    if i >= |h| {
      NoPacking(h, n, i, s);
    } else if OccursAt(h, n, i) {
      NeedleSome(h, n, i);
      if x :| x in s && x < i + |n| {
        PackingAfter(h, n, i, s, x);
        GreedyBounds(h, n, i + |n|, s - {x});
      } else {
        PackingLater(h, n, i, i + |n|, s);
        GreedyBounds(h, n, i + |n|, s);
      }
    } else {
      forall x | x in s ensures i + 1 <= x { MemberOccurs(h, n, i, s, x); }
      PackingLater(h, n, i, i + 1, s);
      GreedyBounds(h, n, i + 1, s);
    }
  }

  lemma NeedleSome(h: Bytes, n: Bytes, i: nat)
    requires OccursAt(h, n, i)
    ensures |n| > 0
  {
  }

  lemma MemberOccurs(h: Bytes, n: Bytes, i: nat, s: set<nat>, x: nat)
    requires Packing(h, n, i, s) && x in s
    ensures i <= x && OccursAt(h, n, x)
  {
  }

  /** And one of that size exists. */
  lemma {:induction false} GreedyPacks(h: Bytes, n: Bytes, i: nat) returns (s: set<nat>)
    ensures Packing(h, n, i, s) && |s| == CountFrom(h, n, i)
    decreases |h| - i
  {
    if i >= |h| {
      s := {};
    } else if OccursAt(h, n, i) {
      var rest := GreedyPacks(h, n, i + |n|);
      s := rest + {i};
    } else {
      s := GreedyPacks(h, n, i + 1);
    }
  }

  /** `count_occurrences` is the largest number of occurrences no two of which overlap. */
  lemma CountIsMaximum(h: Bytes, n: Bytes)
    ensures forall s :: Packing(h, n, 0, s) ==> |s| <= Count(h, n)
    ensures exists s :: Packing(h, n, 0, s) && |s| == Count(h, n)
  {
    forall s | Packing(h, n, 0, s) ensures |s| <= Count(h, n) { GreedyBounds(h, n, 0, s); }
    var s := GreedyPacks(h, n, 0);
    assert Packing(h, n, 0, s) && |s| == Count(h, n);
  }

  /** The count is zero exactly when there is no occurrence. */
  lemma CountZeroIff(h: Bytes, n: Bytes)
    ensures Count(h, n) == 0 <==> Find(h, n).None?
  {
    var p := Find(h, n);
    if p.Some? {
      assert Packing(h, n, 0, {p.value});
      GreedyBounds(h, n, 0, {p.value});
    } else {
      var s := GreedyPacks(h, n, 0);
      assert forall x :: x in s ==> OccursAt(h, n, x);
      assert s == {};
    }
  }

  lemma {:induction false} AtMostOne(s: set<nat>)
    requires forall x, y :: x in s && y in s ==> x == y
    ensures |s| <= 1
  {
    if x :| x in s { assert s == {x}; }
  }

  /** Occurrences inside one window as long as the needle all overlap. */
  lemma WindowHoldsOne(h: Bytes, n: Bytes, s: set<nat>, p: nat)
    requires Packing(h, n, 0, s) && forall x :: x in s ==> p <= x < p + |n|
    ensures |s| <= 1
  {
    hide OccursAt;
    AtMostOne(s);
  }

  lemma TwoApart(h: Bytes, n: Bytes, p: nat, j: nat)
    requires OccursAt(h, n, p) && OccursAt(h, n, j) && p + |n| <= j
    ensures Count(h, n) >= 2
  {
    var s := {p, j};
    assert Packing(h, n, 0, s);
    assert |s| == 2;
    GreedyBounds(h, n, 0, s);
  }

  /** The count is one exactly when there is an occurrence and every occurrence overlaps the leftmost. */
  lemma CountOneIff(h: Bytes, n: Bytes)
    ensures Count(h, n) == 1 <==>
      Find(h, n).Some? && forall j: nat :: OccursAt(h, n, j) ==> Find(h, n).value <= j < Find(h, n).value + |n|
  {
    hide OccursAt;
    CountZeroIff(h, n);
    var p := Find(h, n);
    if p.Some? {
      if j: nat :| OccursAt(h, n, j) && !(p.value <= j < p.value + |n|) {
        TwoApart(h, n, p.value, j);
      } else {
        var s := GreedyPacks(h, n, 0);
        WindowHoldsOne(h, n, s, p.value);
      }
    }
  }

  // ---- one match and a unique match ----

  predicate Unique(h: Bytes, n: Bytes) {
    Find(h, n).Some? && forall j :: 0 <= j < |h| && OccursAt(h, n, j) ==> j == Find(h, n).value
  }

  /** The needle overlaps itself when shifted by some distance. */
  predicate Bordered(n: Bytes) { exists k :: 0 < k < |n| && n[k..] == n[..|n| - k] }

  lemma UniqueCountsOnce(h: Bytes, n: Bytes)
    requires Unique(h, n)
    ensures Count(h, n) == 1
  {
    forall j: nat | OccursAt(h, n, j) ensures j == Find(h, n).value { assert j < |h|; }
    CountOneIff(h, n);
  }

  lemma OverlapBorders(h: Bytes, n: Bytes, i: nat, j: nat)
    requires OccursAt(h, n, i) && OccursAt(h, n, j) && i < j < i + |n|
    ensures Bordered(n)
  {
    var k := j - i;
    assert n[k..] == h[i..i + |n|][k..] == h[j..i + |n|];
    assert n[..|n| - k] == h[j..j + |n|][..|n| - k] == h[j..i + |n|];
  }

  /** A border at shift `k` makes two overlapping occurrences that count as one. */
  lemma BorderFoolsCount(n: Bytes, k: nat)
    requires 0 < k < |n| && n[k..] == n[..|n| - k]
    ensures Count(n[..k] + n, n) == 1 && !Unique(n[..k] + n, n)
  {
    var h := n[..k] + n;
    assert OccursAt(h, n, k) by { assert h[k..k + |n|] == n; }
    assert OccursAt(h, n, 0) by {
      assert h[..|n|] == n[..k] + n[..|n| - k];
      assert n == n[..k] + n[k..];
    }
    assert Find(h, n) == Some(0);
    assert CountFrom(h, n, 0) == 1 + CountFrom(h, n, |n|);
    TooShort(h, n, |n|);
  }

  /** A unique occurrence always counts one; a count of one means a unique occurrence in every haystack if and
      only if the needle does not overlap itself. */
  lemma OneMeansUniqueIff(n: Bytes)
    ensures forall h :: Unique(h, n) ==> Count(h, n) == 1
    ensures (forall h :: Count(h, n) == 1 ==> Unique(h, n)) <==> !Bordered(n)
  {
    forall h | Unique(h, n) ensures Count(h, n) == 1 { UniqueCountsOnce(h, n); }
    if Bordered(n) {
      var k :| 0 < k < |n| && n[k..] == n[..|n| - k];
      BorderFoolsCount(n, k);
    } else {
      forall h | Count(h, n) == 1 ensures Unique(h, n) {
        CountOneIff(h, n);
        var p := Find(h, n).value;
        if j :| 0 <= j < |h| && OccursAt(h, n, j) && j != p { OverlapBorders(h, n, p, j); }
      }
    }
  }

  // ---- replacing ----

  /** What `replace_once` keeps: everything before and after the leftmost occurrence, byte for byte; and
      the edit can be undone at the same place. */
  lemma ReplaceKeepsTheRest(h: Bytes, n: Bytes, r: Bytes)
    requires Find(h, n).Some?
    ensures
      var p := Find(h, n).value;
      var out := Replace(h, n, r);
      && |out| == |h| - |n| + |r|
      && out[..p] == h[..p]
      && out[p..p + |r|] == r
      && out[p + |r|..] == h[p + |n|..]
      && out[..p] + n + out[p + |r|..] == h
  {
    var p := Find(h, n).value;
    assert h == h[..p] + h[p..p + |n|] + h[p + |n|..];
  }
}
