/** Counting the elements of a sequence that satisfy a predicate. */
module Tallies {
  function Tally<T>(p: T -> bool, s: seq<T>): (n: nat)
    ensures n <= |s|
  {
    if s == [] then 0 else (if p(s[0]) then 1 else 0) + Tally(p, s[1..])
  }

  lemma {:induction false} TallyAppend<T>(p: T -> bool, a: seq<T>, b: seq<T>)
    ensures Tally(p, a + b) == Tally(p, a) + Tally(p, b)
  {
    if a == [] {
      assert a + b == b;
    } else {
      assert (a + b)[1..] == a[1..] + b;
      TallyAppend(p, a[1..], b);
    }
  }

  lemma {:induction false} TallyUpdate<T>(p: T -> bool, s: seq<T>, i: nat, x: T)
    requires i < |s|
    ensures Tally(p, s[i := x]) + (if p(s[i]) then 1 else 0) == Tally(p, s) + (if p(x) then 1 else 0)
  {
    if i > 0 {
      assert s[i := x][1..] == s[1..][i - 1 := x];
      TallyUpdate(p, s[1..], i - 1, x);
    }
  }

  lemma {:induction false} TallyZero<T>(p: T -> bool, s: seq<T>)
    ensures Tally(p, s) == 0 <==> forall i :: 0 <= i < |s| ==> !p(s[i])
  {
    if s != [] {
      TallyZero(p, s[1..]);
      assert forall i :: 1 <= i < |s| ==> s[i] == s[1..][i - 1];
      assert forall i :: 0 <= i < |s| - 1 ==> s[1..][i] == s[i + 1];
    }
  }
}
