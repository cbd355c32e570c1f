/** How many elements of a sequence satisfy a predicate, and how an update changes that. */
module Counting {

  function Count<T>(p: T -> bool, s: seq<T>): nat
  {
    if s == [] then 0 else Count(p, s[..|s| - 1]) + (if p(s[|s| - 1]) then 1 else 0)
  }

  function Bit(b: bool): nat {
    if b then 1 else 0
  }

  lemma {:induction false} CountBound<T>(p: T -> bool, s: seq<T>)
    ensures Count(p, s) <= |s|
  {
    if s == [] {
    } else {
      CountBound(p, s[..|s| - 1]);
    }
  }

  lemma {:induction false} CountUpdate<T>(p: T -> bool, s: seq<T>, i: nat, x: T)
    requires i < |s|
    ensures Count(p, s[i := x]) == Count(p, s) - Bit(p(s[i])) + Bit(p(x))
  {
    var n := |s| - 1;
    if i < n {
      CountUpdate(p, s[..n], i, x);
      assert s[i := x][..n] == s[..n][i := x];
    } else {
      assert s[i := x][..n] == s[..n];
    }
  }

  lemma CountAppend<T>(p: T -> bool, s: seq<T>, x: T)
    ensures Count(p, s + [x]) == Count(p, s) + Bit(p(x))
  {
    assert (s + [x])[..|s|] == s;
  }

  /** A count below the length leaves an element out. */
  lemma {:induction false} CountMissing<T>(p: T -> bool, s: seq<T>) returns (i: nat)
    requires Count(p, s) < |s|
    ensures i < |s| && !p(s[i])
  {
    var n := |s| - 1;
    if p(s[n]) { i := CountMissing(p, s[..n]); } else { i := n; }
  }

  /** A positive count has a witness. */
  lemma {:induction false} CountWitness<T>(p: T -> bool, s: seq<T>) returns (i: nat)
    requires 0 < Count(p, s)
    ensures i < |s| && p(s[i])
  {
    var n := |s| - 1;
    if p(s[n]) { i := n; } else { i := CountWitness(p, s[..n]); }
  }

  lemma {:induction false} CountAll<T>(p: T -> bool, s: seq<T>)
    requires forall i :: 0 <= i < |s| ==> p(s[i])
    ensures Count(p, s) == |s|
  {
    if s == [] {
    } else {
      CountAll(p, s[..|s| - 1]);
    }
  }

  lemma {:induction false} CountNone<T>(p: T -> bool, s: seq<T>)
    requires forall i :: 0 <= i < |s| ==> !p(s[i])
    ensures Count(p, s) == 0
  {
    if s == [] {
    } else {
      CountNone(p, s[..|s| - 1]);
    }
  }

  function Sum<T>(w: T -> nat, s: seq<T>): nat
  {
    if s == [] then 0 else Sum(w, s[..|s| - 1]) + w(s[|s| - 1])
  }

  lemma {:induction false} SumUpdate<T>(w: T -> nat, s: seq<T>, i: nat, x: T)
    requires i < |s|
    ensures Sum(w, s[i := x]) == Sum(w, s) - w(s[i]) + w(x)
  {
    var n := |s| - 1;
    if i < n {
      SumUpdate(w, s[..n], i, x);
      assert s[i := x][..n] == s[..n][i := x];
    } else {
      assert s[i := x][..n] == s[..n];
    }
  }

  lemma SumAppend<T>(w: T -> nat, s: seq<T>, x: T)
    ensures Sum(w, s + [x]) == Sum(w, s) + w(x)
  {
    assert (s + [x])[..|s|] == s;
  }

  lemma {:induction false} CountFirst<T>(p: T -> bool, s: seq<T>)
    requires s != []
    ensures Count(p, s) == Bit(p(s[0])) + Count(p, s[1..])
  {
    var n := |s| - 1;
    if n == 0 {
    } else {
      CountFirst(p, s[..n]);
      assert s[..n][1..] == s[1..][..n - 1];
    }
  }

  lemma {:induction false} AllCounted<T>(p: T -> bool, s: seq<T>, i: nat)
    requires Count(p, s) >= |s| && i < |s|
    ensures p(s[i])
  {
    CountBound(p, s[..|s| - 1]);
    if i < |s| - 1 { AllCounted(p, s[..|s| - 1], i); }
  }
}
