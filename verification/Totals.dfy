/** Sums over a list of processes. */
module Totals {

  function Total<T>(s: seq<T>, f: T -> nat): nat {
    if s == [] then 0 else Total(s[..|s| - 1], f) + f(s[|s| - 1])
  }

  lemma {:induction false} TotalUpdate<T>(s: seq<T>, i: nat, x: T, f: T -> nat)
    requires i < |s|
    ensures Total(s[i := x], f) + f(s[i]) == Total(s, f) + f(x)
  {
    var n := |s| - 1;
    if i == n {
      assert s[i := x][..n] == s[..n];
    } else {
      assert s[i := x][..n] == s[..n][i := x];
      TotalUpdate(s[..n], i, x, f);
    }
  }

  lemma {:induction false} TotalAtLeast<T>(s: seq<T>, i: nat, f: T -> nat)
    requires i < |s|
    ensures Total(s, f) >= f(s[i])
  {
    if i < |s| - 1 {
      TotalAtLeast(s[..|s| - 1], i, f);
    }
  }

  lemma {:induction false} TotalAtLeastTwo<T>(s: seq<T>, i: nat, j: nat, f: T -> nat)
    requires i < j < |s|
    ensures Total(s, f) >= f(s[i]) + f(s[j])
  {
    if j < |s| - 1 {
      TotalAtLeastTwo(s[..|s| - 1], i, j, f);
    } else {
      TotalAtLeast(s[..|s| - 1], i, f);
    }
  }

  lemma {:induction false} TotalSame<T>(s: seq<T>, t: seq<T>, f: T -> nat)
    requires |s| == |t| && forall i :: 0 <= i < |s| ==> f(s[i]) == f(t[i])
    ensures Total(s, f) == Total(t, f)
  {
    if s != [] {
      TotalSame(s[..|s| - 1], t[..|t| - 1], f);
    }
  }

  lemma {:induction false} TotalAtMost<T>(s: seq<T>, f: T -> nat)
    requires forall i :: 0 <= i < |s| ==> f(s[i]) <= 1
    ensures Total(s, f) <= |s|
  {
    if s != [] {
      TotalAtMost(s[..|s| - 1], f);
    }
  }

  /** A positive total comes from somebody. */
  lemma {:induction false} TotalWitness<T>(s: seq<T>, f: T -> nat) returns (i: nat)
    requires Total(s, f) > 0
    ensures i < |s| && f(s[i]) > 0
  {
    var n := |s| - 1;
    if f(s[n]) > 0 {
      i := n;
    } else {
      i := TotalWitness(s[..n], f);
    }
  }
}
