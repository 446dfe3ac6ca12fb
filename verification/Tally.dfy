/** Sums of a weight over a sequence of thread positions, and how one update changes them. */
module Tally {

  function Sum<T>(s: seq<T>, f: T -> int): int
  {
    if s == [] then 0 else f(s[0]) + Sum(s[1..], f)
  }

  lemma {:induction false} SumUpdate<T>(s: seq<T>, i: nat, v: T, f: T -> int)
    requires i < |s|
    ensures Sum(s[i := v], f) == Sum(s, f) - f(s[i]) + f(v)
  {
    if i == 0 {
      assert s[i := v][1..] == s[1..];
    } else {
      assert s[i := v][1..] == s[1..][i - 1 := v];
      SumUpdate(s[1..], i - 1, v, f);
    }
  }

  lemma {:induction false} SumNonNegative<T>(s: seq<T>, f: T -> int)
    requires forall i | 0 <= i < |s| :: f(s[i]) >= 0
    ensures Sum(s, f) >= 0
  {
    if s != [] {
      forall i | 0 <= i < |s[1..]| ensures f(s[1..][i]) >= 0 {
        assert s[1..][i] == s[i + 1];
      }
      SumNonNegative(s[1..], f);
    }
  }

  /** A sum of non-negative weights is at least any one of them. */
  lemma {:induction false} SumAtLeast<T>(s: seq<T>, i: nat, f: T -> int)
    requires i < |s|
    requires forall j | 0 <= j < |s| :: f(s[j]) >= 0
    ensures Sum(s, f) >= f(s[i])
  {
    forall j | 0 <= j < |s[1..]| ensures f(s[1..][j]) >= 0 {
      assert s[1..][j] == s[j + 1];
    }
    if i == 0 {
      SumNonNegative(s[1..], f);
    } else {
      SumAtLeast(s[1..], i - 1, f);
    }
  }

  lemma {:induction false} SumUniform<T>(s: seq<T>, f: T -> int, c: int)
    requires forall i | 0 <= i < |s| :: f(s[i]) == c
    ensures Sum(s, f) == c * |s|
  {
    if s != [] {
      forall i | 0 <= i < |s[1..]| ensures f(s[1..][i]) == c {
        assert s[1..][i] == s[i + 1];
      }
      SumUniform(s[1..], f, c);
    }
  }

  /** A sum of non-negative weights is at least any two of them. */
  lemma SumAtLeastTwo<T>(s: seq<T>, i: nat, j: nat, zero: T, f: T -> int)
    requires i < |s| && j < |s| && i != j && f(zero) == 0
    requires forall k | 0 <= k < |s| :: f(s[k]) >= 0
    ensures Sum(s, f) >= f(s[i]) + f(s[j])
  {
    SumUpdate(s, i, zero, f);
    SumAtLeast(s[i := zero], j, f);
  }
}
