/** Exact sums over sequences (JavaScript `reduce((a, x) => a + f(x), 0)` and `forEach` folds). */
module Sums {

  function SumBy<T>(s: seq<T>, f: T -> real): real {
    if s == [] then 0.0 else f(s[0]) + SumBy(s[1..], f)
  }

  lemma {:induction false} SumByAppend<T>(a: seq<T>, b: seq<T>, f: T -> real)
    ensures SumBy(a + b, f) == SumBy(a, f) + SumBy(b, f)
  {
    if a == [] {
      assert a + b == b;
    } else {
      assert (a + b)[0] == a[0];
      assert (a + b)[1..] == a[1..] + b;
      SumByAppend(a[1..], b, f);
    }
  }

  /** Adding one more element at the end, the step a left-to-right loop takes. */
  lemma SumBySnoc<T>(s: seq<T>, x: T, f: T -> real)
    ensures SumBy(s + [x], f) == SumBy(s, f) + f(x)
  {
    SumByAppend(s, [x], f);
  }

  /** The order of the summands does not matter: a permutation has the same sum. */
  lemma {:induction false} SumByPermutation<T>(a: seq<T>, b: seq<T>, f: T -> real)
    requires multiset(a) == multiset(b)
    ensures SumBy(a, f) == SumBy(b, f)
    decreases |a|
  {
    if a == [] {
      assert |multiset(b)| == 0;
      assert b == [];
    } else {
      var x := a[0];
      assert a == [x] + a[1..];
      assert x in multiset(b);
      var j :| 0 <= j < |b| && b[j] == x;
      var rest := b[..j] + b[j + 1..];
      assert b == b[..j] + [x] + b[j + 1..];
      SumByAppend(b[..j] + [x], b[j + 1..], f);
      SumByAppend(b[..j], [x], f);
      SumByAppend(b[..j], b[j + 1..], f);
      assert SumBy([x], f) == f(x);
      assert multiset(b) == multiset(b[..j]) + multiset{x} + multiset(b[j + 1..]);
      assert multiset(a) == multiset{x} + multiset(a[1..]);
      assert multiset(rest) == multiset(b[..j]) + multiset(b[j + 1..]);
      calc {
        multiset(a[1..]);
        multiset(a) - multiset{x};
        multiset(b) - multiset{x};
        multiset(rest);
      }
      SumByPermutation(a[1..], rest, f);
    }
  }

  lemma {:induction false} SumByNonNegative<T>(s: seq<T>, f: T -> real)
    requires forall i :: 0 <= i < |s| ==> f(s[i]) >= 0.0
    ensures SumBy(s, f) >= 0.0
  {
    if s != [] {
      assert forall i :: 0 <= i < |s[1..]| ==> s[1..][i] == s[i + 1];
      SumByNonNegative(s[1..], f);
    }
  }

  lemma {:induction false} SumByNonPositive<T>(s: seq<T>, f: T -> real)
    requires forall i :: 0 <= i < |s| ==> f(s[i]) <= 0.0
    ensures SumBy(s, f) <= 0.0
  {
    if s != [] {
      assert forall i :: 0 <= i < |s[1..]| ==> s[1..][i] == s[i + 1];
      SumByNonPositive(s[1..], f);
    }
  }

  /** Two summand functions that agree on every element give the same sum. */
  lemma {:induction false} SumByPointwise<T>(s: seq<T>, f: T -> real, g: T -> real)
    requires forall i :: 0 <= i < |s| ==> f(s[i]) == g(s[i])
    ensures SumBy(s, f) == SumBy(s, g)
  {
    if s != [] {
      assert forall i :: 0 <= i < |s[1..]| ==> s[1..][i] == s[i + 1];
      SumByPointwise(s[1..], f, g);
    }
  }

  /** Summing `f + g` elementwise is summing `f` and `g` separately. */
  lemma {:induction false} SumByAdd<T>(s: seq<T>, f: T -> real, g: T -> real, h: T -> real)
    requires forall i :: 0 <= i < |s| ==> h(s[i]) == f(s[i]) + g(s[i])
    ensures SumBy(s, h) == SumBy(s, f) + SumBy(s, g)
  {
    if s != [] {
      assert forall i :: 0 <= i < |s[1..]| ==> s[1..][i] == s[i + 1];
      SumByAdd(s[1..], f, g, h);
    }
  }
}
