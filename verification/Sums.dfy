/** Weighted sums over table rows: the one arithmetic tool the ledger laws need. */
module Sums {

  function Min(a: int, b: int): int { if a <= b then a else b }

  function Max(a: int, b: int): int { if a >= b then a else b }

  /** The total weight of the first n rows. */
  function SumTo<T>(s: seq<T>, f: T -> int, n: nat): int
    requires n <= |s|
  {
    if n == 0 then 0 else SumTo(s, f, n - 1) + f(s[n - 1])
  }

  /** The total weight of a sequence of rows. */
  function Sum<T>(s: seq<T>, f: T -> int): int { SumTo(s, f, |s|) }

  lemma {:induction false} SumToSame<T, U>(s: seq<T>, f: T -> int, t: seq<U>, g: U -> int, n: nat)
    requires n <= |s| && n <= |t|
    requires forall i | 0 <= i < n :: f(s[i]) == g(t[i])
    ensures SumTo(s, f, n) == SumTo(t, g, n)
  {
    if n > 0 { SumToSame(s, f, t, g, n - 1); }
  }

  /** Two tables whose rows weigh the same pairwise have the same total. */
  lemma SumSame<T, U>(s: seq<T>, f: T -> int, t: seq<U>, g: U -> int)
    requires |s| == |t|
    requires forall i | 0 <= i < |s| :: f(s[i]) == g(t[i])
    ensures Sum(s, f) == Sum(t, g)
  {
    SumToSame(s, f, t, g, |s|);
  }

  lemma SumAppend<T>(s: seq<T>, x: T, f: T -> int)
    ensures Sum(s + [x], f) == Sum(s, f) + f(x)
  {
    SumToSame(s + [x], f, s, f, |s|);
  }

  lemma {:induction false} SumConcat<T>(s: seq<T>, t: seq<T>, f: T -> int)
    ensures Sum(s + t, f) == Sum(s, f) + Sum(t, f)
  {
    if t == [] {
      assert s + t == s;
    } else {
      var front, last := t[..|t| - 1], t[|t| - 1];
      assert s + t == (s + front) + [last];
      assert t == front + [last];
      SumAppend(s + front, last, f);
      SumAppend(front, last, f);
      SumConcat(s, front, f);
    }
  }

  lemma SumPrepend<T>(x: T, s: seq<T>, f: T -> int)
    ensures Sum([x] + s, f) == f(x) + Sum(s, f)
  {
    SumConcat([x], s, f);
    SumAppend([], x, f);
    assert [] + [x] == [x];
  }

  lemma {:induction false} SumToUpdate<T>(s: seq<T>, i: nat, x: T, f: T -> int, n: nat)
    requires i < n <= |s|
    ensures SumTo(s[i := x], f, n) == SumTo(s, f, n) - f(s[i]) + f(x)
  {
    if i == n - 1 {
      SumToSame(s[i := x], f, s, f, i);
    } else {
      SumToUpdate(s, i, x, f, n - 1);
    }
  }

  lemma SumUpdate<T>(s: seq<T>, i: nat, x: T, f: T -> int)
    requires i < |s|
    ensures Sum(s[i := x], f) == Sum(s, f) - f(s[i]) + f(x)
  {
    SumToUpdate(s, i, x, f, |s|);
  }

  lemma {:induction false} SumToAtMost<T, U>(s: seq<T>, f: T -> int, t: seq<U>, g: U -> int, n: nat)
    requires n <= |s| && n <= |t|
    requires forall i | 0 <= i < n :: f(s[i]) <= g(t[i])
    ensures SumTo(s, f, n) <= SumTo(t, g, n)
  {
    if n > 0 { SumToAtMost(s, f, t, g, n - 1); }
  }

  lemma SumAtMost<T, U>(s: seq<T>, f: T -> int, t: seq<U>, g: U -> int)
    requires |s| == |t|
    requires forall i | 0 <= i < |s| :: f(s[i]) <= g(t[i])
    ensures Sum(s, f) <= Sum(t, g)
  {
    SumToAtMost(s, f, t, g, |s|);
  }

  lemma {:induction false} SumToSplit<T, U>(t: seq<U>, h: U -> int, s: seq<T>, f: T -> int, g: T -> int, n: nat)
    requires n <= |s| && n <= |t|
    requires forall i | 0 <= i < n :: h(t[i]) == f(s[i]) + g(s[i])
    ensures SumTo(t, h, n) == SumTo(s, f, n) + SumTo(s, g, n)
  {
    if n > 0 { SumToSplit(t, h, s, f, g, n - 1); }
  }

  /** A weight that splits row by row splits in total. */
  lemma SumSplit<T, U>(t: seq<U>, h: U -> int, s: seq<T>, f: T -> int, g: T -> int)
    requires |s| == |t|
    requires forall i | 0 <= i < |s| :: h(t[i]) == f(s[i]) + g(s[i])
    ensures Sum(t, h) == Sum(s, f) + Sum(s, g)
  {
    SumToSplit(t, h, s, f, g, |s|);
  }

  lemma {:induction false} SumToNonNegative<T>(s: seq<T>, f: T -> int, n: nat)
    requires n <= |s|
    requires forall i | 0 <= i < n :: f(s[i]) >= 0
    ensures SumTo(s, f, n) >= 0
    ensures forall i | 0 <= i < n :: f(s[i]) <= SumTo(s, f, n)
  {
    if n > 0 { SumToNonNegative(s, f, n - 1); }
  }

  lemma SumNonNegative<T>(s: seq<T>, f: T -> int)
    requires forall i | 0 <= i < |s| :: f(s[i]) >= 0
    ensures Sum(s, f) >= 0
    ensures forall i | 0 <= i < |s| :: f(s[i]) <= Sum(s, f)
  {
    SumToNonNegative(s, f, |s|);
  }

  lemma {:induction false} SumToZero<T>(s: seq<T>, f: T -> int, n: nat)
    requires n <= |s|
    requires forall i | 0 <= i < n :: f(s[i]) == 0
    ensures SumTo(s, f, n) == 0
  {
    if n > 0 { SumToZero(s, f, n - 1); }
  }

  lemma SumZero<T>(s: seq<T>, f: T -> int)
    requires forall i | 0 <= i < |s| :: f(s[i]) == 0
    ensures Sum(s, f) == 0
  {
    SumToZero(s, f, |s|);
  }

  /** Rows added at the end that weigh nothing leave the total alone. */
  lemma {:induction false} SumGrow<T>(s: seq<T>, s': seq<T>, f: T -> int, n: nat)
    requires |s| <= n <= |s'|
    requires forall i | 0 <= i < |s| :: f(s'[i]) == f(s[i])
    requires forall i | |s| <= i < n :: f(s'[i]) == 0
    ensures SumTo(s', f, n) == Sum(s, f)
  {
    if n == |s| {
      SumToSame(s', f, s, f, n);
    } else {
      SumGrow(s, s', f, n - 1);
    }
  }
}
