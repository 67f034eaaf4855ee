/** Exact real arithmetic: products behind a name, and finite sums. */
module Reals {

  /** A product whose users see only the bounds they need. */
  function Times(p: real, a: real): (r: real)
    ensures 0.0 <= a && 0.0 <= p <= 1.0 ==> 0.0 <= r <= a
    ensures 0.0 <= a && 0.0 <= p ==> 0.0 <= r
  {
    p * a
  }

  lemma TimesAdd(p: real, a: real, b: real)
    ensures Times(p, a + b) == Times(p, a) + Times(p, b)
  {
  }

  lemma TimesMonotone(p: real, a: real, b: real)
    requires 0.0 <= p && a <= b
    ensures Times(p, a) <= Times(p, b)
  {
    TimesAdd(p, a, b - a);
    assert Times(p, b - a) >= 0.0;
    assert a + (b - a) == b;
  }

  lemma TimesPositive(p: real, a: real)
    requires p > 0.0 && a > 0.0
    ensures Times(p, a) > 0.0
  {
  }

  lemma TimesOne(p: real)
    ensures Times(p, 1.0) == p
  {
  }

  lemma TimesCommutes(p: real, a: real)
    ensures Times(p, a) == Times(a, p)
  {
  }

  function Abs(x: real): (r: real)
    ensures r >= 0.0 && r >= x && r >= -x && (r == x || r == -x)
  {
    if x < 0.0 then -x else x
  }

  lemma TimesAbs(p: real, a: real)
    requires 0.0 <= p
    ensures Abs(Times(p, a)) == Times(p, Abs(a))
  {
    TimesAdd(p, a, -a);
    assert Times(p, a + -a) == 0.0;
  }

  function Sum(n: nat, f: int -> real): real {
    if n == 0 then 0.0 else Sum(n - 1, f) + f(n - 1)
  }

  lemma {:induction false} SumCongruent(n: nat, f: int -> real, g: int -> real)
    requires forall i :: 0 <= i < n ==> f(i) == g(i)
    ensures Sum(n, f) == Sum(n, g)
  {
    if n > 0 { SumCongruent(n - 1, f, g); }
  }

  lemma {:induction false} SumMonotone(n: nat, f: int -> real, g: int -> real)
    requires forall i :: 0 <= i < n ==> f(i) <= g(i)
    ensures Sum(n, f) <= Sum(n, g)
  {
    if n > 0 { SumMonotone(n - 1, f, g); }
  }

  lemma {:induction false} SumNonNegative(n: nat, f: int -> real)
    requires forall i :: 0 <= i < n ==> 0.0 <= f(i)
    ensures 0.0 <= Sum(n, f)
    ensures forall i :: 0 <= i < n ==> f(i) <= Sum(n, f)
  {
    if n > 0 { SumNonNegative(n - 1, f); }
  }

  lemma {:induction false} SumAdd(n: nat, f: int -> real, g: int -> real)
    ensures Sum(n, i => f(i) + g(i)) == Sum(n, f) + Sum(n, g)
  {
    if n > 0 { SumAdd(n - 1, f, g); }
  }

  lemma {:induction false} SumTimes(n: nat, p: real, f: int -> real)
    ensures Sum(n, i => Times(p, f(i))) == Times(p, Sum(n, f))
  {
    if n > 0 {
      SumTimes(n - 1, p, f);
      TimesAdd(p, Sum(n - 1, f), f(n - 1));
    }
  }

  lemma {:induction false} SumConstant(n: nat, c: real)
    ensures Sum(n, i => c) == n as real * c
  {
    if n > 0 {
      SumConstant(n - 1, c);
      var k, next := (n - 1) as real, n as real;
      assert next == k + 1.0;
      OneMore(k, c);
      assert next * c == (k + 1.0) * c;
    }
  }

  lemma OneMore(k: real, c: real)
    ensures (k + 1.0) * c == k * c + c
  {
  }

  lemma {:induction false} SumAbs(n: nat, f: int -> real)
    ensures Abs(Sum(n, f)) <= Sum(n, i => Abs(f(i)))
  {
    if n > 0 { SumAbs(n - 1, f); }
  }

  /** Rows first or columns first, the total is the same. */
  lemma {:induction false} SumSwap(m: nat, n: nat, f: (int, int) -> real)
    ensures Sum(m, i => Sum(n, j => f(i, j))) == Sum(n, j => Sum(m, i => f(i, j)))
  {
    if m == 0 {
      SumConstant(n, 0.0);
      SumCongruent(n, j => Sum(m, i => f(i, j)), i => 0.0);
    } else {
      SumSwap(m - 1, n, f);
      SumAdd(n, j => Sum(m - 1, i => f(i, j)), j => f(m - 1, j));
      SumCongruent(n, j => Sum(m, i => f(i, j)),
        i => (j => Sum(m - 1, i => f(i, j)))(i) + (j => f(m - 1, j))(i));
    }
  }
}
