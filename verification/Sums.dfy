/** Finite sums of reals over 0..n. */
module Sums {
  function Sum(n: nat, f: nat -> real): real {
    if n == 0 then 0.0 else Sum(n - 1, f) + f(n - 1)
  }

  lemma {:induction false} SumSame(n: nat, f: nat -> real, g: nat -> real)
    requires forall i :: 0 <= i < n ==> f(i) == g(i)
    ensures Sum(n, f) == Sum(n, g)
  {
    if n > 0 {
      SumSame(n - 1, f, g);
    }
  }

  lemma {:induction false} SumZero(n: nat, f: nat -> real)
    requires forall i :: 0 <= i < n ==> f(i) == 0.0
    ensures Sum(n, f) == 0.0
  {
    if n > 0 {
      SumZero(n - 1, f);
    }
  }

  lemma {:induction false} SumPlus(n: nat, f: nat -> real, g: nat -> real, h: nat -> real)
    requires forall i :: 0 <= i < n ==> h(i) == f(i) + g(i)
    ensures Sum(n, h) == Sum(n, f) + Sum(n, g)
  {
    if n > 0 {
      SumPlus(n - 1, f, g, h);
    }
  }

  lemma {:induction false} SumTimes(n: nat, c: real, f: nat -> real, g: nat -> real)
    requires forall i :: 0 <= i < n ==> g(i) == c * f(i)
    ensures Sum(n, g) == c * Sum(n, f)
  {
    if n > 0 {
      SumTimes(n - 1, c, f, g);
    }
  }

  /** Changing one summand changes the sum by as much. */
  lemma {:induction false} SumChange(n: nat, f: nat -> real, g: nat -> real, k: nat)
    requires k < n && forall i :: 0 <= i < n && i != k ==> g(i) == f(i)
    ensures Sum(n, g) == Sum(n, f) + g(k) - f(k)
  {
    if k == n - 1 {
      SumSame(n - 1, f, g);
    } else {
      SumChange(n - 1, f, g, k);
    }
  }

  function Row(f: (nat, nat) -> real, i: nat): nat -> real {
    (j: nat) => f(i, j)
  }

  function Column(f: (nat, nat) -> real, j: nat): nat -> real {
    (i: nat) => f(i, j)
  }

  function RowSums(n: nat, f: (nat, nat) -> real): nat -> real {
    (i: nat) => Sum(n, Row(f, i))
  }

  function ColumnSums(n: nat, f: (nat, nat) -> real): nat -> real {
    (j: nat) => Sum(n, Column(f, j))
  }

  /** Double sums may be taken in either order. */
  lemma {:induction false} SumSwap(n: nat, m: nat, f: (nat, nat) -> real)
    ensures Sum(n, RowSums(m, f)) == Sum(m, ColumnSums(n, f))
  {
    if n == 0 {
      SumZero(m, ColumnSums(0, f));
    } else {
      SumSwap(n - 1, m, f);
      SumPlus(m, ColumnSums(n - 1, f), Row(f, n - 1), ColumnSums(n, f));
    }
  }
}
