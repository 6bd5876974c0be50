/** Finite sets: elements, sizes and sums. */
module SetSums {
  method AnyOf<T(==)>(s: set<T>) returns (x: T)
    requires s != {}
    ensures x in s
  {
    x :| x in s;
  }

  lemma {:induction false} Contained<T>(a: set<T>, b: set<T>)
    requires a <= b
    ensures |a| <= |b|
  {
    if a != {} {
      var x :| x in a;
      Contained(a - {x}, b - {x});
    }
  }

  lemma {:induction false} Element<T>(s: set<T>) returns (x: T)
    requires s != {}
    ensures x in s
  {
    x :| x in s;
  }

  ghost function SumOf<T(!new)>(s: set<T>, f: T -> real): real
    decreases s
  {
    if s == {} then 0.0 else
      var x :| x in s;
      f(x) + SumOf(s - {x}, f)
  }

  /** Any element may be taken out first. */
  lemma {:induction false} SumPick<T(!new)>(s: set<T>, f: T -> real, x: T)
    requires x in s
    ensures SumOf(s, f) == f(x) + SumOf(s - {x}, f)
    decreases s
  {
    var y :| y in s && SumOf(s, f) == f(y) + SumOf(s - {y}, f);
    if y != x {
      SumPick(s - {y}, f, x);
      SumPick(s - {x}, f, y);
      assert s - {y} - {x} == s - {x} - {y};
    }
  }

  lemma {:induction false} SumAgree<T(!new)>(s: set<T>, f: T -> real, g: T -> real)
    requires forall x :: x in s ==> f(x) == g(x)
    ensures SumOf(s, f) == SumOf(s, g)
    decreases s
  {
    if s != {} {
      var x :| x in s;
      SumPick(s, f, x);
      SumPick(s, g, x);
      SumAgree(s - {x}, f, g);
    }
  }

  /** Adding an element, or changing the value at one. */
  lemma {:induction false} SumPut<T(!new)>(s: set<T>, f: T -> real, g: T -> real, x: T)
    requires forall y :: y in s && y != x ==> f(y) == g(y)
    ensures SumOf(s + {x}, g) == (if x in s then SumOf(s, f) - f(x) else SumOf(s, f)) + g(x)
  {
    SumPick(s + {x}, g, x);
    if x in s {
      SumPick(s, f, x);
      assert s + {x} - {x} == s - {x};
      SumAgree(s - {x}, f, g);
    } else {
      assert s + {x} - {x} == s;
      SumAgree(s, f, g);
    }
  }

  lemma {:induction false} SumLess<T(!new)>(s: set<T>, f: T -> real, g: T -> real)
    requires forall x :: x in s ==> f(x) <= g(x)
    ensures SumOf(s, f) <= SumOf(s, g)
    decreases s
  {
    if s != {} {
      var x :| x in s;
      SumPick(s, f, x);
      SumPick(s, g, x);
      SumLess(s - {x}, f, g);
    }
  }

  lemma {:induction false} SumPart<T(!new)>(s: set<T>, t: set<T>, f: T -> real)
    requires s <= t && forall x :: x in t ==> f(x) >= 0.0
    ensures SumOf(s, f) <= SumOf(t, f)
    decreases t
  {
    if t != s {
      var x :| x in t && x !in s;
      SumPick(t, f, x);
      SumPart(s, t - {x}, f);
    }
  }
}
