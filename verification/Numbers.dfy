/** Real arithmetic shared by the other modules. Doubles are modelled as reals. */
module Numbers {
  function Min(a: real, b: real): real {
    if a <= b then a else b
  }

  function Max(a: real, b: real): real {
    if a >= b then a else b
  }

  /** The n-th harmonic number 1 + 1/2 + ... + 1/n. */
  function Harmonic(n: nat): real {
    if n == 0 then 0.0 else Harmonic(n - 1) + 1.0 / n as real
  }

  lemma Distribute(r: real, a: real, b: real)
    ensures r * (a + b) == r * a + r * b
    ensures (a + b) * r == a * r + b * r
  {
  }

  lemma ProductSign(a: real, b: real)
    requires a >= 0.0 && b >= 0.0
    ensures a * b >= 0.0
  {
  }

  lemma ProductLess(a: real, b: real, n: real)
    requires a < b && n > 0.0
    ensures a * n < b * n
  {
    assert (b - a) * n > 0.0;
    Distribute(n, b - a, a);
  }

  /** The sum of `f` over a finite set. */
  ghost function Total<T>(ids: set<T>, f: T -> real): real {
    if ids == {} then 0.0 else
      var x :| x in ids;
      f(x) + Total(ids - {x}, f)
  }

  /** Any element of the set may be summed first. */
  lemma {:induction false} TotalPick<T>(ids: set<T>, f: T -> real, x: T)
    requires x in ids
    ensures Total(ids, f) == f(x) + Total(ids - {x}, f)
    decreases |ids|
  {
    var y :| y in ids && Total(ids, f) == f(y) + Total(ids - {y}, f);
    if y != x {
      TotalPick(ids - {y}, f, x);
      TotalPick(ids - {x}, f, y);
      assert ids - {x} - {y} == ids - {y} - {x};
    }
  }

  lemma {:induction false} TotalSame<T>(ids: set<T>, f: T -> real, g: T -> real)
    requires forall x | x in ids :: f(x) == g(x)
    ensures Total(ids, f) == Total(ids, g)
    decreases |ids|
  {
    if ids != {} {
      var x :| x in ids;
      TotalPick(ids, f, x);
      TotalPick(ids, g, x);
      TotalSame(ids - {x}, f, g);
    }
  }

  /** n copies of v added up. */
  function Copies(n: nat, v: real): real {
    if n == 0 then 0.0 else v + Copies(n - 1, v)
  }

  lemma {:induction false} CopiesIsProduct(n: nat, v: real)
    ensures Copies(n, v) == n as real * v
  {
    if n > 0 {
      CopiesIsProduct(n - 1, v);
      var k, m := (n - 1) as real, n as real;
      assert m == 1.0 + k;
      assert m * v == v + k * v by { Distribute(v, 1.0, k); }
    }
  }

  /** A sum of one value over `ids` and of zero over the rest of `all` only counts `ids`. */
  lemma {:induction false} TotalUniform<T>(all: set<T>, ids: set<T>, f: T -> real, v: real)
    requires ids <= all
    requires forall x | x in all :: f(x) == if x in ids then v else 0.0
    ensures Total(all, f) == Copies(|ids|, v)
    decreases |all|
  {
    if all == {} {
      assert ids == {};
    } else {
      var x :| x in all;
      TotalPick(all, f, x);
      TotalUniform(all - {x}, ids - {x}, f, v);
      if x !in ids {
        assert ids - {x} == ids;
      }
    }
  }

  /** n equal shares of a limit add up to the limit. */
  lemma SharesAddUp(n: nat, limit: real)
    requires n > 0
    ensures Copies(n, limit / n as real) == limit
  {
    CopiesIsProduct(n, limit / n as real);
  }
}
