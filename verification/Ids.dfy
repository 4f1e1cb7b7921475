/** Client identifiers in the order in which a std::map over strings visits them. */
module Ids {
  predicate Before(a: string, b: string) {
    if b == "" then false
    else if a == "" then true
    else a[0] < b[0] || (a[0] == b[0] && Before(a[1..], b[1..]))
  }

  /** The strings agree up to position n, where the first ends or has the smaller character. */
  ghost predicate DifferAt(a: string, b: string, n: nat) {
    && n <= |a| && n < |b| && a[..n] == b[..n]
    && (n < |a| ==> a[n] < b[n])
  }

  lemma DifferAtOnce(a: string, b: string, n: nat)
    requires DifferAt(a, b, n)
    ensures n == 0 <==> a == "" || a[0] != b[0]
  {
    if n > 0 {
      assert a[0] == a[..n][0] == b[..n][0] == b[0];
    }
  }

  /** The order is lexicographic. */
  lemma {:induction false} BeforeIsLexicographic(a: string, b: string)
    ensures Before(a, b) <==> exists n: nat :: DifferAt(a, b, n)
  {
    if a == "" || b == "" || a[0] != b[0] {
      if Before(a, b) {
        assert a[..0] == b[..0] == "";
        assert DifferAt(a, b, 0);
      }
      forall n: nat | DifferAt(a, b, n)
        ensures Before(a, b)
      {
        DifferAtOnce(a, b, n);
      }
    } else {
      BeforeIsLexicographic(a[1..], b[1..]);
      forall n: nat | DifferAt(a[1..], b[1..], n)
        ensures DifferAt(a, b, n + 1)
      {
        assert a[..n + 1] == [a[0]] + a[1..][..n] && b[..n + 1] == [b[0]] + b[1..][..n];
      }
      forall n: nat | DifferAt(a, b, n)
        ensures n > 0 && DifferAt(a[1..], b[1..], n - 1)
      {
        assert a[1..][..n - 1] == a[..n][1..] && b[1..][..n - 1] == b[..n][1..];
      }
    }
  }

  lemma {:induction false} BeforeIsTotal(a: string, b: string)
    ensures a == b || Before(a, b) || Before(b, a)
  {
    if a != "" && b != "" && a[0] == b[0] {
      BeforeIsTotal(a[1..], b[1..]);
      assert a == [a[0]] + a[1..] && b == [b[0]] + b[1..];
    }
  }

  lemma {:induction false} BeforeIsStrict(a: string, b: string)
    requires Before(a, b)
    ensures a != b && !Before(b, a)
  {
    if a != "" && a[0] == b[0] {
      BeforeIsStrict(a[1..], b[1..]);
    }
  }

  lemma {:induction false} BeforeIsTransitive(a: string, b: string, c: string)
    requires Before(a, b) && Before(b, c)
    ensures Before(a, c)
  {
    if a != "" && a[0] == b[0] == c[0] {
      BeforeIsTransitive(a[1..], b[1..], c[1..]);
    }
  }

  predicate IsFirst(id: string, ids: set<string>) {
    id in ids && forall other | other in ids && other != id :: Before(id, other)
  }

  ghost function First(ids: set<string>): (first: string)
    requires ids != {}
    ensures IsFirst(first, ids)
  {
    var x :| x in ids;
    var rest := ids - {x};
    if rest == {} then
      assert ids == {x};
      x
    else
      var y := First(rest);
      FirstOfTwo(x, y, rest);
      assert ids == rest + {x};
      if Before(x, y) then x else y
  }

  lemma FirstOfTwo(x: string, y: string, rest: set<string>)
    requires x !in rest && IsFirst(y, rest)
    ensures IsFirst(if Before(x, y) then x else y, rest + {x})
  {
    BeforeIsTotal(x, y);
    if Before(x, y) {
      forall other | other in rest && other != y
        ensures Before(x, other)
      {
        BeforeIsTransitive(x, y, other);
      }
    }
  }

  lemma FirstIsUnique(a: string, b: string, ids: set<string>)
    requires IsFirst(a, ids) && IsFirst(b, ids)
    ensures a == b
  {
    if a != b {
      BeforeIsStrict(a, b);
    }
  }

  method Earliest(ids: set<string>) returns (first: string)
    requires ids != {}
    ensures first in ids && first == First(ids)
  {
    assert IsFirst(First(ids), ids);
    first :| first in ids && IsFirst(first, ids);
    FirstIsUnique(first, First(ids), ids);
  }

  ghost function Elements(s: seq<string>): set<string> {
    if s == [] then {} else Elements(s[..|s| - 1]) + {s[|s| - 1]}
  }

  lemma {:induction false} ElementsAre(s: seq<string>, x: string)
    ensures x in Elements(s) <==> x in s
  {
    if s != [] {
      ElementsAre(s[..|s| - 1], x);
      assert s == s[..|s| - 1] + [s[|s| - 1]];
    }
  }

  ghost predicate Ascending(s: seq<string>) {
    forall i, j | 0 <= i < j < |s| :: Before(s[i], s[j])
  }

  lemma {:induction false} ElementsOfJoin(a: seq<string>, b: seq<string>)
    ensures Elements(a + b) == Elements(a) + Elements(b)
  {
    if b == [] {
      assert a + b == a;
    } else {
      assert (a + b)[..|a + b| - 1] == a + b[..|b| - 1];
      ElementsOfJoin(a, b[..|b| - 1]);
    }
  }
}
