/** Terraform's `schema.Set` of strings: a `set<string>` whose `List()` hands
    the elements out in a fixed order. The SDK orders by hash code; this
    model orders by the lexicographic order of the strings themselves. */
module StringSets {

  /** Lexicographic order on strings, by character code. */
  predicate Below(a: string, b: string)
  {
    |a| == 0 || (|b| > 0 && (a[0] < b[0] || (a[0] == b[0] && Below(a[1..], b[1..]))))
  }

  lemma BelowReflexive(a: string)
    ensures Below(a, a)
  {
  }

  lemma BelowTotal(a: string, b: string)
    ensures Below(a, b) || Below(b, a)
  {
  }

  lemma BelowAntisymmetric(a: string, b: string)
    requires Below(a, b) && Below(b, a)
    ensures a == b
  {
    if |a| > 0 {
      BelowAntisymmetric(a[1..], b[1..]);
      assert a == [a[0]] + a[1..];
      assert b == [b[0]] + b[1..];
    }
  }

  lemma BelowTransitive(a: string, b: string, c: string)
    requires Below(a, b) && Below(b, c)
    ensures Below(a, c)
  {
    if |a| > 0 && a[0] == b[0] && b[0] == c[0] {
      BelowTransitive(a[1..], b[1..], c[1..]);
    }
  }

  /** `m` is the least element of `s`. */
  predicate IsLeast(m: string, s: set<string>)
  {
    m in s && forall y :: y in s ==> Below(m, y)
  }

  lemma LeastExists(s: set<string>)
    requires s != {}
    ensures exists m :: IsLeast(m, s)
    decreases |s|
  {
    var x :| x in s;
    if s == {x} {
      BelowReflexive(x);
      assert IsLeast(x, s);
    } else {
      LeastExists(s - {x});
      var m :| IsLeast(m, s - {x});
      BelowTotal(x, m);
      if Below(x, m) {
        forall y | y in s ensures Below(x, y) {
          if y == x { BelowReflexive(x); } else { BelowTransitive(x, m, y); }
        }
        assert IsLeast(x, s);
      } else {
        assert IsLeast(m, s);
      }
    }
  }

  lemma LeastUnique(s: set<string>)
    ensures forall m, n :: IsLeast(m, s) && IsLeast(n, s) ==> m == n
  {
    forall m, n | IsLeast(m, s) && IsLeast(n, s) ensures m == n {
      BelowAntisymmetric(m, n);
    }
  }

  /** The least element of a non-empty set. */
  function Least(s: set<string>): (m: string)
    requires s != {}
    ensures IsLeast(m, s)
  {
    LeastExists(s);
    LeastUnique(s);
    var m :| IsLeast(m, s);
    m
  }

  /** The elements of `xs`, forgetting order and repetition. */
  function Elems(xs: seq<string>): set<string>
  {
    set i | 0 <= i < |xs| :: xs[i]
  }

  /** Strictly ascending, hence free of repetition. */
  predicate Ascending(xs: seq<string>)
  {
    forall i, j :: 0 <= i < j < |xs| ==> Below(xs[i], xs[j]) && xs[i] != xs[j]
  }

  /** `Set.List()`: every element once, in ascending order. */
  function Enumerate(s: set<string>): (r: seq<string>)
    ensures |r| == |s|
    ensures Elems(r) == s
    ensures Ascending(r)
    decreases |s|
  {
    if s == {} then []
    else
      var m := Least(s);
      var rest := Enumerate(s - {m});
      PrependLeast(m, rest, s);
      [m] + rest
  }

  /** Putting the least element in front of an ascending listing of the
      others lists the whole set in ascending order. */
  lemma PrependLeast(m: string, rest: seq<string>, s: set<string>)
    requires IsLeast(m, s)
    requires |rest| == |s - {m}| && Elems(rest) == s - {m} && Ascending(rest)
    ensures |[m] + rest| == |s| && Elems([m] + rest) == s && Ascending([m] + rest)
  {
    var r := [m] + rest;
    forall j | 0 <= j < |rest| ensures rest[j] in s - {m} {
      assert rest[j] in Elems(rest);
    }
    forall i, j | 0 <= i < j < |r| ensures Below(r[i], r[j]) && r[i] != r[j] {
      assert r[j] == rest[j - 1];
      if i > 0 {
        assert r[i] == rest[i - 1];
      }
    }
    forall y | y in s ensures y in Elems(r) {
      if y != m {
        assert y in Elems(rest);
        var i :| 0 <= i < |rest| && rest[i] == y;
        assert r[i + 1] == y;
      } else {
        assert r[0] == y;
      }
    }
    forall y | y in Elems(r) ensures y in s {
      var i :| 0 <= i < |r| && r[i] == y;
      if i > 0 {
        assert r[i] == rest[i - 1];
      }
    }
  }

}
