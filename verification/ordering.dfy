/** The order of `BTreeMap` and `BTreeSet` keys: strings by code point. */
module Ordering {

  predicate Below(a: string, b: string) {
    b != "" && (a == "" || a[0] < b[0] || (a[0] == b[0] && Below(a[1..], b[1..])))
  }

  ghost predicate Ascending(s: seq<string>) {
    forall i, j | 0 <= i < j < |s| :: Below(s[i], s[j])
  }

  lemma BelowTotal(a: string, b: string)
    ensures a == b || Below(a, b) || Below(b, a)
  {
    if a != "" && b != "" && a[0] == b[0] {
      BelowTotal(a[1..], b[1..]);
      assert a == [a[0]] + a[1..] && b == [b[0]] + b[1..];
    }
  }

  lemma BelowTransitive(a: string, b: string, c: string)
    requires Below(a, b) && Below(b, c)
    ensures Below(a, c)
  {
    if a != "" && a[0] == b[0] && b[0] == c[0] {
      BelowTransitive(a[1..], b[1..], c[1..]);
    }
  }

  lemma BelowAsymmetric(a: string, b: string)
    requires Below(a, b)
    ensures !Below(b, a) && a != b
  {
    if a != "" && a[0] == b[0] {
      BelowAsymmetric(a[1..], b[1..]);
    }
  }

  predicate Least(x: string, s: set<string>) {
    x in s && forall y | y in s && y != x :: Below(x, y)
  }

  lemma LeastExists(s: set<string>)
    requires s != {}
    ensures exists x :: Least(x, s)
  {
    var a :| a in s;
    if s == {a} {
      assert Least(a, s);
    } else {
      LeastExists(s - {a});
      var b :| Least(b, s - {a});
      BelowTotal(a, b);
      if Below(a, b) {
        forall y | y in s && y != a ensures Below(a, y) {
          if y != b { BelowTransitive(a, b, y); }
        }
        assert Least(a, s);
      } else {
        assert Least(b, s);
      }
    }
  }

  lemma LeastUnique(x: string, y: string, s: set<string>)
    requires Least(x, s) && Least(y, s)
    ensures x == y
  {
    if x != y { BelowAsymmetric(x, y); }
  }

  /** The keys of a `BTreeMap` or the elements of a `BTreeSet`, in iteration order. */
  function Sorted(s: set<string>): (r: seq<string>)
    ensures forall x :: x in r <==> x in s
    ensures |r| == |s|
  {
    if s == {} then []
    else
      LeastExists(s);
      assert forall x, y | Least(x, s) && Least(y, s) :: x == y by {
        forall x, y | Least(x, s) && Least(y, s) ensures x == y { LeastUnique(x, y, s); }
      }
      var x :| x in s && Least(x, s);
      [x] + Sorted(s - {x})
  }

  lemma {:induction false} SortedAscends(s: set<string>)
    ensures Ascending(Sorted(s))
  {
    if s != {} {
      var r := Sorted(s);
      var rest := s - {r[0]};
      assert r == [r[0]] + Sorted(rest) && Least(r[0], s);
      SortedAscends(rest);
      forall i, j | 0 <= i < j < |r| ensures Below(r[i], r[j]) {
        assert r[j] == Sorted(rest)[j - 1] && r[j] in rest;
        if i > 0 {
          assert r[i] == Sorted(rest)[i - 1];
        }
      }
    }
  }

  lemma AscendingDistinct(s: seq<string>)
    requires Ascending(s)
    ensures forall i, j | 0 <= i < |s| && 0 <= j < |s| && s[i] == s[j] :: i == j
  {
    forall i, j | 0 <= i < j < |s| ensures s[i] != s[j] { BelowAsymmetric(s[i], s[j]); }
  }

  lemma BelowComesEarlier(s: seq<string>, i: nat, x: string)
    requires Ascending(s) && i < |s| && x in s && Below(x, s[i])
    ensures x in s[..i]
  {
    var j :| 0 <= j < |s| && s[j] == x;
    if i < j { BelowAsymmetric(s[i], s[j]); }
    if i == j { BelowAsymmetric(x, s[i]); }
    assert s[..i][j] == x;
  }

  /** An ascending sequence is determined by its elements, so it is `Sorted` of their set. */
  lemma {:induction false} AscendingIsSorted(s: seq<string>, elements: set<string>)
    requires Ascending(s)
    requires forall x :: x in s <==> x in elements
    ensures s == Sorted(elements)
  {
    SortedAscends(elements);
    AscendingUnique(s, Sorted(elements));
  }

  lemma {:induction false} AscendingUnique(a: seq<string>, b: seq<string>)
    requires Ascending(a) && Ascending(b)
    requires forall x :: x in a <==> x in b
    ensures a == b
  {
    if a == [] {
      assert forall i | 0 <= i < |b| :: b[i] in a;
    } else {
      assert a[0] in b;
      assert b[0] in a;
      assert a[0] == b[0] by {
        var i :| 0 <= i < |b| && b[i] == a[0];
        var j :| 0 <= j < |a| && a[j] == b[0];
        if i > 0 && j > 0 { BelowAsymmetric(a[0], b[0]); }
      }
      AscendingDistinct(a);
      AscendingDistinct(b);
      assert forall x :: x in a[1..] <==> x in a && x != a[0];
      assert forall x :: x in b[1..] <==> x in b && x != b[0];
      AscendingUnique(a[1..], b[1..]);
      assert a == [a[0]] + a[1..] && b == [b[0]] + b[1..];
    }
  }
}
