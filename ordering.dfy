/**
 * Python's ordering of strings (code point by code point, a proper prefix
 * first) and `sorted()` of a set of strings.
 */
module Ordering {
  import opened Common

  predicate LexLe(a: string, b: string)
    decreases |a|
  {
    a == [] || (b != [] && (a[0] < b[0] || (a[0] == b[0] && LexLe(a[1..], b[1..]))))
  }

  lemma {:induction false} LexLeRefl(a: string)
    ensures LexLe(a, a)
    decreases |a|
  {
    if a != [] { LexLeRefl(a[1..]); }
  }

  lemma {:induction false} LexLeTotal(a: string, b: string)
    ensures LexLe(a, b) || LexLe(b, a)
    decreases |a|
  {
    if a != [] && b != [] && a[0] == b[0] { LexLeTotal(a[1..], b[1..]); }
  }

  lemma {:induction false} LexLeAntisym(a: string, b: string)
    requires LexLe(a, b) && LexLe(b, a)
    ensures a == b
    decreases |a|
  {
    if a != [] && b != [] {
      LexLeAntisym(a[1..], b[1..]);
      assert a == [a[0]] + a[1..] && b == [b[0]] + b[1..];
    }
  }

  lemma {:induction false} LexLeTrans(a: string, b: string, c: string)
    requires LexLe(a, b) && LexLe(b, c)
    ensures LexLe(a, c)
    decreases |a|
  {
    if a != [] && b != [] && c != [] && a[0] == b[0] && b[0] == c[0] {
      LexLeTrans(a[1..], b[1..], c[1..]);
    }
  }

  predicate Sorted(s: seq<string>) {
    forall i, j :: 0 <= i < j < |s| ==> LexLe(s[i], s[j])
  }

  /** The least element of a non-empty set of strings. */
  method Least(s: set<string>) returns (m: string)
    requires s != {}
    ensures m in s && forall y :: y in s ==> LexLe(m, y)
  {
    m :| m in s;
    LexLeRefl(m);
    var rest := s - {m};
    while rest != {}
      invariant rest <= s && m in s
      invariant forall y :: y in s - rest ==> LexLe(m, y)
      decreases |rest|
    {
      var y :| y in rest;
      if !LexLe(m, y) {
        LexLeTotal(m, y);
        forall z | z in s - rest ensures LexLe(y, z) { LexLeTrans(y, m, z); }
        LexLeRefl(y);
        m := y;
      }
      rest := rest - {y};
    }
  }

  /** `sorted(s)`: the elements of s in increasing order, each once. */
  method SortedList(s: set<string>) returns (r: seq<string>)
    ensures Sorted(r) && NoDup(r)
    ensures forall x :: x in r <==> x in s
    ensures |r| == |s|
  {
    var rest := s;
    r := [];
    while rest != {}
      invariant rest <= s
      invariant forall x :: x in r <==> x in s - rest
      invariant Sorted(r) && NoDup(r) && |r| + |rest| == |s|
      invariant forall i, y :: 0 <= i < |r| && y in rest ==> LexLe(r[i], y)
      decreases |rest|
    {
      var m := Least(rest);
      forall i | 0 <= i < |r| ensures r[i] != m { assert r[i] in r; }
      r := r + [m];
      rest := rest - {m};
    }
  }

  /** A sorted, duplicate-free list is determined by its elements. */
  lemma {:induction false} SortedUnique(a: seq<string>, b: seq<string>)
    requires Sorted(a) && NoDup(a) && Sorted(b) && NoDup(b)
    requires forall x :: x in a <==> x in b
    ensures a == b
    decreases |a|
  {
    assert a != [] ==> a[0] in b;
    assert b != [] ==> b[0] in a;
    if a != [] && b != [] {
      assert LexLe(a[0], b[0]) by {
        var j :| 0 <= j < |a| && a[j] == b[0];
        if j > 0 { } else { LexLeRefl(a[0]); }
      }
      assert LexLe(b[0], a[0]) by {
        var j :| 0 <= j < |b| && b[j] == a[0];
        if j > 0 { } else { LexLeRefl(b[0]); }
      }
      LexLeAntisym(a[0], b[0]);
      forall x ensures x in a[1..] <==> x in b[1..] {
        if x in a[1..] {
          var i :| 0 <= i < |a| - 1 && a[1..][i] == x;
          assert a[i + 1] == x && x != a[0] && x in a && x in b;
          var j :| 0 <= j < |b| && b[j] == x;
          assert j != 0 && b[1..][j - 1] == x;
        }
        if x in b[1..] {
          var i :| 0 <= i < |b| - 1 && b[1..][i] == x;
          assert b[i + 1] == x && x != b[0] && x in b && x in a;
          var j :| 0 <= j < |a| && a[j] == x;
          assert j != 0 && a[1..][j - 1] == x;
        }
      }
      SortedUnique(a[1..], b[1..]);
      assert a == [a[0]] + a[1..] && b == [b[0]] + b[1..];
    }
  }
}
