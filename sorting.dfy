/** Python's `sorted` on a list of strings: ascending code-point
    lexicographic order, here written as insertion sort. */
module Sorting {

  /** `a <= b` on Python strings. */
  predicate LessEq(a: string, b: string) {
    a == [] || (b != [] && (a[0] < b[0] || (a[0] == b[0] && LessEq(a[1..], b[1..]))))
  }

  lemma {:induction false} LessEqRefl(a: string)
    ensures LessEq(a, a)
  {
    if a != [] {
      LessEqRefl(a[1..]);
    }
  }

  lemma {:induction false} LessEqTotal(a: string, b: string)
    ensures LessEq(a, b) || LessEq(b, a)
  {
    if a != [] && b != [] && a[0] == b[0] {
      LessEqTotal(a[1..], b[1..]);
    }
  }

  lemma {:induction false} LessEqAntisym(a: string, b: string)
    requires LessEq(a, b) && LessEq(b, a)
    ensures a == b
  {
    if a != [] {
      LessEqAntisym(a[1..], b[1..]);
      assert a == [a[0]] + a[1..];
      assert b == [b[0]] + b[1..];
    }
  }

  lemma {:induction false} LessEqTrans(a: string, b: string, c: string)
    requires LessEq(a, b) && LessEq(b, c)
    ensures LessEq(a, c)
  {
    if a != [] && a[0] == b[0] && b[0] == c[0] {
      LessEqTrans(a[1..], b[1..], c[1..]);
    }
  }

  predicate Sorted(s: seq<string>) {
    forall i, j :: 0 <= i < j < |s| ==> LessEq(s[i], s[j])
  }

  /** Sorted with no repeated element: the form of `sorted(set(...))`. */
  predicate StrictlySorted(s: seq<string>) {
    forall i, j :: 0 <= i < j < |s| ==> LessEq(s[i], s[j]) && s[i] != s[j]
  }

  function Insert(x: string, s: seq<string>): seq<string> {
    if s == [] || LessEq(x, s[0]) then [x] + s else [s[0]] + Insert(x, s[1..])
  }

  function Sort(s: seq<string>): seq<string> {
    if s == [] then [] else Insert(s[0], Sort(s[1..]))
  }

  lemma {:induction false} InsertFacts(x: string, s: seq<string>)
    requires Sorted(s)
    ensures Sorted(Insert(x, s))
    ensures multiset(Insert(x, s)) == multiset(s) + multiset{x}
    ensures |Insert(x, s)| == |s| + 1
  {
    InsertPerm(x, s);
    if s == [] || LessEq(x, s[0]) {
      var r := [x] + s;
      forall i, j | 0 <= i < j < |r|
        ensures LessEq(r[i], r[j])
      {
        if i == 0 && j > 1 {
          LessEqTrans(x, s[0], s[j - 1]);
        }
      }
    } else {
      LessEqTotal(x, s[0]);
      InsertFacts(x, s[1..]);
      var t := Insert(x, s[1..]);
      InsertLower(x, s[1..], s[0]);
      ConsSorted(s[0], t);
    }
  }

  lemma {:induction false} InsertPerm(x: string, s: seq<string>)
    ensures multiset(Insert(x, s)) == multiset(s) + multiset{x}
    ensures |Insert(x, s)| == |s| + 1
  {
    if s != [] && !LessEq(x, s[0]) {
      InsertPerm(x, s[1..]);
      assert s == [s[0]] + s[1..];
    }
  }

  /** A lower bound of `x` and of every element of `s` bounds the
      insertion. */
  lemma InsertLower(x: string, s: seq<string>, b: string)
    requires LessEq(b, x)
    requires forall k :: 0 <= k < |s| ==> LessEq(b, s[k])
    ensures forall j :: 0 <= j < |Insert(x, s)| ==> LessEq(b, Insert(x, s)[j])
  {
    var t := Insert(x, s);
    InsertPerm(x, s);
    forall j | 0 <= j < |t|
      ensures LessEq(b, t[j])
    {
      assert t[j] in multiset(s) + multiset{x};
      if t[j] != x {
        assert t[j] in multiset(s);
        var k :| 0 <= k < |s| && s[k] == t[j];
      }
    }
  }

  lemma ConsSorted(y: string, t: seq<string>)
    requires Sorted(t)
    requires forall j :: 0 <= j < |t| ==> LessEq(y, t[j])
    ensures Sorted([y] + t)
  {
    var r := [y] + t;
    forall i, j | 0 <= i < j < |r|
      ensures LessEq(r[i], r[j])
    {
      if i == 0 {
        assert r[j] == t[j - 1];
      } else {
        assert r[i] == t[i - 1] && r[j] == t[j - 1];
      }
    }
  }

  /** The result of Sort is sorted and a permutation of its input. */
  lemma {:induction false} SortFacts(s: seq<string>)
    ensures Sorted(Sort(s))
    ensures multiset(Sort(s)) == multiset(s)
    ensures |Sort(s)| == |s|
  {
    SortPerm(s);
    SortSorted(s);
  }

  lemma {:induction false} SortPerm(s: seq<string>)
    ensures multiset(Sort(s)) == multiset(s)
    ensures |Sort(s)| == |s|
  {
    if s != [] {
      SortPerm(s[1..]);
      InsertPerm(s[0], Sort(s[1..]));
      assert s == [s[0]] + s[1..];
    }
  }

  lemma {:induction false} SortSorted(s: seq<string>)
    ensures Sorted(Sort(s))
  {
    if s != [] {
      SortSorted(s[1..]);
      InsertFacts(s[0], Sort(s[1..]));
    }
  }

  /** Two sorted arrangements of the same elements are the same list. */
  lemma {:induction false} SortedUnique(a: seq<string>, b: seq<string>)
    requires Sorted(a) && Sorted(b) && multiset(a) == multiset(b)
    ensures a == b
  {
    if a != [] {
      HeadsEqual(a, b);
      TailPerm(a);
      TailPerm(b);
      SortedTail(a);
      SortedTail(b);
      SortedUnique(a[1..], b[1..]);
      assert a == [a[0]] + a[1..];
      assert b == [b[0]] + b[1..];
    } else {
      assert |multiset(b)| == 0;
    }
  }

  /** Two sorted arrangements of the same elements start alike. */
  lemma HeadsEqual(a: seq<string>, b: seq<string>)
    requires Sorted(a) && Sorted(b) && multiset(a) == multiset(b) && a != []
    ensures b != [] && a[0] == b[0]
  {
    assert a[0] in multiset(b);
    assert b[0] in multiset(a);
    var i :| 0 <= i < |b| && b[i] == a[0];
    var j :| 0 <= j < |a| && a[j] == b[0];
    if i > 0 { assert LessEq(b[0], b[i]); } else { LessEqRefl(b[0]); }
    if j > 0 { assert LessEq(a[0], a[j]); } else { LessEqRefl(a[0]); }
    LessEqAntisym(a[0], b[0]);
  }

  lemma TailPerm(a: seq<string>)
    requires a != []
    ensures multiset(a[1..]) == multiset(a) - multiset{a[0]}
  {
    assert a == [a[0]] + a[1..];
  }

  lemma SortedTail(a: seq<string>)
    requires Sorted(a) && a != []
    ensures Sorted(a[1..])
  {
    forall i, j | 0 <= i < j < |a| - 1
      ensures LessEq(a[1..][i], a[1..][j])
    {
      assert a[1..][i] == a[i + 1] && a[1..][j] == a[j + 1];
    }
  }

  /** Sort is the unique sorted permutation: a sorted list is its own sort. */
  lemma SortOfSorted(s: seq<string>)
    requires Sorted(s)
    ensures Sort(s) == s
  {
    SortFacts(s);
    SortedUnique(Sort(s), s);
  }

  lemma SortIdempotent(s: seq<string>)
    ensures Sort(Sort(s)) == Sort(s)
  {
    SortFacts(s);
    SortOfSorted(Sort(s));
  }

  /** Sorting forgets the input order. */
  lemma SortPermutationInvariant(s: seq<string>, t: seq<string>)
    requires multiset(s) == multiset(t)
    ensures Sort(s) == Sort(t)
  {
    SortFacts(s);
    SortFacts(t);
    SortedUnique(Sort(s), Sort(t));
  }
}
