/** Python dictionaries as insertion-ordered association lists. Reading a
    key takes its first entry; writing an existing key replaces that entry
    where it stands, writing a new key appends it, exactly as `d[k] = v`
    keeps the iteration order of a Python dict. */
module Dicts {
  import opened Basics

  type Dict<K, V> = seq<(K, V)>

  function Keys<K, V>(d: Dict<K, V>): seq<K> {
    seq(|d|, i requires 0 <= i < |d| => d[i].0)
  }

  function Values<K, V>(d: Dict<K, V>): seq<V> {
    seq(|d|, i requires 0 <= i < |d| => d[i].1)
  }

  predicate DistinctKeys<K(==), V>(d: Dict<K, V>) {
    forall i, j :: 0 <= i < j < |d| ==> d[i].0 != d[j].0
  }

  /** `d.get(k)`. */
  function Get<K(==), V>(d: Dict<K, V>, k: K): (r: Option<V>)
    ensures r.Some? <==> k in Keys(d)
    ensures r.Some? ==> exists i :: 0 <= i < |d| && d[i] == (k, r.value)
  {
    if d == [] then None
    else if d[0].0 == k then
      assert Keys(d)[0] == k;
      Some(d[0].1)
    else
      assert Keys(d) == [d[0].0] + Keys(d[1..]);
      var r := Get(d[1..], k);
      assert r.Some? ==> exists i :: 0 <= i < |d[1..]| && d[1..][i] == (k, r.value);
      r
  }

  /** `d.get(k, default)`. */
  function GetOr<K(==), V>(d: Dict<K, V>, k: K, default: V): V {
    match Get(d, k)
    case Some(v) => v
    case None => default
  }

  /** `d[k] = v`. */
  function Put<K(==,!new), V>(d: Dict<K, V>, k: K, v: V): (r: Dict<K, V>)
    ensures Keys(r) == if k in Keys(d) then Keys(d) else Keys(d) + [k]
    ensures k !in Keys(d) ==> r == d + [(k, v)]
    ensures Get(r, k) == Some(v)
    ensures forall k' :: k' != k ==> Get(r, k') == Get(d, k')
  {
    PutAtKeys(d, k, v);
    PutAtNew(d, k, v);
    PutAtGet(d, k, v);
    PutAtOthers(d, k, v);
    PutAt(d, k, v)
  }

  /** The entry of `k` replaced where it stands, or appended. */
  function PutAt<K(==), V>(d: Dict<K, V>, k: K, v: V): Dict<K, V> {
    if d == [] then [(k, v)]
    else if d[0].0 == k then [(k, v)] + d[1..]
    else [d[0]] + PutAt(d[1..], k, v)
  }

  lemma {:induction false} PutAtKeys<K, V>(d: Dict<K, V>, k: K, v: V)
    ensures Keys(PutAt(d, k, v)) == if k in Keys(d) then Keys(d) else Keys(d) + [k]
  {
    if d != [] {
      KeysCons(d[0], d[1..]);
      assert [d[0]] + d[1..] == d;
      if d[0].0 == k {
        KeysCons((k, v), d[1..]);
      } else {
        var rest := PutAt(d[1..], k, v);
        PutAtKeys(d[1..], k, v);
        KeysCons(d[0], rest);
        if k !in Keys(d) {
          assert [d[0].0] + (Keys(d[1..]) + [k]) == ([d[0].0] + Keys(d[1..])) + [k];
        }
      }
    }
  }

  lemma KeysCons<K, V>(e: (K, V), d: Dict<K, V>)
    ensures Keys([e] + d) == [e.0] + Keys(d)
  {
    assert forall i :: 0 <= i < |d| + 1 ==> Keys([e] + d)[i] == ([e.0] + Keys(d))[i];
  }

  lemma {:induction false} PutAtNew<K, V>(d: Dict<K, V>, k: K, v: V)
    ensures k !in Keys(d) ==> PutAt(d, k, v) == d + [(k, v)]
  {
    if d != [] && k !in Keys(d) {
      assert Keys(d) == [d[0].0] + Keys(d[1..]);
      PutAtNew(d[1..], k, v);
      assert d == [d[0]] + d[1..];
    }
  }

  lemma {:induction false} PutAtGet<K, V>(d: Dict<K, V>, k: K, v: V)
    ensures Get(PutAt(d, k, v), k) == Some(v)
  {
    if d != [] && d[0].0 != k {
      PutAtGet(d[1..], k, v);
      var r := PutAt(d, k, v);
      assert r[1..] == PutAt(d[1..], k, v);
    }
  }

  lemma {:induction false} PutAtOthers<K, V>(d: Dict<K, V>, k: K, v: V)
    ensures forall k' :: k' != k ==> Get(PutAt(d, k, v), k') == Get(d, k')
  {
    forall k' | k' != k
      ensures Get(PutAt(d, k, v), k') == Get(d, k')
    {
      PutAtOther(d, k, v, k');
    }
  }

  lemma {:induction false} PutAtOther<K, V>(d: Dict<K, V>, k: K, v: V, k': K)
    requires k' != k
    ensures Get(PutAt(d, k, v), k') == Get(d, k')
  {
    if d != [] {
      var r := PutAt(d, k, v);
      assert r[1..] == (if d[0].0 == k then d[1..] else PutAt(d[1..], k, v));
      if d[0].0 != k && d[0].0 != k' {
        PutAtOther(d[1..], k, v, k');
      }
    }
  }

  lemma PutKeepsDistinct<K(!new), V>(d: Dict<K, V>, k: K, v: V)
    requires DistinctKeys(d)
    ensures DistinctKeys(Put(d, k, v))
  {
    var r := Put(d, k, v);
    assert forall i :: 0 <= i < |r| ==> r[i].0 == Keys(r)[i];
    assert forall i :: 0 <= i < |d| ==> d[i].0 == Keys(d)[i];
  }

  /** `{key(x): x for x in xs}`: a later element with the same key
      overwrites an earlier one. */
  function IndexBy<T>(xs: seq<T>, key: T -> string): Dict<string, T> {
    if xs == [] then []
    else Put(IndexBy(xs[..|xs| - 1], key), key(xs[|xs| - 1]), xs[|xs| - 1])
  }

  /** The last element of `xs` whose key is `k`. */
  function LastBy<T>(xs: seq<T>, key: T -> string, k: string): (r: Option<T>)
    ensures r.Some? ==> r.value in xs && key(r.value) == k
    ensures r.None? <==> forall i :: 0 <= i < |xs| ==> key(xs[i]) != k
  {
    if xs == [] then None
    else if key(xs[|xs| - 1]) == k then Some(xs[|xs| - 1])
    else
      var r := LastBy(xs[..|xs| - 1], key, k);
      assert forall i :: 0 <= i < |xs| - 1 ==> xs[..|xs| - 1][i] == xs[i];
      r
  }

  /** Later elements win: no element after the one found carries the key. */
  lemma {:induction false} LastByIsLast<T>(xs: seq<T>, key: T -> string, k: string)
    requires LastBy(xs, key, k).Some?
    ensures exists i :: 0 <= i < |xs| && xs[i] == LastBy(xs, key, k).value
                        && forall j :: i < j < |xs| ==> key(xs[j]) != k
  {
    var n := |xs| - 1;
    if key(xs[n]) == k {
      assert LastBy(xs, key, k).value == xs[n];
    } else {
      var p := xs[..n];
      assert LastBy(xs, key, k) == LastBy(p, key, k);
      LastByIsLast(p, key, k);
      var i :| 0 <= i < |p| && p[i] == LastBy(p, key, k).value && forall j :: i < j < |p| ==> key(p[j]) != k;
      assert xs[i] == p[i];
      forall j | i < j < |xs|
        ensures key(xs[j]) != k
      {
        if j < n {
          assert xs[j] == p[j];
        }
      }
    }
  }

  /** With distinct keys every element is the one found for its own key. */
  lemma {:induction false} LastByDistinct<T>(xs: seq<T>, key: T -> string, n: nat)
    requires n < |xs|
    requires forall i, j :: 0 <= i < j < |xs| ==> key(xs[i]) != key(xs[j])
    ensures LastBy(xs, key, key(xs[n])) == Some(xs[n])
  {
    if n < |xs| - 1 {
      var p := xs[..|xs| - 1];
      assert p[n] == xs[n];
      LastByDistinct(p, key, n);
    }
  }

  /** The index keeps, for each key, the last element carrying it. */
  lemma {:induction false} IndexByGet<T>(xs: seq<T>, key: T -> string, k: string)
    ensures Get(IndexBy(xs, key), k) == LastBy(xs, key, k)
  {
    if xs != [] {
      IndexByGet(xs[..|xs| - 1], key, k);
    }
  }

  /** `d.get(k, default)` is the default or one of the values. */
  lemma GetOrCases<K, V>(d: Dict<K, V>, k: K, default: V)
    ensures GetOr(d, k, default) == default || GetOr(d, k, default) in Values(d)
  {
    if Get(d, k).Some? {
      var i :| 0 <= i < |d| && d[i] == (k, Get(d, k).value);
      assert Values(d)[i] == d[i].1;
    }
  }

  lemma KeysConcat<K, V>(a: Dict<K, V>, b: Dict<K, V>)
    ensures Keys(a + b) == Keys(a) + Keys(b)
  {
  }

  lemma TakeSnoc<X>(xs: seq<X>, j: nat)
    requires j < |xs|
    ensures xs[..j + 1] == xs[..j] + [xs[j]]
  {
  }

  lemma TakeAll<X>(xs: seq<X>)
    ensures xs[..|xs|] == xs
  {
  }

  lemma ConcatAssoc<X>(a: seq<X>, b: seq<X>, c: seq<X>)
    ensures (a + b) + c == a + (b + c)
  {
  }

  /** Indexing one more element writes it last. */
  lemma IndexBySnoc<T>(xs: seq<T>, x: T, key: T -> string)
    ensures IndexBy(xs + [x], key) == Put(IndexBy(xs, key), key(x), x)
  {
    assert (xs + [x])[..|xs|] == xs;
  }

  lemma IndexByStep<T>(before: seq<T>, ks: seq<T>, j: nat, key: T -> string)
    requires j < |ks|
    ensures IndexBy(before + ks[..j + 1], key) == Put(IndexBy(before + ks[..j], key), key(ks[j]), ks[j])
  {
    TakeSnoc(ks, j);
    assert before + ks[..j + 1] == (before + ks[..j]) + [ks[j]];
    IndexBySnoc(before + ks[..j], ks[j], key);
  }

  /** Builds the index of `xs` one element at a time. */
  method BuildIndex<T>(xs: seq<T>, key: T -> string) returns (d: Dict<string, T>)
    ensures d == IndexBy(xs, key)
  {
    d := [];
    var i := 0;
    while i < |xs|
      invariant 0 <= i <= |xs|
      invariant d == IndexBy(xs[..i], key)
    {
      assert xs[..i + 1][..i] == xs[..i];
      d := Put(d, key(xs[i]), xs[i]);
      i := i + 1;
    }
    assert xs[..|xs|] == xs;
  }

  function MapSeq<T, U>(f: T -> U, xs: seq<T>): seq<U> {
    seq(|xs|, i requires 0 <= i < |xs| => f(xs[i]))
  }

  /** `[index[w] for w in wanted if w in index]`. */
  function Pick<T>(index: Dict<string, T>, wanted: seq<string>): seq<T> {
    if wanted == [] then []
    else Pick(index, wanted[..|wanted| - 1]) + PickOne(index, wanted[|wanted| - 1])
  }

  function PickOne<T>(index: Dict<string, T>, w: string): seq<T> {
    match Get(index, w)
    case Some(x) => [x]
    case None => []
  }

  /** Picking follows the order of the wanted keys. */
  lemma {:induction false} PickConcat<T>(index: Dict<string, T>, a: seq<string>, b: seq<string>)
    ensures Pick(index, a + b) == Pick(index, a) + Pick(index, b)
    decreases |b|
  {
    if b == [] {
      assert a + b == a;
    } else {
      var b' := b[..|b| - 1];
      assert (a + b)[..|a + b| - 1] == a + b';
      assert (a + b)[|a + b| - 1] == b[|b| - 1];
      PickConcat(index, a, b');
    }
  }

  lemma {:induction false} PickMembersOf<T>(index: Dict<string, T>, wanted: seq<string>, x: T)
    ensures x in Pick(index, wanted) <==> exists w :: w in wanted && Get(index, w) == Some(x)
  {
    if wanted != [] {
      var w' := wanted[..|wanted| - 1];
      var last := wanted[|wanted| - 1];
      PickMembersOf(index, w', x);
      assert wanted == w' + [last];
      if exists w :: w in wanted && Get(index, w) == Some(x) {
        var w :| w in wanted && Get(index, w) == Some(x);
        if w != last {
          assert w in w';
        }
      }
    }
  }

  /** Against an index built from `xs`: an element is picked exactly when it
      is the last element of `xs` carrying some wanted key. */
  lemma PickMembers<T>(xs: seq<T>, key: T -> string, wanted: seq<string>, x: T)
    ensures x in Pick(IndexBy(xs, key), wanted) <==> exists w :: w in wanted && LastBy(xs, key, w) == Some(x)
  {
    forall w ensures Get(IndexBy(xs, key), w) == LastBy(xs, key, w) {
      IndexByGet(xs, key, w);
    }
    PickMembersOf(IndexBy(xs, key), wanted, x);
  }

  lemma {:induction false} PickAllOf<T>(index: Dict<string, T>, xs: seq<T>, key: T -> string)
    requires forall i :: 0 <= i < |xs| ==> Get(index, key(xs[i])) == Some(xs[i])
    ensures Pick(index, MapSeq(key, xs)) == xs
  {
    if xs != [] {
      var p := xs[..|xs| - 1];
      assert MapSeq(key, xs)[..|xs| - 1] == MapSeq(key, p);
      PickAllOf(index, p, key);
      assert xs == p + [xs[|xs| - 1]];
    }
  }

  /** Picking every element's own key, when the keys are distinct, gives
      back the elements in their order. */
  lemma PickAll<T>(xs: seq<T>, key: T -> string)
    requires forall i, j :: 0 <= i < j < |xs| ==> key(xs[i]) != key(xs[j])
    ensures Pick(IndexBy(xs, key), MapSeq(key, xs)) == xs
  {
    forall i | 0 <= i < |xs|
      ensures Get(IndexBy(xs, key), key(xs[i])) == Some(xs[i])
    {
      IndexByGet(xs, key, key(xs[i]));
      LastByDistinct(xs, key, i);
    }
    PickAllOf(IndexBy(xs, key), xs, key);
  }

  /** Collects the entries of the wanted keys one key at a time. */
  method Collect<T>(index: Dict<string, T>, wanted: seq<string>) returns (out: seq<T>)
    ensures out == Pick(index, wanted)
  {
    out := [];
    var i := 0;
    while i < |wanted|
      invariant 0 <= i <= |wanted|
      invariant out == Pick(index, wanted[..i])
    {
      assert wanted[..i + 1][..i] == wanted[..i];
      var found := Get(index, wanted[i]);
      if found.Some? {
        out := out + [found.value];
      }
      i := i + 1;
    }
    assert wanted[..|wanted|] == wanted;
  }
}
