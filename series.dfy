/** Collapsing table series: tables whose names differ only in digits (and
    letter case) form one series, and only the first table of each series
    is kept. This is the `_simplify_list_series` helper of the Snowflake and
    BigQuery schema renderers (utils/Database_Interface.py), whose BigQuery
    variant first drops a trailing `_YYYY` or `_YYYY_<n>yr`, and
    simplify_table_series of utils/SL/Get_SL.py, which keeps the first key
    of each series in sorted order. */
module Series {
  import opened Basics
  import opened Text
  import opened Dicts
  import opened Sorting

  /** Plain: lower-case, drop digits. Dated: the BigQuery rule, which first
      removes a date ending. */
  datatype SeriesRule = Plain | Dated

  predicate AllDigits(s: string) {
    forall i :: 0 <= i < |s| ==> IsDigit(s[i])
  }

  /** The number of digits `s` ends with. */
  function TrailingDigits(s: string): (n: nat)
    ensures n <= |s|
    ensures forall i :: |s| - n <= i < |s| ==> IsDigit(s[i])
    ensures n < |s| ==> !IsDigit(s[|s| - n - 1])
  {
    if s != [] && IsDigit(s[|s| - 1]) then
      var n := TrailingDigits(s[..|s| - 1]);
      assert forall i :: |s| - 1 - n <= i < |s| - 1 ==> s[..|s| - 1][i] == s[i];
      n + 1
    else 0
  }

  /** The length of the text matched by `_\d{4}(?:_\d+yr)?` at the very end
      of `s`, 0 when it does not match there. The pattern can end at the end
      of `s` in only one place, since an underscore is not a digit. */
  function DatedSuffixLen(s: string): (n: nat)
    ensures n <= |s|
  {
    if |s| >= 5 && s[|s| - 5] == '_' && AllDigits(s[|s| - 4..]) then 5
    else if |s| >= 2 && s[|s| - 2..] == "yr" then
      var d := TrailingDigits(s[..|s| - 2]);
      var n := d + 8;
      if d >= 1 && |s| >= n && s[|s| - n] == '_' && AllDigits(s[|s| - n + 1..|s| - d - 3]) && s[|s| - d - 3] == '_'
      then n else 0
    else 0
  }

  /** `re.sub(r'_\d{4}(?:_\d+yr)?$', '', s)`: `$` also matches right before
      a final newline. */
  function StripDatedSuffix(s: string): string {
    var n := DatedSuffixLen(s);
    if n > 0 then s[..|s| - n]
    else if |s| > 0 && s[|s| - 1] == '\n' && DatedSuffixLen(s[..|s| - 1]) > 0 then
      s[..|s| - 1 - DatedSuffixLen(s[..|s| - 1])] + "\n"
    else s
  }

  function SeriesName(rule: SeriesRule, name: string): string {
    match rule
    case Plain => RemoveDigits(Lower(name))
    case Dated => RemoveDigits(StripDatedSuffix(Lower(name)))
  }

  lemma LowerDigits(s: string)
    requires AllDigits(s)
    ensures Lower(s) == s
  {
  }

  /** Under the BigQuery rule, yearly tables `base_YYYY` form one series
      whose name is the base's. */
  lemma DatedYearSeries(base: string, year: string)
    requires |year| == 4 && AllDigits(year)
    ensures SeriesName(Dated, base + "_" + year) == RemoveDigits(Lower(base))
  {
    var l := Lower(base + "_" + year);
    LowerConcat(base + "_", year);
    LowerConcat(base, "_");
    LowerDigits(year);
    assert l == Lower(base) + "_" + year;
    assert l[|l| - 4..] == year;
    assert DatedSuffixLen(l) == 5;
    assert l[..|l| - 5] == Lower(base);
  }

  lemma {:induction false} TrailingDigitsOf(t: string, k: string)
    requires AllDigits(k)
    requires t != [] && !IsDigit(t[|t| - 1])
    ensures TrailingDigits(t + k) == |k|
  {
    if k == [] {
      assert t + k == t;
    } else {
      assert (t + k)[..|t + k| - 1] == t + k[..|k| - 1];
      TrailingDigitsOf(t, k[..|k| - 1]);
    }
  }

  /** The ending `_YYYY_<n>yr` is matched as a whole and the text before
      it is left. */
  lemma DatedSpanSuffix(lb: string, year: string, span: string)
    requires |year| == 4 && AllDigits(year) && |span| >= 1 && AllDigits(span)
    ensures DatedSuffixLen(lb + "_" + year + "_" + span + "yr") == |span| + 8
  {
    var t := lb + "_" + year + "_";
    var l := t + span + "yr";
    assert l == lb + "_" + year + "_" + span + "yr";
    var d := |span|;
    assert l[|l| - 1] == 'r';
    assert !AllDigits(l[|l| - 4..]) by {
      assert l[|l| - 4..][3] == 'r';
    }
    assert l[|l| - 2..] == "yr";
    assert l[..|l| - 2] == t + span;
    TrailingDigitsOf(t, span);
    assert l[|l| - d - 8] == '_';
    assert l[|l| - d - 8 + 1..|l| - d - 3] == year;
    assert l[|l| - d - 3] == '_';
  }

  lemma LowerSpanName(base: string, year: string, span: string)
    requires AllDigits(year) && AllDigits(span)
    ensures Lower(base + "_" + year + "_" + span + "yr") == Lower(base) + "_" + year + "_" + span + "yr"
  {
    LowerConcat(base + "_" + year + "_" + span, "yr");
    LowerConcat(base + "_" + year + "_", span);
    LowerConcat(base + "_" + year, "_");
    LowerConcat(base + "_", year);
    LowerConcat(base, "_");
    LowerDigits(year);
    LowerDigits(span);
  }

  /** Under the BigQuery rule, `base_YYYY_<n>yr` tables belong to the
      base's series too. */
  lemma DatedSpanSeries(base: string, year: string, span: string)
    requires |year| == 4 && AllDigits(year) && |span| >= 1 && AllDigits(span)
    ensures SeriesName(Dated, base + "_" + year + "_" + span + "yr") == RemoveDigits(Lower(base))
  {
    var lb := Lower(base);
    var l := lb + "_" + year + "_" + span + "yr";
    LowerSpanName(base, year, span);
    DatedSpanSuffix(lb, year, span);
    assert l[..|l| - (|span| + 8)] == lb;
  }


  // ----- keeping the first of each series -----

  function SeriesOf(rule: SeriesRule, names: seq<string>): set<string> {
    set n | n in names :: SeriesName(rule, n)
  }

  /** The names kept, in order: a name is kept when no earlier name has its
      series. */
  function Firsts(rule: SeriesRule, names: seq<string>): seq<string> {
    if names == [] then []
    else
      var prefix := names[..|names| - 1];
      var last := names[|names| - 1];
      if SeriesName(rule, last) in SeriesOf(rule, prefix) then Firsts(rule, prefix)
      else Firsts(rule, prefix) + [last]
  }

  /** `a` is `b` with some elements left out, order kept. */
  predicate Sublist(a: seq<string>, b: seq<string>) {
    if b == [] then a == []
    else (a != [] && a[|a| - 1] == b[|b| - 1] && Sublist(a[..|a| - 1], b[..|b| - 1]))
         || Sublist(a, b[..|b| - 1])
  }

  lemma {:induction false} SublistMembers(a: seq<string>, b: seq<string>)
    requires Sublist(a, b)
    ensures forall x :: x in a ==> x in b
  {
    if b != [] {
      if a != [] && a[|a| - 1] == b[|b| - 1] && Sublist(a[..|a| - 1], b[..|b| - 1]) {
        SublistMembers(a[..|a| - 1], b[..|b| - 1]);
        assert a == a[..|a| - 1] + [a[|a| - 1]];
      } else {
        SublistMembers(a, b[..|b| - 1]);
      }
    }
  }

  lemma {:induction false} SublistSorted(a: seq<string>, b: seq<string>)
    requires Sublist(a, b) && Sorted(b)
    ensures Sorted(a)
  {
    if b != [] {
      var b' := b[..|b| - 1];
      if a != [] && a[|a| - 1] == b[|b| - 1] && Sublist(a[..|a| - 1], b') {
        var a' := a[..|a| - 1];
        SublistSorted(a', b');
        SublistMembers(a', b');
        forall i, j | 0 <= i < j < |a|
          ensures LessEq(a[i], a[j])
        {
          if j == |a| - 1 {
            assert a[i] in a';
            var k :| 0 <= k < |b'| && b'[k] == a[i];
          } else {
            assert a[i] == a'[i] && a[j] == a'[j];
          }
        }
      } else {
        SublistSorted(a, b');
      }
    }
  }

  /** The result keeps the input order and only input names. */
  lemma {:induction false} FirstsSublist(rule: SeriesRule, names: seq<string>)
    ensures Sublist(Firsts(rule, names), names)
  {
    if names != [] {
      var prefix := names[..|names| - 1];
      FirstsSublist(rule, prefix);
      var f := Firsts(rule, names);
      if SeriesName(rule, names[|names| - 1]) !in SeriesOf(rule, prefix) {
        assert f[..|f| - 1] == Firsts(rule, prefix);
      }
    }
  }

  lemma SeriesOfSnoc(rule: SeriesRule, xs: seq<string>, x: string)
    ensures SeriesOf(rule, xs + [x]) == SeriesOf(rule, xs) + {SeriesName(rule, x)}
  {
    assert forall n :: n in xs + [x] <==> n in xs || n == x;
  }

  /** Every series of the input keeps exactly one name: the series of the
      result are those of the input, and pairwise distinct. */
  lemma FirstsSeries(rule: SeriesRule, names: seq<string>)
    ensures SeriesOf(rule, Firsts(rule, names)) == SeriesOf(rule, names)
    ensures forall i, j :: 0 <= i < j < |Firsts(rule, names)| ==>
      SeriesName(rule, Firsts(rule, names)[i]) != SeriesName(rule, Firsts(rule, names)[j])
  {
    FirstsSameSeries(rule, names);
    FirstsDistinct(rule, names);
  }

  lemma {:induction false} FirstsSameSeries(rule: SeriesRule, names: seq<string>)
    ensures SeriesOf(rule, Firsts(rule, names)) == SeriesOf(rule, names)
  {
    if names != [] {
      var prefix := names[..|names| - 1];
      var last := names[|names| - 1];
      FirstsSameSeries(rule, prefix);
      assert names == prefix + [last];
      SeriesOfSnoc(rule, prefix, last);
      if SeriesName(rule, last) !in SeriesOf(rule, prefix) {
        SeriesOfSnoc(rule, Firsts(rule, prefix), last);
      }
    }
  }

  lemma {:induction false} FirstsDistinct(rule: SeriesRule, names: seq<string>)
    ensures forall i, j :: 0 <= i < j < |Firsts(rule, names)| ==>
      SeriesName(rule, Firsts(rule, names)[i]) != SeriesName(rule, Firsts(rule, names)[j])
  {
    if names != [] {
      var prefix := names[..|names| - 1];
      var last := names[|names| - 1];
      FirstsDistinct(rule, prefix);
      var fp := Firsts(rule, prefix);
      if SeriesName(rule, last) !in SeriesOf(rule, prefix) {
        FirstsSameSeries(rule, prefix);
        var f := fp + [last];
        assert Firsts(rule, names) == f;
        forall i, j | 0 <= i < j < |f|
          ensures SeriesName(rule, f[i]) != SeriesName(rule, f[j])
        {
          assert f[i] == fp[i];
          if j == |fp| {
            assert SeriesName(rule, fp[i]) in SeriesOf(rule, fp);
          } else {
            assert f[j] == fp[j];
          }
        }
      }
    }
  }

  /** A kept name sits at a position with no earlier name of its series. */
  lemma {:induction false} FirstsKeptAt(rule: SeriesRule, names: seq<string>, x: string) returns (i: nat)
    requires x in Firsts(rule, names)
    ensures i < |names| && names[i] == x && SeriesName(rule, x) !in SeriesOf(rule, names[..i])
  {
    var prefix := names[..|names| - 1];
    var last := names[|names| - 1];
    if x in Firsts(rule, prefix) {
      i := FirstsKeptAt(rule, prefix, x);
      assert names[..i] == prefix[..i];
    } else {
      i := |names| - 1;
    }
  }

  /** A name at a position with no earlier name of its series is kept. */
  lemma {:induction false} FirstsKeeps(rule: SeriesRule, names: seq<string>, i: nat)
    requires i < |names| && SeriesName(rule, names[i]) !in SeriesOf(rule, names[..i])
    ensures names[i] in Firsts(rule, names)
  {
    var prefix := names[..|names| - 1];
    if i < |names| - 1 {
      assert prefix[..i] == names[..i];
      FirstsKeeps(rule, prefix, i);
    } else {
      assert prefix == names[..i];
    }
  }

  /** A name is kept exactly when it occurs at some position with no
      earlier name of the same series. */
  lemma FirstsMembers(rule: SeriesRule, names: seq<string>, x: string)
    ensures x in Firsts(rule, names) <==>
      exists i :: 0 <= i < |names| && names[i] == x && SeriesName(rule, x) !in SeriesOf(rule, names[..i])
  {
    if x in Firsts(rule, names) {
      var i := FirstsKeptAt(rule, names, x);
    }
    if exists i :: 0 <= i < |names| && names[i] == x && SeriesName(rule, x) !in SeriesOf(rule, names[..i]) {
      var i :| 0 <= i < |names| && names[i] == x && SeriesName(rule, x) !in SeriesOf(rule, names[..i]);
      FirstsKeeps(rule, names, i);
    }
  }

  /** A list whose series are already distinct is kept whole. */
  lemma {:induction false} FirstsOfDistinct(rule: SeriesRule, names: seq<string>)
    requires forall i, j :: 0 <= i < j < |names| ==> SeriesName(rule, names[i]) != SeriesName(rule, names[j])
    ensures Firsts(rule, names) == names
  {
    if names != [] {
      var prefix := names[..|names| - 1];
      var last := names[|names| - 1];
      FirstsOfDistinct(rule, prefix);
      forall n | n in prefix
        ensures SeriesName(rule, n) != SeriesName(rule, last)
      {
        var k :| 0 <= k < |prefix| && prefix[k] == n;
        assert names[k] == n;
      }
      assert SeriesName(rule, last) !in SeriesOf(rule, prefix);
      assert names == prefix + [last];
    }
  }


  /** Simplifying twice is simplifying once. */
  lemma FirstsIdempotent(rule: SeriesRule, names: seq<string>)
    ensures Firsts(rule, Firsts(rule, names)) == Firsts(rule, names)
  {
    FirstsSeries(rule, names);
    FirstsOfDistinct(rule, Firsts(rule, names));
  }

  /** How Firsts and SeriesOf grow by one more name. */
  lemma FirstsStep(rule: SeriesRule, xs: seq<string>, i: nat)
    requires i < |xs|
    ensures SeriesOf(rule, xs[..i + 1]) == SeriesOf(rule, xs[..i]) + {SeriesName(rule, xs[i])}
    ensures Firsts(rule, xs[..i + 1]) ==
      if SeriesName(rule, xs[i]) in SeriesOf(rule, xs[..i]) then Firsts(rule, xs[..i])
      else Firsts(rule, xs[..i]) + [xs[i]]
    ensures SeriesName(rule, xs[i]) !in SeriesOf(rule, xs[..i]) ==> xs[i] !in Firsts(rule, xs[..i])
  {
    assert xs[..i + 1][..i] == xs[..i];
    assert xs[..i + 1] == xs[..i] + [xs[i]];
    FirstsSeries(rule, xs[..i]);
  }

  /** `_simplify_list_series`: one pass with the set of series seen so far. */
  method SimplifyListSeries(rule: SeriesRule, tableList: seq<string>) returns (result: seq<string>)
    ensures result == Firsts(rule, tableList)
  {
    var seen: set<string> := {};
    result := [];
    var i := 0;
    while i < |tableList|
      invariant 0 <= i <= |tableList|
      invariant result == Firsts(rule, tableList[..i])
      invariant seen == SeriesOf(rule, tableList[..i])
    {
      FirstsStep(rule, tableList, i);
      var series := SeriesName(rule, tableList[i]);
      if series !in seen {
        result := result + [tableList[i]];
        seen := seen + {series};
      }
      i := i + 1;
    }
    assert tableList[..|tableList|] == tableList;
  }

  // ----- simplify_table_series -----

  /** The keys simplify_table_series keeps: the first key of each series in
      sorted order. */
  function KeptKeys(allNeed: Dict<string, seq<string>>): seq<string> {
    Firsts(Plain, Sort(Keys(allNeed)))
  }

  /** The entries for `keys`, each with its value in `allNeed`. */
  function Entries(allNeed: Dict<string, seq<string>>, keys: seq<string>): (r: Dict<string, seq<string>>)
    ensures Keys(r) == keys
  {
    seq(|keys|, i requires 0 <= i < |keys| => (keys[i], GetOr(allNeed, keys[i], [])))
  }

  /** simplify_table_series as a value: the kept keys with their values. */
  function SimplifiedTables(allNeed: Dict<string, seq<string>>): Dict<string, seq<string>> {
    Entries(allNeed, KeptKeys(allNeed))
  }

  lemma SortSameSeries(keys: seq<string>)
    ensures SeriesOf(Plain, Sort(keys)) == SeriesOf(Plain, keys)
    ensures forall k :: k in Sort(keys) <==> k in keys
  {
    SortFacts(keys);
    forall k ensures k in Sort(keys) <==> k in keys {
      assert k in Sort(keys) <==> k in multiset(Sort(keys));
    }
  }

  /** The kept keys are stored keys, sorted, of pairwise distinct series,
      and cover every series of the input. */
  lemma KeptKeysFacts(allNeed: Dict<string, seq<string>>)
    ensures forall k :: k in KeptKeys(allNeed) ==> k in Keys(allNeed)
    ensures Sorted(KeptKeys(allNeed))
    ensures forall i, j :: 0 <= i < j < |KeptKeys(allNeed)| ==>
      SeriesName(Plain, KeptKeys(allNeed)[i]) != SeriesName(Plain, KeptKeys(allNeed)[j])
    ensures SeriesOf(Plain, KeptKeys(allNeed)) == SeriesOf(Plain, Keys(allNeed))
  {
    var sorted := Sort(Keys(allNeed));
    SortFacts(Keys(allNeed));
    SortSameSeries(Keys(allNeed));
    FirstsSublist(Plain, sorted);
    SublistMembers(KeptKeys(allNeed), sorted);
    SublistSorted(KeptKeys(allNeed), sorted);
    FirstsSeries(Plain, sorted);
  }

  /** Each kept key is the smallest key of its series. */
  lemma KeptKeysSmallest(allNeed: Dict<string, seq<string>>, k: string, k': string)
    requires k in KeptKeys(allNeed) && k' in Keys(allNeed)
    requires SeriesName(Plain, k) == SeriesName(Plain, k')
    ensures LessEq(k, k')
  {
    var sorted := Sort(Keys(allNeed));
    SortFacts(Keys(allNeed));
    SortSameSeries(Keys(allNeed));
    var i := FirstsKeptAt(Plain, sorted, k);
    var j :| 0 <= j < |sorted| && sorted[j] == k';
    if j < i {
      assert false;
    } else if j == i {
      LessEqRefl(k);
    }
  }

  /** Distinct keys make every stored pair the one Get finds. */
  lemma {:induction false} GetDistinct<V>(d: Dict<string, V>, i: nat)
    requires i < |d|
    requires DistinctKeys(d)
    ensures Get(d, d[i].0) == Some(d[i].1)
  {
    if i > 0 {
      assert d[0].0 != d[i].0;
      assert d[1..][i - 1] == d[i];
      GetDistinct(d[1..], i - 1);
    }
  }

  /** The result of simplify_table_series: its keys are stored keys of
      pairwise distinct series, one for every series of the input, each the
      smallest of its series and carrying its original value. */
  lemma SimplifiedTablesFacts(allNeed: Dict<string, seq<string>>)
    ensures forall k :: k in Keys(SimplifiedTables(allNeed)) ==> k in Keys(allNeed)
    ensures forall i :: 0 <= i < |SimplifiedTables(allNeed)| ==>
      Get(allNeed, SimplifiedTables(allNeed)[i].0) == Some(SimplifiedTables(allNeed)[i].1)
    ensures forall i, j :: 0 <= i < j < |SimplifiedTables(allNeed)| ==>
      SeriesName(Plain, SimplifiedTables(allNeed)[i].0) != SeriesName(Plain, SimplifiedTables(allNeed)[j].0)
    ensures SeriesOf(Plain, Keys(SimplifiedTables(allNeed))) == SeriesOf(Plain, Keys(allNeed))
    ensures forall k, k' :: (k in Keys(SimplifiedTables(allNeed)) && k' in Keys(allNeed) &&
      SeriesName(Plain, k) == SeriesName(Plain, k')) ==> LessEq(k, k')
  {
    var out := SimplifiedTables(allNeed);
    KeptKeysFacts(allNeed);
    forall i | 0 <= i < |out|
      ensures Get(allNeed, out[i].0) == Some(out[i].1)
    {
      assert out[i].0 == Keys(out)[i];
    }
    forall i, j | 0 <= i < j < |out|
      ensures SeriesName(Plain, out[i].0) != SeriesName(Plain, out[j].0)
    {
      assert out[i].0 == Keys(out)[i] && out[j].0 == Keys(out)[j];
    }
    forall k, k' | k in Keys(out) && k' in Keys(allNeed) && SeriesName(Plain, k) == SeriesName(Plain, k')
      ensures LessEq(k, k')
    {
      KeptKeysSmallest(allNeed, k, k');
    }
  }

  /** simplify_table_series is idempotent. */
  lemma SimplifiedTablesIdempotent(allNeed: Dict<string, seq<string>>)
    ensures SimplifiedTables(SimplifiedTables(allNeed)) == SimplifiedTables(allNeed)
  {
    var kept := KeptKeys(allNeed);
    var out := SimplifiedTables(allNeed);
    KeptKeysFacts(allNeed);
    SortOfSorted(kept);
    FirstsOfDistinct(Plain, kept);
    assert KeptKeys(out) == kept;
    assert DistinctKeys(out) by {
      forall i, j | 0 <= i < j < |out| ensures out[i].0 != out[j].0 {
        assert out[i].0 == kept[i] && out[j].0 == kept[j];
      }
    }
    forall i | 0 <= i < |kept|
      ensures SimplifiedTables(out)[i] == out[i]
    {
      GetDistinct(out, i);
    }
  }

  /** One step of simplify_table_series: a key of a new series is appended
      with its value. */
  lemma EntriesStep(allNeed: Dict<string, seq<string>>, keys: seq<string>, key: string)
    requires key !in keys
    ensures Put(Entries(allNeed, keys), key, GetOr(allNeed, key, [])) == Entries(allNeed, keys + [key])
  {
  }

  /** The loop step of simplify_table_series on the i-th sorted key. */
  lemma SimplifyStep(allNeed: Dict<string, seq<string>>, sorted: seq<string>, i: nat)
    requires i < |sorted|
    ensures SeriesOf(Plain, sorted[..i + 1]) == SeriesOf(Plain, sorted[..i]) + {SeriesName(Plain, sorted[i])}
    ensures SeriesName(Plain, sorted[i]) in SeriesOf(Plain, sorted[..i]) ==>
      Entries(allNeed, Firsts(Plain, sorted[..i + 1])) == Entries(allNeed, Firsts(Plain, sorted[..i]))
    ensures SeriesName(Plain, sorted[i]) !in SeriesOf(Plain, sorted[..i]) ==>
      Entries(allNeed, Firsts(Plain, sorted[..i + 1])) ==
        Put(Entries(allNeed, Firsts(Plain, sorted[..i])), sorted[i], GetOr(allNeed, sorted[i], []))
  {
    FirstsStep(Plain, sorted, i);
    if SeriesName(Plain, sorted[i]) !in SeriesOf(Plain, sorted[..i]) {
      EntriesStep(allNeed, Firsts(Plain, sorted[..i]), sorted[i]);
    }
  }

  /** simplify_table_series: walks the sorted keys and copies the first key
      of each series with its value. */
  method SimplifyTableSeries(allNeed: Dict<string, seq<string>>) returns (simplified: Dict<string, seq<string>>)
    ensures simplified == SimplifiedTables(allNeed)
  {
    var sorted := Sort(Keys(allNeed));
    var seen: set<string> := {};
    simplified := [];
    var i := 0;
    while i < |sorted|
      invariant 0 <= i <= |sorted|
      invariant simplified == Entries(allNeed, Firsts(Plain, sorted[..i]))
      invariant seen == SeriesOf(Plain, sorted[..i])
    {
      var key := sorted[i];
      SimplifyStep(allNeed, sorted, i);
      var series := SeriesName(Plain, key);
      if series !in seen {
        seen := seen + {series};
        simplified := Put(simplified, key, GetOr(allNeed, key, []));
      }
      i := i + 1;
    }
    assert sorted[..|sorted|] == sorted;
  }
}
