/** String helpers with Python's meaning: str.lower/str.upper on ASCII
    letters, the regex class `\d` as ASCII digits, str.isspace (and the
    regex class `\s`), str.strip, str.split with a one-character separator,
    str.join, and substring search. */
module Text {
  import opened Basics

  predicate IsDigit(c: char) { '0' <= c <= '9' }

  predicate IsUpper(c: char) { 'A' <= c <= 'Z' }

  predicate IsLowerLetter(c: char) { 'a' <= c <= 'z' }

  /** The characters for which Python's str.isspace() holds. */
  predicate IsSpace(c: char) {
    || c == ' '
    || ('\t' <= c <= '\r')
    || ('\U{1c}' <= c <= '\U{1f}')
    || c == '\U{85}' || c == '\U{a0}' || c == '\U{1680}'
    || ('\U{2000}' <= c <= '\U{200a}')
    || c == '\U{2028}' || c == '\U{2029}' || c == '\U{202f}'
    || c == '\U{205f}' || c == '\U{3000}'
  }

  function LowerChar(c: char): char {
    if IsUpper(c) then (c as int + 32) as char else c
  }

  function UpperChar(c: char): char {
    if IsLowerLetter(c) then (c as int - 32) as char else c
  }

  function Lower(s: string): string {
    seq(|s|, i requires 0 <= i < |s| => LowerChar(s[i]))
  }

  function Upper(s: string): string {
    seq(|s|, i requires 0 <= i < |s| => UpperChar(s[i]))
  }

  lemma LowerConcat(a: string, b: string)
    ensures Lower(a + b) == Lower(a) + Lower(b)
  {
    assert forall i :: 0 <= i < |a + b| ==> Lower(a + b)[i] == (Lower(a) + Lower(b))[i];
  }

  lemma UpperConcat(a: string, b: string)
    ensures Upper(a + b) == Upper(a) + Upper(b)
  {
    assert forall i :: 0 <= i < |a + b| ==> Upper(a + b)[i] == (Upper(a) + Upper(b))[i];
  }

  lemma LowerIdempotent(s: string)
    ensures Lower(Lower(s)) == Lower(s)
  {
  }

  /** Upper-casing forgets the case of the input. */
  lemma UpperOfLower(s: string)
    ensures Upper(Lower(s)) == Upper(s)
  {
  }

  /** `re.sub(r'\d+', '', s)` and `re.sub(r'\d', '', s)`: every digit removed. */
  function RemoveDigits(s: string): string {
    if s == [] then [] else (if IsDigit(s[0]) then [] else [s[0]]) + RemoveDigits(s[1..])
  }

  /** `s.replace(c, '')` for a single character. */
  function RemoveChar(s: string, c: char): string {
    if s == [] then [] else (if s[0] == c then [] else [s[0]]) + RemoveChar(s[1..], c)
  }

  lemma {:induction false} RemoveDigitsConcat(a: string, b: string)
    ensures RemoveDigits(a + b) == RemoveDigits(a) + RemoveDigits(b)
  {
    if a == [] {
      assert a + b == b;
    } else {
      assert (a + b)[1..] == a[1..] + b;
      RemoveDigitsConcat(a[1..], b);
    }
  }

  lemma {:induction false} RemoveCharConcat(a: string, b: string, c: char)
    ensures RemoveChar(a + b, c) == RemoveChar(a, c) + RemoveChar(b, c)
  {
    if a == [] {
      assert a + b == b;
    } else {
      assert (a + b)[1..] == a[1..] + b;
      RemoveCharConcat(a[1..], b, c);
    }
  }

  lemma {:induction false} RemoveDigitsNoDigit(s: string)
    ensures forall i :: 0 <= i < |RemoveDigits(s)| ==> !IsDigit(RemoveDigits(s)[i])
  {
    if s != [] {
      RemoveDigitsNoDigit(s[1..]);
    }
  }

  lemma {:induction false} RemoveDigitsOfDigitFree(s: string)
    requires forall i :: 0 <= i < |s| ==> !IsDigit(s[i])
    ensures RemoveDigits(s) == s
  {
    if s != [] {
      RemoveDigitsOfDigitFree(s[1..]);
    }
  }

  lemma {:induction false} RemoveCharGone(s: string, c: char)
    ensures forall i :: 0 <= i < |RemoveChar(s, c)| ==> RemoveChar(s, c)[i] != c
  {
    if s != [] {
      RemoveCharGone(s[1..], c);
    }
  }

  lemma {:induction false} RemoveDigitsKeepsOther(s: string, c: char)
    requires forall i :: 0 <= i < |s| ==> !IsDigit(s[i]) ==> s[i] != c
    ensures forall i :: 0 <= i < |RemoveDigits(s)| ==> RemoveDigits(s)[i] != c
  {
    if s != [] {
      RemoveDigitsKeepsOther(s[1..], c);
    }
  }

  /** Removing digits and lower-casing commute (digits are not letters). */
  lemma {:induction false} RemoveDigitsLower(s: string)
    ensures RemoveDigits(Lower(s)) == Lower(RemoveDigits(s))
  {
    if s != [] {
      assert Lower(s) == [LowerChar(s[0])] + Lower(s[1..]);
      RemoveDigitsLower(s[1..]);
      LowerConcat(if IsDigit(s[0]) then [] else [s[0]], RemoveDigits(s[1..]));
    }
  }

  lemma {:induction false} RemoveDigitsIdempotent(s: string)
    ensures RemoveDigits(RemoveDigits(s)) == RemoveDigits(s)
  {
    RemoveDigitsNoDigit(s);
    RemoveDigitsOfDigitFree(RemoveDigits(s));
  }

  // ----- strip -----

  function StripLeft(s: string): string {
    if s != [] && IsSpace(s[0]) then StripLeft(s[1..]) else s
  }

  function StripRight(s: string): string {
    if s != [] && IsSpace(s[|s| - 1]) then StripRight(s[..|s| - 1]) else s
  }

  /** Python's str.strip() with no argument. */
  function Strip(s: string): string {
    StripRight(StripLeft(s))
  }

  predicate IsStripped(s: string) {
    s == [] || (!IsSpace(s[0]) && !IsSpace(s[|s| - 1]))
  }

  lemma {:induction false} StripLeftShape(s: string)
    ensures StripLeft(s) == [] || !IsSpace(StripLeft(s)[0])
    ensures exists k :: 0 <= k <= |s| && StripLeft(s) == s[k..]
  {
    if s != [] && IsSpace(s[0]) {
      StripLeftShape(s[1..]);
      var k :| 0 <= k <= |s[1..]| && StripLeft(s[1..]) == s[1..][k..];
      assert s[1..][k..] == s[k + 1..];
    } else {
      assert s == s[0..];
    }
  }

  lemma {:induction false} StripRightShape(s: string)
    ensures StripRight(s) == [] || !IsSpace(StripRight(s)[|StripRight(s)| - 1])
    ensures exists k :: 0 <= k <= |s| && StripRight(s) == s[..k]
    ensures s != [] && !IsSpace(s[0]) ==> StripRight(s) != [] && StripRight(s)[0] == s[0]
  {
    if s != [] && IsSpace(s[|s| - 1]) {
      StripRightShape(s[..|s| - 1]);
      var k :| 0 <= k <= |s[..|s| - 1]| && StripRight(s[..|s| - 1]) == s[..|s| - 1][..k];
      assert s[..|s| - 1][..k] == s[..k];
    } else {
      assert s == s[..|s|];
    }
  }

  /** The result of strip has no surrounding white space and is a piece of
      its input. */
  lemma StripIsStripped(s: string)
    ensures IsStripped(Strip(s))
    ensures exists i, j :: 0 <= i <= j <= |s| && Strip(s) == s[i..j]
  {
    StripLeftShape(s);
    StripRightShape(StripLeft(s));
    var i :| 0 <= i <= |s| && StripLeft(s) == s[i..];
    var j :| 0 <= j <= |s[i..]| && StripRight(s[i..]) == s[i..][..j];
    assert s[i..][..j] == s[i..i + j];
  }

  lemma StripOfStripped(s: string)
    requires IsStripped(s)
    ensures Strip(s) == s
  {
  }

  // ----- searching -----

  predicate StartsAt(s: string, i: int, pat: string) {
    0 <= i && i + |pat| <= |s| && s[i..i + |pat|] == pat
  }

  predicate StartsWith(s: string, pat: string) {
    |pat| <= |s| && s[..|pat|] == pat
  }

  /** Python's `pat in s`. */
  predicate Contains(s: string, pat: string) {
    exists i :: 0 <= i <= |s| - |pat| && StartsAt(s, i, pat)
  }

  /** `s.replace(pat, "")`: occurrences are removed left to right, without
      overlapping. */
  function RemoveAll(s: string, pat: string): string
    requires pat != []
    decreases |s|
  {
    if |s| < |pat| then s
    else if s[..|pat|] == pat then RemoveAll(s[|pat|..], pat)
    else [s[0]] + RemoveAll(s[1..], pat)
  }

  /** Removing a pattern that does not occur changes nothing. */
  lemma {:induction false} RemoveAllAbsent(s: string, pat: string)
    requires pat != [] && !Contains(s, pat)
    ensures RemoveAll(s, pat) == s
    decreases |s|
  {
    if |s| >= |pat| {
      assert !StartsAt(s, 0, pat);
      forall i | 0 <= i <= |s[1..]| - |pat| && StartsAt(s[1..], i, pat)
        ensures false
      {
        assert s[1..][i..i + |pat|] == s[i + 1..i + 1 + |pat|];
        assert StartsAt(s, i + 1, pat);
      }
      RemoveAllAbsent(s[1..], pat);
      assert s == [s[0]] + s[1..];
    }
  }

  /** The first occurrence of `pat` at or after `from` (Python's str.find). */
  function Find(s: string, pat: string, from: nat): (r: Option<nat>)
    ensures r.Some? ==> from <= r.value && r.value + |pat| <= |s|
    decreases |s| - from
  {
    if from + |pat| > |s| then None
    else if s[from..from + |pat|] == pat then Some(from)
    else Find(s, pat, from + 1)
  }

  /** Find gives the first occurrence at or after `from`, and None when
      there is none. */
  lemma {:induction false} FindFacts(s: string, pat: string, from: nat)
    ensures Find(s, pat, from).Some? ==> StartsAt(s, Find(s, pat, from).value, pat)
    ensures Find(s, pat, from).Some? ==> forall j :: from <= j < Find(s, pat, from).value ==> !StartsAt(s, j, pat)
    ensures Find(s, pat, from).None? ==> forall j :: from <= j ==> !StartsAt(s, j, pat)
    decreases |s| - from
  {
    if from + |pat| <= |s| && s[from..from + |pat|] != pat {
      FindFacts(s, pat, from + 1);
    }
  }

  /** The index of the first `c` in `s`. */
  function IndexOf(s: string, c: char): (r: Option<nat>)
    ensures r.Some? ==> r.value < |s| && s[r.value] == c && c !in s[..r.value]
    ensures r.None? ==> c !in s
  {
    if s == [] then None
    else if s[0] == c then Some(0)
    else match IndexOf(s[1..], c)
      case None => None
      case Some(i) => assert s[1..][..i] == s[1..i + 1]; Some(i + 1)
  }

  /** Python's `s.split(sep)` for a one-character separator. */
  function SplitOn(s: string, sep: char): (r: seq<string>)
    ensures |r| >= 1
    decreases |s|
  {
    match IndexOf(s, sep)
    case None => [s]
    case Some(i) => [s[..i]] + SplitOn(s[i + 1..], sep)
  }

  /** Python's `sep.join(parts)`. */
  function JoinWith(sep: string, parts: seq<string>): string {
    if |parts| == 0 then ""
    else if |parts| == 1 then parts[0]
    else parts[0] + sep + JoinWith(sep, parts[1..])
  }

  /** Splitting and joining with the same separator gives back the input. */
  lemma {:induction false} JoinSplit(s: string, sep: char)
    ensures JoinWith([sep], SplitOn(s, sep)) == s
    decreases |s|
  {
    match IndexOf(s, sep)
    case None =>
    case Some(i) =>
      var rest := SplitOn(s[i + 1..], sep);
      JoinSplit(s[i + 1..], sep);
      var parts := [s[..i]] + rest;
      assert SplitOn(s, sep) == parts;
      assert parts[1..] == rest;
      assert JoinWith([sep], parts) == s[..i] + [sep] + JoinWith([sep], rest);
      assert s == s[..i] + [sep] + s[i + 1..];
  }

  /** `s.split(sep)[0]`: the text before the first separator. */
  function BeforeFirst(s: string, sep: char): string {
    SplitOn(s, sep)[0]
  }
}
