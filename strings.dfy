/**
 * The pieces of Go's `strings`, `strconv`, `fmt` (%d) and `path` packages that
 * the bot relies on, written out so that their behaviour can be reasoned about.
 */
module Strings {
  import opened Wrappers

  // ---------------------------------------------------------------- prefixes

  /** strings.HasPrefix */
  predicate HasPrefix(s: string, prefix: string) {
    |prefix| <= |s| && s[..|prefix|] == prefix
  }

  /** strings.TrimPrefix: drops one leading copy of `prefix`, if there is one. */
  function TrimPrefix(s: string, prefix: string): (r: string)
    ensures HasPrefix(s, prefix) ==> prefix + r == s
    ensures !HasPrefix(s, prefix) ==> r == s
  {
    if HasPrefix(s, prefix) then
      assert s == s[..|prefix|] + s[|prefix|..];
      s[|prefix|..]
    else s
  }

  // ------------------------------------------------------- first occurrences

  /** `pattern` occurs in `s` starting at index `i`. */
  predicate OccursAt(s: string, pattern: string, i: int) {
    0 <= i && i + |pattern| <= |s| && s[i..i + |pattern|] == pattern
  }

  /** `i` is the index of the first occurrence of `pattern` in `s`. */
  predicate IsFirstOccurrence(s: string, pattern: string, i: int) {
    OccursAt(s, pattern, i) && forall j :: 0 <= j < i ==> !OccursAt(s, pattern, j)
  }

  /** The first occurrence of `pattern` in `s` at or after `from`. */
  function IndexFrom(s: string, pattern: string, from: nat): (r: Option<nat>)
    requires from <= |s|
    decreases |s| - from
    ensures r.Some? ==> from <= r.value && OccursAt(s, pattern, r.value)
    ensures r.Some? ==> forall j :: from <= j < r.value ==> !OccursAt(s, pattern, j)
    ensures r.None? ==> forall j :: from <= j ==> !OccursAt(s, pattern, j)
  {
    if OccursAt(s, pattern, from) then Some(from)
    else if from == |s| then None
    else IndexFrom(s, pattern, from + 1)
  }

  /** strings.Index (None for Go's -1). */
  function Index(s: string, pattern: string): (r: Option<nat>)
    ensures r.Some? ==> IsFirstOccurrence(s, pattern, r.value)
    ensures r.None? ==> forall j :: !OccursAt(s, pattern, j)
  {
    IndexFrom(s, pattern, 0)
  }

  /** strings.Contains */
  predicate Contains(s: string, pattern: string) {
    Index(s, pattern).Some?
  }

  /** strings.Replace(s, pattern, replacement, 1): replaces the first occurrence only. */
  function ReplaceFirst(s: string, pattern: string, replacement: string): string {
    match Index(s, pattern)
    case None => s
    case Some(i) => s[..i] + replacement + s[i + |pattern|..]
  }

  /**
   * What ReplaceFirst means: with no occurrence the text is unchanged;
   * otherwise exactly the first occurrence is exchanged for `replacement`.
   */
  lemma ReplaceFirstMeaning(s: string, pattern: string, replacement: string, i: int)
    ensures (forall j :: !OccursAt(s, pattern, j)) ==> ReplaceFirst(s, pattern, replacement) == s
    ensures IsFirstOccurrence(s, pattern, i) ==>
              ReplaceFirst(s, pattern, replacement) == s[..i] + replacement + s[i + |pattern|..]
  {
    if IsFirstOccurrence(s, pattern, i) {
      IndexIsFirstOccurrence(s, pattern, i);
    }
  }

  /** The first occurrence is unique, so Index finds exactly it. */
  lemma IndexIsFirstOccurrence(s: string, pattern: string, i: int)
    requires IsFirstOccurrence(s, pattern, i)
    ensures Index(s, pattern) == Some(i)
  {
  }

  /** An occurrence in `head + tail` that starts past `head` is an occurrence in `tail`. */
  lemma OccursShifted(head: string, tail: string, pattern: string, j: nat)
    ensures OccursAt(head + tail, pattern, |head| + j) <==> OccursAt(tail, pattern, j)
  {
    if 0 <= j && j + |pattern| <= |tail| {
      assert (head + tail)[|head| + j..|head| + j + |pattern|] == tail[j..j + |pattern|];
    }
  }

  /**
   * When no occurrence of `pattern` starts inside `head`, replacing the first
   * occurrence in `head + tail` only touches `tail`.
   */
  lemma ReplaceFirstSkipsHead(head: string, tail: string, pattern: string, replacement: string)
    requires forall j :: 0 <= j < |head| ==> !OccursAt(head + tail, pattern, j)
    ensures ReplaceFirst(head + tail, pattern, replacement) == head + ReplaceFirst(tail, pattern, replacement)
  {
    if Index(tail, pattern).None? {
      NoOccurrenceAnywhere(head, tail, pattern);
    } else {
      ReplaceFirstSkipsHeadAt(head, tail, pattern, replacement, Index(tail, pattern).value);
    }
  }

  lemma ReplaceFirstSkipsHeadAt(head: string, tail: string, pattern: string, replacement: string, i: nat)
    requires forall j :: 0 <= j < |head| ==> !OccursAt(head + tail, pattern, j)
    requires Index(tail, pattern) == Some(i)
    ensures ReplaceFirst(head + tail, pattern, replacement) == head + ReplaceFirst(tail, pattern, replacement)
  {
    FirstOccurrenceShifted(head, tail, pattern, i);
    ReplaceFirstAt(head + tail, pattern, replacement, |head| + i);
    ReplaceFirstAt(tail, pattern, replacement, i);
    SpliceAfterHead(head, tail, replacement, i, i + |pattern|);
  }

  lemma ReplaceFirstAt(s: string, pattern: string, replacement: string, k: nat)
    requires Index(s, pattern) == Some(k)
    ensures k + |pattern| <= |s|
    ensures ReplaceFirst(s, pattern, replacement) == s[..k] + replacement + s[k + |pattern|..]
  {
  }

  lemma SpliceAfterHead(head: string, tail: string, middle: string, i: nat, j: nat)
    requires i <= j <= |tail|
    ensures (head + tail)[..|head| + i] + middle + (head + tail)[|head| + j..]
         == head + (tail[..i] + middle + tail[j..])
  {
    assert (head + tail)[..|head| + i] == head + tail[..i];
    assert (head + tail)[|head| + j..] == tail[j..];
  }

  lemma NoOccurrenceAnywhere(head: string, tail: string, pattern: string)
    requires forall j :: 0 <= j < |head| ==> !OccursAt(head + tail, pattern, j)
    requires forall j :: !OccursAt(tail, pattern, j)
    ensures Index(head + tail, pattern) == None
  {
    forall j | |head| <= j ensures !OccursAt(head + tail, pattern, j) {
      OccursShifted(head, tail, pattern, j - |head|);
    }
  }

  lemma FirstOccurrenceShifted(head: string, tail: string, pattern: string, i: nat)
    requires forall j :: 0 <= j < |head| ==> !OccursAt(head + tail, pattern, j)
    requires IsFirstOccurrence(tail, pattern, i)
    ensures Index(head + tail, pattern) == Some(|head| + i)
  {
    OccursShifted(head, tail, pattern, i);
    forall j | |head| <= j < |head| + i ensures !OccursAt(head + tail, pattern, j) {
      OccursShifted(head, tail, pattern, j - |head|);
    }
    IndexIsFirstOccurrence(head + tail, pattern, |head| + i);
  }

  /** No occurrence of `pattern` starts inside `head` when `head` lacks its first character. */
  lemma NoOccurrenceInHead(head: string, tail: string, pattern: string)
    requires |pattern| > 0 && pattern[0] !in head
    ensures forall j :: 0 <= j < |head| ==> !OccursAt(head + tail, pattern, j)
  {
  }

  /**
   * No occurrence of `pattern` starts inside `head` when every copy of its
   * first character in `head` is followed, still inside `head`, by
   * something other than its second character.
   */
  lemma NoOccurrenceInHeadByPair(head: string, tail: string, pattern: string)
    requires |pattern| >= 2
    requires forall j :: 0 <= j < |head| && head[j] == pattern[0] ==> j + 1 < |head| && head[j + 1] != pattern[1]
    ensures forall j :: 0 <= j < |head| ==> !OccursAt(head + tail, pattern, j)
  {
    forall j | 0 <= j < |head| ensures !OccursAt(head + tail, pattern, j) {
      if j + |pattern| <= |head + tail| {
        var window := (head + tail)[j..j + |pattern|];
        assert window[0] == head[j];
        if head[j] == pattern[0] {
          assert window[1] == head[j + 1] != pattern[1];
        }
      }
    }
  }

  /** Taking one more character appends it. */
  lemma TakeOneMore(s: string, k: nat)
    requires k < |s|
    ensures s[..k + 1] == s[..k] + [s[k]]
  {
  }

  /** A prefix of the head is a prefix of anything the head starts. */
  lemma PrefixOfConcat(head: string, tail: string, prefix: string)
    requires HasPrefix(head, prefix)
    ensures HasPrefix(head + tail, prefix)
  {
    assert (head + tail)[..|prefix|] == head[..|prefix|];
  }

  /** Replacing a prefix the text starts with exchanges exactly that prefix. */
  lemma ReplacePrefix(s: string, prefix: string, replacement: string)
    requires HasPrefix(s, prefix)
    ensures ReplaceFirst(s, prefix, replacement) == replacement + s[|prefix|..]
  {
    assert OccursAt(s, prefix, 0);
    IndexIsFirstOccurrence(s, prefix, 0);
    ReplaceFirstAt(s, prefix, replacement, 0);
    assert s[..0] == [];
  }

  // ------------------------------------------------------------- white space

  /** unicode.IsSpace, the predicate strings.TrimSpace strips by. */
  predicate IsSpace(c: char) {
    || c == ' ' || c == '\t' || c == '\n' || c == '\r' || c == '\U{B}' || c == '\U{C}'
    || c == '\U{85}' || c == '\U{A0}' || c == '\U{1680}'
    || ('\U{2000}' <= c <= '\U{200A}')
    || c == '\U{2028}' || c == '\U{2029}' || c == '\U{202F}' || c == '\U{205F}' || c == '\U{3000}'
  }

  /** The index of the first non-space character at or after `i` (|s| if none). */
  function LeftEdge(s: string, i: nat): (k: nat)
    requires i <= |s|
    decreases |s| - i
    ensures i <= k <= |s|
    ensures forall m :: i <= m < k ==> IsSpace(s[m])
    ensures k < |s| ==> !IsSpace(s[k])
  {
    if i < |s| && IsSpace(s[i]) then LeftEdge(s, i + 1) else i
  }

  /** The end of `s[lo..j]` once trailing spaces are dropped. */
  function RightEdge(s: string, lo: nat, j: nat): (k: nat)
    requires lo <= j <= |s|
    decreases j
    ensures lo <= k <= j
    ensures forall m :: k <= m < j ==> IsSpace(s[m])
    ensures k > lo ==> !IsSpace(s[k - 1])
  {
    if j > lo && IsSpace(s[j - 1]) then RightEdge(s, lo, j - 1) else j
  }

  /** strings.TrimSpace: `s` without its leading and trailing white space. */
  function TrimSpace(s: string): (r: string)
    ensures |r| <= |s|
    ensures r == [] || (!IsSpace(r[0]) && !IsSpace(r[|r| - 1]))
    ensures (s == [] || (!IsSpace(s[0]) && !IsSpace(s[|s| - 1]))) ==> r == s
    ensures (forall m :: 0 <= m < |s| ==> IsSpace(s[m])) <==> r == []
  {
    var i := LeftEdge(s, 0);
    var j := RightEdge(s, i, |s|);
    s[i..j]
  }

  /** TrimSpace only removes white space: what it drops on either side is space. */
  lemma TrimSpaceIsSlice(s: string)
    ensures var i := LeftEdge(s, 0);
            var j := RightEdge(s, i, |s|);
            && TrimSpace(s) == s[i..j]
            && (forall m :: 0 <= m < i ==> IsSpace(s[m]))
            && (forall m :: j <= m < |s| ==> IsSpace(s[m]))
  {
  }

  // -------------------------------------------------------------- splitting

  /** The index of the first `c` in `s`. */
  function FirstIndexOf(s: string, c: char): (i: nat)
    requires c in s
    ensures i < |s| && s[i] == c && c !in s[..i]
  {
    if s[0] == c then 0
    else
      assert c in s[1..] by { var k :| 0 <= k < |s| && s[k] == c; assert s[1..][k - 1] == c; }
      var i := 1 + FirstIndexOf(s[1..], c);
      assert s[..i] == [s[0]] + s[1..][..i - 1];
      i
  }

  /** strings.SplitSeq(s, string(sep)): the pieces between the separators, in order. */
  function Split(s: string, sep: char): (parts: seq<string>)
    decreases |s|
    ensures |parts| >= 1
    ensures forall k :: 0 <= k < |parts| ==> sep !in parts[k]
  {
    if sep in s then
      var i := FirstIndexOf(s, sep);
      [s[..i]] + Split(s[i + 1..], sep)
    else [s]
  }

  /** strings.Join */
  function Join(parts: seq<string>, sep: string): string {
    if |parts| == 0 then ""
    else if |parts| == 1 then parts[0]
    else parts[0] + sep + Join(parts[1..], sep)
  }

  /** Splitting loses nothing: joining the pieces with the separator gives the input back. */
  lemma {:induction false} SplitJoin(s: string, sep: char)
    ensures Join(Split(s, sep), [sep]) == s
    decreases |s|
  {
    if sep in s {
      var i := FirstIndexOf(s, sep);
      var rest := Split(s[i + 1..], sep);
      SplitJoin(s[i + 1..], sep);
      var parts := [s[..i]] + rest;
      assert Split(s, sep) == parts;
      assert |parts| >= 2 && parts[0] == s[..i] && parts[1..] == rest;
      assert Join(parts, [sep]) == s[..i] + [sep] + s[i + 1..];
      assert s == s[..i] + [sep] + s[i + 1..];
    }
  }

  /** strings.SplitN(s, string(sep), 2): the text before the first `sep`, and what follows it if there is one. */
  function Cut(s: string, sep: char): (r: (string, Option<string>))
    ensures sep !in r.0
    ensures r.1.None? <==> sep !in s
    ensures r.1.Some? ==> s == r.0 + [sep] + r.1.value
    ensures r.1.None? ==> r.0 == s
  {
    if sep in s then
      var i := FirstIndexOf(s, sep);
      assert s == s[..i] + [sep] + s[i + 1..];
      (s[..i], Some(s[i + 1..]))
    else (s, None)
  }

  /** Cutting at the first separator finds the one that follows a separator-free head. */
  lemma CutAfterHead(head: string, tail: string, sep: char)
    requires sep !in head
    ensures Cut(head + [sep] + tail, sep) == (head, Some(tail))
  {
    var s := head + [sep] + tail;
    assert s[|head|] == sep;
    var i := FirstIndexOf(s, sep);
    assert s[..i] == head;
    assert s[i + 1..] == tail;
  }

  // ---------------------------------------------------------------- numbers

  const MinInt64: int := -0x8000_0000_0000_0000
  const MaxInt64: int := 0x7FFF_FFFF_FFFF_FFFF

  predicate IsDigit(c: char) { '0' <= c <= '9' }

  predicate AllDigits(s: string) { forall k :: 0 <= k < |s| ==> IsDigit(s[k]) }

  function DigitChar(d: nat): (c: char)
    requires d < 10
    ensures IsDigit(c) && c as int - '0' as int == d
  {
    ('0' as int + d) as char
  }

  /** The value of a string of decimal digits. */
  function DigitsValue(s: string): nat
    requires AllDigits(s)
  {
    if |s| == 0 then 0 else DigitsValue(s[..|s| - 1]) * 10 + (s[|s| - 1] as int - '0' as int)
  }

  /** fmt's %d of a non-negative number. */
  function NatToString(n: nat): string
    decreases n
  {
    if n < 10 then [DigitChar(n)] else NatToString(n / 10) + [DigitChar(n % 10)]
  }

  /** fmt's %d (and strconv.Itoa). */
  function IntToString(i: int): string {
    if i < 0 then "-" + NatToString(-i) else NatToString(i)
  }

  lemma {:induction false} NatToStringDigits(n: nat)
    ensures |NatToString(n)| >= 1 && AllDigits(NatToString(n))
    ensures DigitsValue(NatToString(n)) == n
    decreases n
  {
    if n >= 10 {
      NatToStringDigits(n / 10);
      var s := NatToString(n);
      assert s[..|s| - 1] == NatToString(n / 10);
    }
  }

  /** %d starts with '-' exactly for negative numbers. */
  lemma IntToStringSign(i: int)
    ensures |IntToString(i)| >= 1
    ensures IntToString(i)[0] == '-' <==> i < 0
  {
    NatToStringDigits(if i < 0 then -i else i);
  }

  /** %d prints only digits and a leading minus sign. */
  lemma IntToStringChars(i: int)
    ensures forall k :: 0 <= k < |IntToString(i)| ==> IsDigit(IntToString(i)[k]) || IntToString(i)[k] == '-'
  {
    NatToStringDigits(if i < 0 then -i else i);
  }

  /** %d never prints the same text for two different numbers. */
  lemma IntToStringInjective(a: int, b: int)
    ensures IntToString(a) == IntToString(b) ==> a == b
  {
    if IntToString(a) == IntToString(b) {
      IntToStringSign(a);
      IntToStringSign(b);
      var na := if a < 0 then -a else a;
      var nb := if b < 0 then -b else b;
      NatToStringDigits(na);
      NatToStringDigits(nb);
      if a < 0 {
        assert NatToString(na) == IntToString(a)[1..];
        assert NatToString(nb) == IntToString(b)[1..];
      }
    }
  }

  /**
   * strconv.Atoi: an optional sign and at least one decimal digit, whose value
   * fits in 64 bits. Anything else is an error (None).
   */
  function Atoi(s: string): (r: Option<int>)
    ensures r.Some? ==> MinInt64 <= r.value <= MaxInt64
  {
    var signed := |s| > 0 && (s[0] == '-' || s[0] == '+');
    var digits := if signed then s[1..] else s;
    if |digits| == 0 || !AllDigits(digits) then None
    else
      var v: int := if signed && s[0] == '-' then -(DigitsValue(digits) as int) else DigitsValue(digits);
      if MinInt64 <= v <= MaxInt64 then Some(v) else None
  }

  /** Atoi reads back what %d prints, for every 64-bit integer. */
  lemma AtoiIntToString(i: int)
    requires MinInt64 <= i <= MaxInt64
    ensures Atoi(IntToString(i)) == Some(i)
  {
    var n := if i < 0 then -i else i;
    NatToStringDigits(n);
    var s := IntToString(i);
    if i < 0 {
      assert s[0] == '-' && s[1..] == NatToString(n);
    } else {
      assert IsDigit(s[0]);
    }
  }

  /** Atoi accepts only an optional sign followed by decimal digits. */
  lemma AtoiSyntax(s: string)
    requires Atoi(s).Some?
    ensures |s| >= 1
    ensures AllDigits(s) || (|s| >= 2 && (s[0] == '-' || s[0] == '+') && AllDigits(s[1..]))
  {
  }

  // ------------------------------------------------------------------ paths

  /** The part of `q` after its last '/' (all of `q` if it has none). */
  function AfterLastSlash(q: string): (r: string)
    ensures '/' !in r
    ensures |r| <= |q| && r == q[|q| - |r|..]
    ensures |r| < |q| ==> q[|q| - |r| - 1] == '/'
  {
    if |q| == 0 then q
    else if q[|q| - 1] == '/' then ""
    else
      var r := AfterLastSlash(q[..|q| - 1]) + [q[|q| - 1]];
      assert q[..|q| - 1][|q| - 1 - (|r| - 1)..] + [q[|q| - 1]] == q[|q| - |r|..];
      r
  }

  /** `q` without its trailing slashes. */
  function StripTrailingSlashes(q: string): (r: string)
    ensures |r| <= |q| && r == q[..|r|]
    ensures r == [] || r[|r| - 1] != '/'
    ensures forall k :: |r| <= k < |q| ==> q[k] == '/'
  {
    if |q| > 0 && q[|q| - 1] == '/' then
      var r := StripTrailingSlashes(q[..|q| - 1]);
      assert q[..|q| - 1][..|r|] == q[..|r|];
      r
    else q
  }

  /** path.Base: the last element of a slash-separated path. */
  function PathBase(p: string): (r: string)
    ensures r != ""
    ensures '/' in r ==> r == "/"
  {
    if p == "" then "."
    else
      var q := StripTrailingSlashes(p);
      if q == "" then "/"
      else
        var b := AfterLastSlash(q);
        assert b != "" by { assert q[|q| - 1] != '/'; }
        b
  }

  /** path.Base returns the last segment of a path, whatever comes before it. */
  lemma PathBaseLastSegment(dir: string, segment: string)
    requires segment != "" && '/' !in segment
    ensures PathBase(dir + "/" + segment) == segment
  {
    var p := dir + "/" + segment;
    assert p[|p| - 1] == segment[|segment| - 1];
    assert StripTrailingSlashes(p) == p;
    var b := AfterLastSlash(p);
    assert p[|p| - |segment|..] == segment;
    assert p[|p| - |segment| - 1] == '/';
  }
}
