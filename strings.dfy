/**
 * The string operations the lead engine relies on: JavaScript's `includes`,
 * `toLowerCase`, `split`, `join`, the regular-expression character classes
 * `\d`, `\s`, `\w`, and number-to-text rendering.
 */
module Strings {
  import opened Options

  /** `\d` */
  predicate IsDigit(c: char) { '0' <= c <= '9' }

  /** `\w`: ASCII letters, digits and underscore (JavaScript's `\w` without the `u` flag). */
  predicate IsWordChar(c: char) {
    ('a' <= c <= 'z') || ('A' <= c <= 'Z') || IsDigit(c) || c == '_'
  }

  /** `\s`, which is also the set `String.prototype.trim` removes: WhiteSpace and LineTerminator. */
  predicate IsSpace(c: char) {
    c == ' ' || c == '\t' || c == '\n' || c == '\r' || c == '\U{000B}' || c == '\U{000C}'
    || c == '\U{00A0}' || c == '\U{1680}' || ('\U{2000}' <= c <= '\U{200A}')
    || c == '\U{2028}' || c == '\U{2029}' || c == '\U{202F}' || c == '\U{205F}'
    || c == '\U{3000}' || c == '\U{FEFF}'
  }

  function LowerChar(c: char): char {
    if 'A' <= c <= 'Z' then (c as int + 32) as char else c
  }

  function UpperChar(c: char): char {
    if 'a' <= c <= 'z' then (c as int - 32) as char else c
  }

  /** `toLowerCase`, restricted to the ASCII letters. */
  function Lower(s: string): (r: string)
    ensures |r| == |s|
    ensures forall i :: 0 <= i < |s| ==> r[i] == LowerChar(s[i])
  {
    seq(|s|, i requires 0 <= i < |s| => LowerChar(s[i]))
  }

  /** `charAt(0).toUpperCase() + slice(1)` */
  function Capitalize(s: string): (r: string)
    ensures |r| == |s|
    ensures |s| > 0 ==> r[0] == UpperChar(s[0]) && r[1..] == s[1..]
  {
    if s == [] then [] else [UpperChar(s[0])] + s[1..]
  }

  /** A character outside the Basic Multilingual Plane, such as an emoji: two UTF-16 code units. */
  predicate Astral(c: char) { c as int > 0xFFFF }

  /** `s.length`: the number of UTF-16 code units, where an astral character counts twice. */
  function Utf16Length(s: string): (n: nat)
    ensures |s| <= n <= 2 * |s|
    ensures n == |s| <==> forall i :: 0 <= i < |s| ==> !Astral(s[i])
  {
    if s == [] then 0
    else
      var rest := Utf16Length(s[1..]);
      assert forall i :: 1 <= i < |s| ==> s[i] == s[1..][i - 1];
      (if Astral(s[0]) then 2 else 1) + rest
  }

  /** The code-unit length of a concatenation is the sum of the lengths. */
  lemma {:induction false} Utf16LengthAppend(a: string, b: string)
    ensures Utf16Length(a + b) == Utf16Length(a) + Utf16Length(b)
    decreases |a|
  {
    if a == [] {
      assert a + b == b;
    } else {
      var ab := a + b;
      assert ab != [] && ab[0] == a[0] && ab[1..] == a[1..] + b;
      Utf16LengthAppend(a[1..], b);
      assert Utf16Length(ab) == (if Astral(a[0]) then 2 else 1) + Utf16Length(a[1..] + b);
    }
  }

  /** Lower-casing keeps the code-unit length. */
  lemma {:induction false} Utf16LengthLower(s: string)
    ensures Utf16Length(Lower(s)) == Utf16Length(s)
    decreases |s|
  {
    if s != [] {
      assert Lower(s)[1..] == Lower(s[1..]);
      Utf16LengthLower(s[1..]);
    }
  }

  /** `p` occurs in `s` starting at index `i`. */
  predicate OccursAt(s: string, p: string, i: nat) {
    i + |p| <= |s| && s[i..i + |p|] == p
  }

  predicate StartsWith(s: string, p: string) {
    OccursAt(s, p, 0)
  }

  /** `indexOf(p, from)`: the least index at or after `from` where `p` occurs, or -1. */
  function IndexFrom(s: string, p: string, from: nat): (r: int)
    decreases |s| - from
    ensures r >= 0 ==> from <= r && OccursAt(s, p, r)
    ensures r >= -1
    ensures forall i :: from <= i && OccursAt(s, p, i) ==> 0 <= r <= i
  {
    if from + |p| > |s| then -1
    else if s[from..from + |p|] == p then from
    else IndexFrom(s, p, from + 1)
  }

  /** `s.includes(p)` */
  predicate Contains(s: string, p: string) {
    IndexFrom(s, p, 0) >= 0
  }

  lemma ContainsAt(s: string, p: string, i: nat)
    requires OccursAt(s, p, i)
    ensures Contains(s, p)
  {
  }

  /** Every character of a contained pattern is a character of `s`. */
  lemma ContainedCharsOccur(s: string, p: string, k: nat)
    requires k < |p|
    ensures Contains(s, p) ==> p[k] in s
  {
    if Contains(s, p) {
      var r := IndexFrom(s, p, 0);
      assert s[r..r + |p|][k] == p[k];
      assert s[r + k] in s;
    }
  }

  /** A pattern with a character that `s` does not have does not occur in `s`. */
  lemma NotContainsMissingChar(s: string, p: string, k: nat)
    requires k < |p| && p[k] !in s
    ensures !Contains(s, p)
  {
    ContainedCharsOccur(s, p, k);
  }

  /** A longer text still contains what its part contains. */
  lemma ContainsInFactor(a: string, b: string, c: string, p: string)
    requires Contains(b, p)
    ensures Contains(a + b + c, p)
  {
    var r := IndexFrom(b, p, 0);
    assert (a + b + c)[|a| + r..|a| + r + |p|] == b[r..r + |p|];
    ContainsAt(a + b + c, p, |a| + r);
  }

  /** An occurrence at `i` begins with the pattern's first character. */
  lemma OccursAtFirstChar(s: string, p: string, i: nat)
    requires p != []
    ensures OccursAt(s, p, i) ==> s[i] == p[0]
  {
    if OccursAt(s, p, i) {
      assert s[i..i + |p|][0] == s[i];
    }
  }

  /** Containment is transitive: what `p` contains, every text containing `p` contains. */
  lemma ContainsTransitive(s: string, p: string, q: string)
    requires Contains(s, p) && Contains(p, q)
    ensures Contains(s, q)
  {
    var i, j := IndexFrom(s, p, 0), IndexFrom(p, q, 0);
    assert s[i..i + |p|] == p && p[j..j + |q|] == q;
    forall k | 0 <= k < |q|
      ensures s[i + j + k] == q[k]
    {
      assert s[i..i + |p|][j + k] == s[i + j + k];
      assert p[j..j + |q|][k] == p[j + k];
    }
    assert s[i + j..i + j + |q|] == q;
    ContainsAt(s, q, i + j);
  }

  /**
   * Of the patterns `ps`, the first (in list order) that occurs at index
   * `i`: the choice a regular-expression alternation makes at one position.
   */
  function FirstAt(s: string, ps: seq<string>, i: nat, k: nat := 0): (r: Option<nat>)
    requires k <= |ps|
    decreases |ps| - k
    ensures r.Some? ==> k <= r.value < |ps| && OccursAt(s, ps[r.value], i)
    ensures r.Some? ==> forall j :: k <= j < r.value ==> !OccursAt(s, ps[j], i)
    ensures r.None? ==> forall j :: k <= j < |ps| ==> !OccursAt(s, ps[j], i)
  {
    if k == |ps| then None
    else if OccursAt(s, ps[k], i) then Some(k)
    else FirstAt(s, ps, i, k + 1)
  }

  /**
   * The leftmost index at or after `from` where one of `markers` occurs,
   * with the index of the marker chosen there.
   */
  function FirstMarkerFrom(s: string, markers: seq<string>, from: nat): (r: Option<(nat, nat)>)
    decreases |s| + 1 - from
    ensures r.Some? ==> from <= r.value.0 <= |s| && FirstAt(s, markers, r.value.0) == Some(r.value.1)
    ensures r.Some? ==> forall i :: from <= i < r.value.0 ==> FirstAt(s, markers, i).None?
    ensures r.None? ==> forall i :: from <= i <= |s| ==> FirstAt(s, markers, i).None?
  {
    if from > |s| then None
    else match FirstAt(s, markers, from)
      case Some(k) => Some((from, k))
      case None => FirstMarkerFrom(s, markers, from + 1)
  }

  /**
   * `s.split(/m1|m2|.../)[1]`: the text between the end of the first marker
   * occurrence and the start of the next one (or the end of `s`); `None`
   * when the split yields a single part.
   */
  function SecondSplitPart(s: string, markers: seq<string>): (r: Option<string>)
    ensures r.Some? <==> FirstMarkerFrom(s, markers, 0).Some?
  {
    match FirstMarkerFrom(s, markers, 0)
    case None => None
    case Some((p, k)) =>
      var e := p + |markers[k]|;
      match FirstMarkerFrom(s, markers, e)
      case None => Some(s[e..])
      case Some((q, _)) => Some(s[e..q])
  }

  /** `replace(/^[^\w]+/, '')` */
  function DropLeadingNonWord(s: string): (r: string)
    ensures |r| <= |s| && r == s[|s| - |r|..]
    ensures r == [] || IsWordChar(r[0])
    ensures forall i :: 0 <= i < |s| - |r| ==> !IsWordChar(s[i])
  {
    if s == [] || IsWordChar(s[0]) then s else DropLeadingNonWord(s[1..])
  }

  /** `replace(/[^\w]+$/, '')` */
  function DropTrailingNonWord(s: string): (r: string)
    ensures |r| <= |s| && r == s[..|r|]
    ensures r == [] || IsWordChar(r[|r| - 1])
    ensures forall i :: |r| <= i < |s| ==> !IsWordChar(s[i])
  {
    if s == [] || IsWordChar(s[|s| - 1]) then s else DropTrailingNonWord(s[..|s| - 1])
  }

  /**
   * `s.trim().replace(/^[^\w]+|[^\w]+$/g, '')`: the trim is subsumed,
   * since every `\s` character is outside `\w`. The result is the slice of
   * `s` from its first to its last word character.
   */
  function StripNonWord(s: string): (r: string)
    ensures r <= DropLeadingNonWord(s)
    ensures r == [] || (IsWordChar(r[0]) && IsWordChar(r[|r| - 1]))
    ensures r == [] ==> forall i :: 0 <= i < |s| ==> !IsWordChar(s[i])
  {
    var lead := DropLeadingNonWord(s);
    var r := DropTrailingNonWord(lead);
    assert lead != [] ==> r != [] by {
      if lead != [] {
        assert IsWordChar(lead[0]);
      }
    }
    r
  }

  /** `s.trim()` is not empty. */
  predicate HasNonSpace(s: string) {
    exists i :: 0 <= i < |s| && !IsSpace(s[i])
  }

  /** `ss.join(sep)` */
  function Join(ss: seq<string>, sep: string): string {
    if ss == [] then ""
    else if |ss| == 1 then ss[0]
    else ss[0] + sep + Join(ss[1..], sep)
  }

  /** Every element of `ss` sits inside `Join(ss, sep)`, at index `k`. */
  lemma ContainsJoined(ss: seq<string>, sep: string, k: nat, p: string)
    requires k < |ss| && Contains(ss[k], p)
    ensures Contains(Join(ss, sep), p)
  {
    if |ss| == 1 {
      assert Join(ss, sep) == "" + ss[0] + "";
      ContainsInFactor("", ss[0], "", p);
    } else if k == 0 {
      ContainsInFactor("", ss[0], sep + Join(ss[1..], sep), p);
      assert "" + ss[0] + (sep + Join(ss[1..], sep)) == Join(ss, sep);
    } else {
      ContainsJoined(ss[1..], sep, k - 1, p);
      ContainsInFactor(ss[0] + sep, Join(ss[1..], sep), "", p);
      assert ss[0] + sep + Join(ss[1..], sep) + "" == Join(ss, sep);
    }
  }

  /** `toLowerCase` on every element. */
  function LowerAll(ss: seq<string>): (r: seq<string>)
    ensures |r| == |ss| && forall i :: 0 <= i < |ss| ==> r[i] == Lower(ss[i])
  {
    seq(|ss|, i requires 0 <= i < |ss| => Lower(ss[i]))
  }

  /** Lower-casing a joined text is joining the lower-cased parts. */
  lemma {:induction false} LowerJoin(ss: seq<string>, sep: string)
    ensures Lower(Join(ss, sep)) == Join(LowerAll(ss), Lower(sep))
  {
    if |ss| > 1 {
      LowerJoin(ss[1..], sep);
      assert LowerAll(ss)[1..] == LowerAll(ss[1..]);
      assert Lower(ss[0] + sep + Join(ss[1..], sep)) == Lower(ss[0]) + Lower(sep) + Lower(Join(ss[1..], sep));
    }
  }

  /** The number of occurrences of `c` in `s`. */
  function CountChar(s: string, c: char): (n: nat)
    ensures n <= |s|
  {
    if s == [] then 0 else (if s[0] == c then 1 else 0) + CountChar(s[1..], c)
  }

  /** The value of a decimal digit character. */
  function DigitValue(c: char): (d: nat)
    ensures d < 10
  {
    if IsDigit(c) then c as int - '0' as int else 0
  }

  function DigitChar(d: nat): (c: char)
    requires d < 10
    ensures IsDigit(c) && DigitValue(c) == d
  {
    (d + '0' as int) as char
  }

  /** `parseInt` of a run of decimal digits. */
  function DigitsValue(ds: string): nat {
    if ds == [] then 0 else DigitsValue(ds[..|ds| - 1]) * 10 + DigitValue(ds[|ds| - 1])
  }

  /** `String(n)` for a non-negative integer. */
  function NatToString(n: nat): (r: string)
    ensures |r| > 0 && forall i :: 0 <= i < |r| ==> IsDigit(r[i])
  {
    if n < 10 then [DigitChar(n)] else NatToString(n / 10) + [DigitChar(n % 10)]
  }

  /** Rendering a number and reading it back yields the number. */
  lemma {:induction false} NatToStringRoundTrip(n: nat)
    ensures DigitsValue(NatToString(n)) == n
  {
    if n >= 10 {
      NatToStringRoundTrip(n / 10);
      var r := NatToString(n);
      assert r[..|r| - 1] == NatToString(n / 10);
    }
  }
}
