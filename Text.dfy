/**
 * The .NET string and number primitives that the window's logic is built on:
 * Char.IsWhiteSpace, string.Trim, string.IsNullOrWhiteSpace, string.IndexOf and
 * string.Contains (ordinal), int.TryParse and int.ToString.
 */
module Text {
  import opened Wrappers

  /** Char.IsWhiteSpace; the regular-expression class \s matches exactly the same characters. */
  predicate IsWhiteSpace(c: char) {
    c == ' ' || '\t' <= c <= '\r' || c == '\U{85}' || c == '\U{A0}' || c == '\U{1680}'
    || '\U{2000}' <= c <= '\U{200A}' || c == '\U{2028}' || c == '\U{2029}'
    || c == '\U{202F}' || c == '\U{205F}' || c == '\U{3000}'
  }

  /** The white space that int.TryParse skips before and after the number (tab to carriage return, space). */
  predicate IsNumberWhite(c: char) {
    c == ' ' || '\t' <= c <= '\r'
  }

  /** An ASCII decimal digit. */
  predicate IsDigit(c: char) {
    '0' <= c <= '9'
  }

  /** The white space of Char.IsWhiteSpace, or, when number is set, the white space int.TryParse skips. */
  predicate IsSpace(c: char, number: bool) {
    if number then IsNumberWhite(c) else IsWhiteSpace(c)
  }

  predicate AllSpace(s: string, number: bool) {
    forall i :: 0 <= i < |s| ==> IsSpace(s[i], number)
  }

  predicate AllDigits(s: string) {
    forall i :: 0 <= i < |s| ==> IsDigit(s[i])
  }

  /** string.IsNullOrWhiteSpace (a null text box text does not arise in the window). */
  predicate IsBlank(s: string) {
    AllSpace(s, false)
  }

  /** Drops the leading white space, of the kind number selects (string.TrimStart). */
  function TrimStart(s: string, number: bool): string
    decreases |s|
  {
    if s != [] && IsSpace(s[0], number) then TrimStart(s[1..], number) else s
  }

  /** Drops the trailing white space, of the kind number selects (string.TrimEnd). */
  function TrimEnd(s: string, number: bool): string
    decreases |s|
  {
    if s != [] && IsSpace(s[|s| - 1], number) then TrimEnd(s[..|s| - 1], number) else s
  }

  /** TrimStart removes a prefix of white space and stops at a character that is not white space. */
  lemma {:induction false} TrimStartFacts(s: string, number: bool)
    ensures var t := TrimStart(s, number);
            var k := |s| - |t|;
            && |t| <= |s| && t == s[k..] && AllSpace(s[..k], number)
            && (t != [] ==> !IsSpace(t[0], number))
    decreases |s|
  {
    if s != [] && IsSpace(s[0], number) {
      TrimStartFacts(s[1..], number);
      assert TrimStart(s, number) == TrimStart(s[1..], number);
      var k := |s| - |TrimStart(s, number)|;
      assert s[1..][k - 1..] == s[k..];
      assert forall i :: 1 <= i < k ==> s[..k][i] == s[1..][..k - 1][i - 1];
    }
  }

  /** TrimEnd removes a suffix of white space and stops at a character that is not white space. */
  lemma {:induction false} TrimEndFacts(s: string, number: bool)
    ensures var t := TrimEnd(s, number);
            && |t| <= |s| && t == s[..|t|] && AllSpace(s[|t|..], number)
            && (t != [] ==> !IsSpace(t[|t| - 1], number))
    decreases |s|
  {
    if s != [] && IsSpace(s[|s| - 1], number) {
      var p := s[..|s| - 1];
      TrimEndFacts(p, number);
      var n := |TrimEnd(s, number)|;
      assert p[..n] == s[..n];
      assert s[n..] == p[n..] + [s[|s| - 1]];
    }
  }

  /** string.Trim: the text between the leading and the trailing white space (Char.IsWhiteSpace). */
  function Trim(s: string): string {
    TrimEnd(TrimStart(s, false), false)
  }

  /** Trim leaves nothing exactly when the input is blank. */
  lemma TrimEmpty(s: string)
    ensures Trim(s) == [] <==> IsBlank(s)
  {
    var t := TrimStart(s, false);
    var k := |s| - |t|;
    TrimStartFacts(s, false);
    TrimEndFacts(t, false);
    assert s == s[..k] + t;
    if Trim(s) == [] {
      assert t == t[0..];
    }
  }

  /**
   * What Trim leaves: the slice of s between a blank prefix and a blank
   * suffix, starting and ending with a character that is not white space.
   */
  lemma TrimSlice(s: string)
    ensures var r := Trim(s);
            var k := |s| - |TrimStart(s, false)|;
            && (r != [] ==> !IsWhiteSpace(r[0]) && !IsWhiteSpace(r[|r| - 1]))
            && 0 <= k && k + |r| <= |s| && r == s[k..k + |r|] && IsBlank(s[..k]) && IsBlank(s[k + |r|..])
  {
    var t := TrimStart(s, false);
    var r := Trim(s);
    var k := |s| - |t|;
    TrimStartFacts(s, false);
    TrimEndFacts(t, false);
    assert s[k..k + |r|] == t[..|r|];
    assert s[k + |r|..] == t[|r|..];
    if r != [] {
      assert r[0] == t[0];
    }
  }

  /** Whether sub occurs in s at index i. */
  predicate OccursAt(s: string, sub: string, i: nat) {
    i + |sub| <= |s| && s[i..i + |sub|] == sub
  }

  /** Whether s starts with prefix (ordinal comparison). */
  predicate StartsWith(s: string, prefix: string) {
    OccursAt(s, prefix, 0)
  }

  /** Whether s ends with suffix (ordinal comparison). */
  predicate EndsWith(s: string, suffix: string) {
    |suffix| <= |s| && OccursAt(s, suffix, |s| - |suffix|)
  }

  /** string.IndexOf(sub, StringComparison.Ordinal), searching from index i onwards. */
  function IndexOfFrom(s: string, sub: string, i: nat): (r: Option<nat>)
    ensures r.Some? ==> i <= r.value && OccursAt(s, sub, r.value)
    ensures r.Some? ==> forall j: nat :: i <= j < r.value ==> !OccursAt(s, sub, j)
    ensures r.None? ==> forall j: nat :: i <= j ==> !OccursAt(s, sub, j)
    decreases |s| - i
  {
    if i + |sub| > |s| then None
    else if OccursAt(s, sub, i) then Some(i)
    else IndexOfFrom(s, sub, i + 1)
  }

  /** The index of the leftmost occurrence of sub in s, if any. */
  function IndexOf(s: string, sub: string): (r: Option<nat>)
    ensures r.Some? ==> OccursAt(s, sub, r.value)
    ensures r.Some? ==> forall j: nat :: j < r.value ==> !OccursAt(s, sub, j)
    ensures r.None? <==> forall j: nat :: !OccursAt(s, sub, j)
  {
    IndexOfFrom(s, sub, 0)
  }

  /** string.Contains(string): ordinal, as IndexOf(sub) >= 0. */
  predicate Contains(s: string, sub: string) {
    IndexOf(s, sub).Some?
  }

  /** A text that lacks one of the characters of sub does not contain sub. */
  lemma MissingChar(s: string, sub: string, k: nat)
    requires k < |sub| && sub[k] !in s
    ensures IndexOf(s, sub) == None && !Contains(s, sub)
  {
  }

  /** A character that is not a digit does not occur in a digit string. */
  lemma NotInDigits(d: string, c: char)
    requires AllDigits(d) && !IsDigit(c)
    ensures c !in d
  {
  }

  /** Whatever surrounds an occurrence, it is still found. */
  lemma ContainsInfix(a: string, sub: string, b: string)
    ensures Contains(a + sub + b, sub)
  {
    var s := a + sub + b;
    assert OccursAt(s, sub, |a|) by {
      assert s[|a|..|a| + |sub|] == sub;
    }
  }

  /** An occurrence preceded only by text without sub's first character is the leftmost one. */
  lemma IndexOfAfter(pre: string, sub: string, tail: string)
    requires sub != [] && sub[0] !in pre
    ensures IndexOf(pre + sub + tail, sub) == Some(|pre|)
  {
    var s := pre + sub + tail;
    assert OccursAt(s, sub, |pre|) by {
      assert s[|pre|..|pre| + |sub|] == sub;
    }
    assert forall j: nat :: j < |pre| ==> !OccursAt(s, sub, j);
  }

  /** Pieces of text appended one after another, as successive StringBuilder.Append calls do. */
  function Concat(ts: seq<string>): string
    decreases |ts|
  {
    if ts == [] then "" else Concat(ts[..|ts| - 1]) + ts[|ts| - 1]
  }

  /** Appending one more piece appends its text. */
  lemma ConcatSnoc(ts: seq<string>, t: string)
    ensures Concat(ts + [t]) == Concat(ts) + t
  {
    assert (ts + [t])[..|ts|] == ts;
  }

  lemma {:induction false} ConcatAppend(a: seq<string>, b: seq<string>)
    ensures Concat(a + b) == Concat(a) + Concat(b)
    decreases |b|
  {
    if b == [] {
      assert a + b == a;
    } else {
      var front, last := b[..|b| - 1], b[|b| - 1];
      assert a + b == (a + front) + [last];
      ConcatAppend(a, front);
      ConcatSnoc(a + front, last);
      assert Concat(b) == Concat(front) + last;
      assert Concat(a) + Concat(front) + last == Concat(a) + (Concat(front) + last);
    }
  }

  /** Every piece occurs in the concatenation. */
  lemma ConcatContains(ts: seq<string>, i: nat)
    requires i < |ts|
    ensures Contains(Concat(ts), ts[i])
  {
    var a, b := ts[..i + 1], ts[i + 1..];
    assert ts == a + b;
    ConcatAppend(a, b);
    assert a[..|a| - 1] == ts[..i];
    ContainsInfix(Concat(ts[..i]), ts[i], Concat(b));
  }

  /** The concatenation starts with the first piece. */
  lemma ConcatFirst(ts: seq<string>)
    requires ts != []
    ensures StartsWith(Concat(ts), ts[0])
  {
    assert ts == [ts[0]] + ts[1..];
    ConcatAppend([ts[0]], ts[1..]);
    assert [ts[0]][..0] == [];
  }

  /** The concatenation ends with the last piece. */
  lemma ConcatLast(ts: seq<string>)
    requires ts != []
    ensures EndsWith(Concat(ts), ts[|ts| - 1])
  {
    var s, t := Concat(ts), ts[|ts| - 1];
    assert s[|s| - |t|..|s|] == t;
  }

  /** The length of the longest prefix of s made of digits. */
  function DigitRun(s: string): (n: nat)
    ensures n <= |s| && AllDigits(s[..n])
    ensures n == |s| || !IsDigit(s[n])
    decreases |s|
  {
    if s != [] && IsDigit(s[0]) then
      var n := 1 + DigitRun(s[1..]);
      assert forall i :: 1 <= i < n ==> s[..n][i] == s[1..][..n - 1][i - 1];
      n
    else
      0
  }

  /** The digit run of a digit string followed by a non-digit is that digit string. */
  lemma DigitRunOf(d: string, tail: string)
    requires AllDigits(d)
    requires tail == [] || !IsDigit(tail[0])
    ensures DigitRun(d + tail) == |d| && (d + tail)[..|d|] == d
    decreases |d|
  {
    if d != [] {
      assert (d + tail)[1..] == d[1..] + tail;
      DigitRunOf(d[1..], tail);
    }
  }

  /** The value of a character that is a digit. */
  function DigitValue(c: char): (v: nat)
    requires IsDigit(c)
    ensures v < 10
  {
    (c as int) - ('0' as int)
  }

  /** The digit character for a value below ten. */
  function DigitChar(v: nat): (c: char)
    requires v < 10
    ensures IsDigit(c) && DigitValue(c) == v
  {
    ('0' as int + v) as char
  }

  /** The number that a string of decimal digits denotes (most significant digit first). */
  function DigitsValue(d: string): nat
    requires AllDigits(d)
    decreases |d|
  {
    if d == [] then 0 else DigitsValue(d[..|d| - 1]) * 10 + DigitValue(d[|d| - 1])
  }

  /**
   * int.ToString for a value that is not negative: the canonical decimal text,
   * non-empty, all digits, without leading zeros, and denoting n.
   */
  function NatToString(n: nat): (r: string)
    ensures |r| > 0 && AllDigits(r) && DigitsValue(r) == n
    ensures r[0] == '0' ==> r == "0"
    decreases n
  {
    if n < 10 then
      [DigitChar(n)]
    else
      var p := NatToString(n / 10);
      var r := p + [DigitChar(n % 10)];
      assert r[..|r| - 1] == p;
      r
  }

  const Int32Min: int := -0x8000_0000
  const Int32Max: int := 0x7FFF_FFFF

  /**
   * int.TryParse(s, out n) with NumberStyles.Integer: optional white space around
   * the number, an optional leading sign, then one or more decimal digits; a value
   * outside the 32-bit range is a failure.
   */
  function TryParseInt32(s: string): (r: Option<int>)
    ensures r.Some? ==> Int32Min <= r.value <= Int32Max
  {
    var t := TrimEnd(TrimStart(s, true), true);
    var signed := |t| > 0 && (t[0] == '-' || t[0] == '+');
    var digits := if signed then t[1..] else t;
    if digits == [] || !AllDigits(digits) then None
    else
      var v: int := if signed && t[0] == '-' then 0 - DigitsValue(digits) else DigitsValue(digits);
      if Int32Min <= v <= Int32Max then Some(v) else None
  }

  /** A text that parses as a number is not blank, so a blank test before the parse never decides alone. */
  lemma ParsedIsNotBlank(s: string)
    requires TryParseInt32(s).Some?
    ensures !IsBlank(s)
  {
    var t0 := TrimStart(s, true);
    var t := TrimEnd(t0, true);
    TrimStartFacts(s, true);
    TrimEndFacts(t0, true);
    var signed := |t| > 0 && (t[0] == '-' || t[0] == '+');
    var digits := if signed then t[1..] else t;
    assert digits != [] && IsDigit(digits[0]);
    var k := |s| - |t0| + (if signed then 1 else 0);
    assert s[k] == digits[0];
    assert !IsWhiteSpace(s[k]);
  }

  /** The text int.ToString writes for an in-range value reads back as the same value. */
  lemma ParseToStringRoundTrip(n: nat)
    requires n <= Int32Max
    ensures TryParseInt32(NatToString(n)) == Some(n)
  {
    var s := NatToString(n);
    assert !IsSpace(s[0], true) && !IsSpace(s[|s| - 1], true);
    assert TrimStart(s, true) == s;
    assert TrimEnd(s, true) == s;
  }
}
