/**
 * Reading yt-dlp's progress lines (MainWindow.ParseProgress). yt-dlp runs with
 * --newline, so each progress report arrives as its own line, such as
 * "[download]  45.0% of 10.50MiB at 1.20MiB/s ETA 00:04". The window looks
 * for the first match of the regular expression \[download\]\s+(\d+\.?\d*)%
 * and shows its number; failing that, a "[download] Destination:" line turns
 * the progress bar indeterminate; any other line changes nothing.
 *
 * The model states what a match of that expression is (PatternAt), computes
 * the match at an index the way a backtracking matcher settles it (MatchAt),
 * proves the two agree in both directions, and classifies a line by its
 * leftmost match (Classify).
 */
module Progress {
  import opened Wrappers
  import opened Text

  /** The literal that opens a match. */
  const DownloadTag: string := "[download]"

  /** The text that makes the bar indeterminate when no percentage matches. */
  const DestinationTag: string := "[download] Destination:"

  /**
   * The text captured by the group (\d+\.?\d*): the digits before the point
   * and, when a '.' was matched, the digits after it (possibly none).
   */
  datatype Percent = Percent(whole: string, fraction: Option<string>)

  /** What the group can capture: at least one digit, then digits after an optional point. */
  predicate WellFormed(p: Percent) {
    p.whole != [] && AllDigits(p.whole) && (p.fraction.Some? ==> AllDigits(p.fraction.value))
  }

  /** The captured text itself. */
  function GroupText(p: Percent): string {
    match p.fraction
    case None => p.whole
    case Some(f) => p.whole + "." + f
  }

  function Pow10(n: nat): (r: nat)
    ensures r > 0
  {
    if n == 0 then 1 else 10 * Pow10(n - 1)
  }

  /**
   * double.TryParse of the captured text, read with '.' as the decimal point:
   * the whole digits plus the fraction digits scaled down. With '.' as the
   * decimal point, digits with at most one point always parse, so the parse
   * never fails once the expression matched.
   */
  function PercentValue(p: Percent): (v: real)
    requires WellFormed(p)
    ensures v >= DigitsValue(p.whole) as real
    ensures p.fraction.Some? ==> v < DigitsValue(p.whole) as real + 1.0
    ensures p.fraction.None? ==> v == DigitsValue(p.whole) as real
  {
    match p.fraction
    case None => DigitsValue(p.whole) as real
    case Some(f) =>
      FractionBelowOne(f);
      ScaledBelowOne(DigitsValue(f) as real, Pow10(|f|) as real);
      DigitsValue(p.whole) as real + DigitsValue(f) as real / Pow10(|f|) as real
  }

  lemma ScaledBelowOne(x: real, y: real)
    requires 0.0 <= x < y
    ensures 0.0 <= x / y < 1.0
  {
    assert x / y * y == x;
  }

  /** The digits after the point are worth less than one. */
  lemma {:induction false} FractionBelowOne(f: string)
    requires AllDigits(f)
    ensures DigitsValue(f) < Pow10(|f|)
    decreases |f|
  {
    if f != [] {
      FractionBelowOne(f[..|f| - 1]);
    }
  }

  /**
   * With a point, the value is the number written by all the captured digits,
   * the point removed, divided by ten to the number of fraction digits: the
   * fraction digits count in full, at their decimal places.
   */
  lemma PercentOfDigits(p: Percent)
    requires WellFormed(p) && p.fraction.Some?
    ensures AllDigits(p.whole + p.fraction.value)
    ensures PercentValue(p) == DigitsValue(p.whole + p.fraction.value) as real / Pow10(|p.fraction.value|) as real
  {
    var f := p.fraction.value;
    DigitsConcat(p.whole, f);
    var w, d, n := DigitsValue(p.whole), DigitsValue(f), Pow10(|f|);
    Rescale(PercentValue(p), w, d, n, DigitsValue(p.whole + f));
  }

  /** w + d / n is the same as (w * n + d) / n. */
  lemma Rescale(v: real, w: int, d: int, n: int, total: int)
    requires n > 0 && v == w as real + d as real / n as real && total == w * n + d
    ensures v == total as real / n as real
  {
    assert d as real / n as real * n as real == d as real;
    assert (w * n) as real == w as real * n as real;
    assert total as real / n as real * n as real == total as real;
  }

  /** The digits of a + b read as the digits of a shifted left by |b| places, plus those of b. */
  lemma {:induction false} DigitsConcat(a: string, b: string)
    requires AllDigits(a) && AllDigits(b)
    ensures AllDigits(a + b)
    ensures DigitsValue(a + b) == DigitsValue(a) * Pow10(|b|) + DigitsValue(b)
    decreases |b|
  {
    if b == [] {
      assert a + b == a;
    } else {
      var front := b[..|b| - 1];
      assert (a + b)[..|a + b| - 1] == a + front;
      assert (a + b)[|a + b| - 1] == b[|b| - 1];
      DigitsConcat(a, front);
      var x, y := DigitsValue(a), DigitsValue(front);
      assert (x * Pow10(|front|) + y) * 10 == x * (10 * Pow10(|front|)) + y * 10;
    }
  }

  /**
   * The expression matches line at index i with white space of width w and
   * captures p: "[download]" at i, then w >= 1 white-space characters, then
   * the captured text, then '%'. Every match of the expression has this
   * shape for some w and some well-formed p, and every such shape is a match.
   */
  predicate PatternAt(line: string, i: nat, w: nat, p: Percent) {
    var b := i + |DownloadTag| + w;
    var g := GroupText(p);
    && WellFormed(p) && w > 0
    && b + |g| < |line|
    && OccursAt(line, DownloadTag, i)
    && AllSpace(line[i + |DownloadTag|..b], false)
    && line[b..b + |g|] == g
    && line[b + |g|] == '%'
  }

  /** The length of the longest prefix of s made of white space. */
  function SpaceRun(s: string): (n: nat)
    ensures n <= |s| && AllSpace(s[..n], false)
    ensures n == |s| || !IsWhiteSpace(s[n])
    decreases |s|
  {
    if s != [] && IsWhiteSpace(s[0]) then
      var n := 1 + SpaceRun(s[1..]);
      assert forall k :: 1 <= k < n ==> s[..n][k] == s[1..][..n - 1][k - 1];
      n
    else
      0
  }

  /** The white-space run of white space followed by something else is that white space. */
  lemma {:induction false} SpaceRunOf(ws: string, tail: string)
    requires AllSpace(ws, false)
    requires tail == [] || !IsWhiteSpace(tail[0])
    ensures SpaceRun(ws + tail) == |ws|
    decreases |ws|
  {
    if ws != [] {
      assert (ws + tail)[1..] == ws[1..] + tail;
      SpaceRunOf(ws[1..], tail);
    } else {
      assert ws + tail == tail;
    }
  }

  /**
   * The group and the '%' after it, read from the text that follows the white
   * space: \d+ takes the longest digit run, \.? takes a point when there is
   * one, \d* the digits after it, and then '%' must follow. Giving back any
   * digit or the point cannot help, as neither is a '%'.
   */
  function Capture(s: string): Option<Percent> {
    var c := DigitRun(s);
    if c == 0 then None else CaptureAfter(s[..c], s[c..])
  }

  /** What must follow the digits before the point: '%', or a point, digits and '%'. */
  function CaptureAfter(whole: string, after: string): Option<Percent> {
    if after == [] then None
    else if after[0] == '%' then Some(Percent(whole, None))
    else if after[0] == '.' then
      var k := 1 + DigitRun(after[1..]);
      if k < |after| && after[k] == '%' then Some(Percent(whole, Some(after[1..k]))) else None
    else None
  }

  /** What Capture reads is a well-formed group followed by '%'. */
  lemma CaptureSound(s: string)
    requires Capture(s).Some?
    ensures var p := Capture(s).value;
            var g := GroupText(p);
            WellFormed(p) && |g| < |s| && s[..|g|] == g && s[|g|] == '%'
  {
    var c := DigitRun(s);
    var after := s[c..];
    if after[0] == '.' {
      var k := 1 + DigitRun(after[1..]);
      assert after[1..k] == after[1..][..k - 1];
      assert s[..c + k] == s[..c] + "." + after[1..k];
    }
  }

  /** A well-formed group followed by '%' is read back exactly. */
  lemma CaptureOf(p: Percent, tail: string)
    requires WellFormed(p)
    ensures Capture(GroupText(p) + "%" + tail) == Some(p)
  {
    var after := match p.fraction case None => "%" + tail case Some(f) => "." + f + "%" + tail;
    var s := GroupText(p) + "%" + tail;
    assert s == p.whole + after;
    DigitRunOf(p.whole, after);
    assert s[|p.whole|..] == after;
    match p.fraction
    case None =>
    case Some(f) => FractionAfter(p.whole, f, tail);
  }

  /** After the point, the digits of the fraction and then '%'. */
  lemma FractionAfter(whole: string, f: string, tail: string)
    requires AllDigits(f)
    ensures CaptureAfter(whole, "." + f + "%" + tail) == Some(Percent(whole, Some(f)))
  {
    var after := "." + f + "%" + tail;
    assert after[1..] == f + ("%" + tail);
    DigitRunOf(f, "%" + tail);
    assert after[1..1 + |f|] == f;
  }

  /**
   * The match at index i, as the matcher settles it: "[download]" there,
   * then \s+ takes the longest white-space run (white space is never a
   * digit, so giving any back cannot help), then the group and '%'.
   */
  function MatchAt(line: string, i: nat): Option<Percent> {
    if !OccursAt(line, DownloadTag, i) then None
    else
      var rest := line[i + |DownloadTag|..];
      var w := SpaceRun(rest);
      if w == 0 then None else Capture(rest[w..])
  }

  /** What MatchAt finds is a match of the expression. */
  lemma MatchAtSound(line: string, i: nat)
    requires MatchAt(line, i).Some?
    ensures OccursAt(line, DownloadTag, i)
    ensures PatternAt(line, i, SpaceRun(line[i + |DownloadTag|..]), MatchAt(line, i).value)
  {
    var rest := line[i + |DownloadTag|..];
    var w := SpaceRun(rest);
    CaptureSound(rest[w..]);
    PatternFromRest(line, i, w, Capture(rest[w..]).value);
  }

  /** A match described on the text after the tag is a match on the line. */
  lemma PatternFromRest(line: string, i: nat, w: nat, p: Percent)
    requires OccursAt(line, DownloadTag, i) && w > 0 && WellFormed(p)
    requires var rest := line[i + |DownloadTag|..];
             var g := GroupText(p);
             && w + |g| < |rest| && AllSpace(rest[..w], false)
             && rest[w..][..|g|] == g && rest[w..][|g|] == '%'
    ensures PatternAt(line, i, w, p)
  {
    var a := i + |DownloadTag|;
    var rest := line[a..];
    var g := GroupText(p);
    var b := a + w;
    assert line[a..b] == rest[..w];
    assert line[b..b + |g|] == rest[w..][..|g|];
  }

  /** Every match of the expression is the one MatchAt finds: the captured text is determined by the index. */
  lemma MatchAtComplete(line: string, i: nat, w: nat, p: Percent)
    requires PatternAt(line, i, w, p)
    ensures MatchAt(line, i) == Some(p)
  {
    var rest := line[i + |DownloadTag|..];
    var tail := line[i + |DownloadTag| + w + |GroupText(p)| + 1..];
    PatternSpace(line, i, w, p);
    PatternAfterSpace(line, i, w, p);
    CaptureOf(p, tail);
  }

  /** In a match, the white space after the tag is the longest white-space run there. */
  lemma PatternSpace(line: string, i: nat, w: nat, p: Percent)
    requires PatternAt(line, i, w, p)
    ensures SpaceRun(line[i + |DownloadTag|..]) == w
  {
    var a := i + |DownloadTag|;
    var b := a + w;
    assert line[a..] == line[a..b] + line[b..];
    assert line[b..][0] == GroupText(p)[0] == p.whole[0];
    SpaceRunOf(line[a..b], line[b..]);
  }

  /** In a match, the group and '%' follow the white space. */
  lemma PatternAfterSpace(line: string, i: nat, w: nat, p: Percent)
    requires PatternAt(line, i, w, p)
    ensures var b := i + |DownloadTag| + w;
            line[i + |DownloadTag|..][w..] == GroupText(p) + "%" + line[b + |GroupText(p)| + 1..]
  {
    var b := i + |DownloadTag| + w;
    var g := GroupText(p);
    assert line[i + |DownloadTag|..][w..] == line[b..];
    assert line[b..] == line[b..b + |g|] + [line[b + |g|]] + line[b + |g| + 1..];
  }

  /** The leftmost match at or after index i, with its index. */
  function FirstMatchFrom(line: string, i: nat): Option<(nat, Percent)>
    decreases |line| - i
  {
    if i >= |line| then None
    else
      match MatchAt(line, i)
      case Some(p) => Some((i, p))
      case None => FirstMatchFrom(line, i + 1)
  }

  /** Regex.Match: the leftmost match in the line, with its index. */
  function FirstMatch(line: string): Option<(nat, Percent)> {
    FirstMatchFrom(line, 0)
  }

  /** What the search finds is a match, at or after where it starts. */
  lemma {:induction false} FirstMatchFound(line: string, i: nat)
    requires FirstMatchFrom(line, i).Some?
    ensures var (k, p) := FirstMatchFrom(line, i).value; i <= k && MatchAt(line, k) == Some(p)
    decreases |line| - i
  {
    if MatchAt(line, i).None? {
      FirstMatchFound(line, i + 1);
    }
  }

  /** The search finds a match no further right than any match there is. */
  lemma {:induction false} FirstMatchLeftmost(line: string, i: nat, j: nat)
    requires i <= j && MatchAt(line, j).Some?
    ensures FirstMatchFrom(line, i).Some? && FirstMatchFrom(line, i).value.0 <= j
    decreases j - i
  {
    if i < j && MatchAt(line, i).None? {
      FirstMatchLeftmost(line, i + 1, j);
    }
  }

  /** What a line does to the progress bar. */
  datatype Update =
    | Determinate(percent: Percent)  // the bar shows the percentage
    | Indeterminate                  // the bar turns indeterminate
    | NoChange                       // the bar stays as it is

  /**
   * The decision of ParseProgress: the leftmost percentage if the expression
   * matches; otherwise indeterminate for a line that contains
   * "[download] Destination:" (ordinal); otherwise nothing.
   */
  function Classify(line: string): (u: Update)
    ensures u.Determinate? ==> WellFormed(u.percent)
  {
    match FirstMatch(line)
    case Some(m) =>
      FirstMatchFound(line, 0);
      MatchAtSound(line, m.0);
      Determinate(m.1)
    case None => if Contains(line, DestinationTag) then Indeterminate else NoChange
  }

  /** A line with a match anywhere shows a percentage, whatever else it holds, a destination tag included. */
  lemma MatchWins(line: string, i: nat, w: nat, p: Percent)
    requires PatternAt(line, i, w, p)
    ensures Classify(line).Determinate?
  {
    MatchAtComplete(line, i, w, p);
    FirstMatchLeftmost(line, 0, i);
  }

  /**
   * A line that shows a percentage holds a match of the expression capturing
   * exactly that percentage, and no match starts further left.
   */
  lemma DeterminateIsLeftmostMatch(line: string)
    requires Classify(line).Determinate?
    ensures var (i, p) := FirstMatch(line).value;
            && p == Classify(line).percent
            && OccursAt(line, DownloadTag, i)
            && PatternAt(line, i, SpaceRun(line[i + |DownloadTag|..]), p)
            && forall j: nat, w: nat, q: Percent :: j < i ==> !PatternAt(line, j, w, q)
  {
    var (i, p) := FirstMatch(line).value;
    FirstMatchFound(line, 0);
    MatchAtSound(line, i);
    forall j: nat, w: nat, q: Percent | j < i
      ensures !PatternAt(line, j, w, q)
    {
      if PatternAt(line, j, w, q) {
        MatchAtComplete(line, j, w, q);
        FirstMatchLeftmost(line, 0, j);
      }
    }
  }

  /** A line turns the bar indeterminate exactly when nothing matches and it contains the destination tag. */
  lemma IndeterminateExactly(line: string)
    ensures Classify(line) == Indeterminate <==>
              (forall i: nat, w: nat, p: Percent :: !PatternAt(line, i, w, p)) && Contains(line, DestinationTag)
  {
    NoMatchExactly(line);
  }

  /** A line changes nothing exactly when nothing matches and it lacks the destination tag. */
  lemma NoChangeExactly(line: string)
    ensures Classify(line) == NoChange <==>
              (forall i: nat, w: nat, p: Percent :: !PatternAt(line, i, w, p)) && !Contains(line, DestinationTag)
  {
    NoMatchExactly(line);
  }

  /** The leftmost search finds nothing exactly when the expression matches nowhere. */
  lemma NoMatchExactly(line: string)
    ensures FirstMatch(line).None? <==> forall i: nat, w: nat, p: Percent :: !PatternAt(line, i, w, p)
  {
    if FirstMatch(line).None? {
      forall i: nat, w: nat, p: Percent | PatternAt(line, i, w, p)
        ensures false
      {
        MatchAtComplete(line, i, w, p);
        FirstMatchLeftmost(line, 0, i);
      }
    } else {
      var (i, p) := FirstMatch(line).value;
      FirstMatchFound(line, 0);
      MatchAtSound(line, i);
    }
  }

  /**
   * The progress lines yt-dlp writes read as their percentage: "[download]",
   * white space, the number, '%', and anything after it.
   */
  lemma ReadsProgressLine(ws: string, p: Percent, rest: string)
    requires ws != [] && IsBlank(ws) && WellFormed(p)
    ensures Classify(DownloadTag + ws + GroupText(p) + "%" + rest) == Determinate(p)
  {
    var line := DownloadTag + ws + GroupText(p) + "%" + rest;
    var g := GroupText(p);
    var b := |DownloadTag| + |ws|;
    assert line[..|DownloadTag|] == DownloadTag;
    assert line[|DownloadTag|..b] == ws;
    assert line[b..b + |g|] == g;
    assert line[b + |g|] == '%';
    MatchAtComplete(line, 0, |ws|, p);
  }

  /**
   * The example in the window's comment, "[download]  45.0% of 10.50MiB at
   * 1.20MiB/s ETA 00:04", shows 45 percent, whatever follows the '%'.
   */
  lemma ExampleProgress(rest: string)
    ensures Classify(DownloadTag + "  " + "45.0" + "%" + rest) == Determinate(Percent("45", Some("0")))
  {
    var p := Percent("45", Some("0"));
    assert GroupText(p) == "45.0";
    ReadsProgressLine("  ", p, rest);
  }

  /** The percentage of that example reads as 45. */
  lemma ExampleValue()
    ensures PercentValue(Percent("45", Some("0"))) == 45.0
  {
    assert DigitsValue("45") == 45;
    assert DigitsValue("0") == 0;
  }

  /** A line without '%' never matches. */
  lemma NoPercentSign(line: string)
    requires '%' !in line
    ensures FirstMatch(line).None?
  {
    forall i: nat, w: nat, p: Percent
      ensures !PatternAt(line, i, w, p)
    {
      var k := i + |DownloadTag| + w + |GroupText(p)|;
      if k < |line| {
        assert line[k] in line;
      }
    }
    NoMatchExactly(line);
  }

  /** The destination line yt-dlp writes before a download turns the bar indeterminate, unless its path holds a '%'. */
  lemma DestinationLine(path: string)
    requires '%' !in path
    ensures Classify(DestinationTag + path) == Indeterminate
  {
    var line := DestinationTag + path;
    assert '%' !in DestinationTag;
    NoPercentSign(line);
    assert OccursAt(line, DestinationTag, 0);
  }

  /** Any other line without a percentage, such as a post-processing line, changes nothing. */
  lemma OtherLine(line: string)
    requires '%' !in line && !Contains(line, DestinationTag)
    ensures Classify(line) == NoChange
  {
    NoPercentSign(line);
  }
}
