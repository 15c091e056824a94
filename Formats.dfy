/**
 * The format expression passed to yt-dlp with -f: a pure function of the
 * download type and the quality tier over a fixed table of height ceilings
 * (MainWindow.GetFormatString, GetVideoAudioFormat and GetVideoOnlyFormat).
 */
module Formats {
  import opened Wrappers
  import opened Text

  /** Download types: indices of the download-type combo box; any other index means video with audio. */
  const AudioOnly: int := 1
  const VideoOnly: int := 2
  const Custom: int := 3

  /** The filter tag yt-dlp reads a height ceiling from. */
  const HeightTag: string := "[height<="

  /**
   * The height ceiling of a quality tier: none for tier 0 ("best available"),
   * 2160, 1440, 1080, 720, 480, 360 for tiers 1 to 6, and 9999 for any other tier
   * (an index of -1, when nothing is selected, included).
   */
  function Ceiling(quality: int): (h: Option<nat>)
    ensures h.None? <==> quality == 0
    ensures !(0 <= quality <= 6) ==> h == Some(9999)
  {
    if quality == 0 then None
    else
      Some(match quality
        case 1 => 2160
        case 2 => 1440
        case 3 => 1080
        case 4 => 720
        case 5 => 480
        case 6 => 360
        case _ => 9999)
  }

  /** A higher tier never selects a higher ceiling among tiers 1 to 6. */
  lemma CeilingsDescend(q1: int, q2: int)
    requires 1 <= q1 < q2 <= 6
    ensures Ceiling(q1).value > Ceiling(q2).value
  {
  }

  /** The height filter "[height<=h]". */
  function HeightFilter(h: nat): string {
    HeightTag + NatToString(h) + "]"
  }

  /**
   * The ceiling an expression carries: the number in its first "[height<=...]"
   * filter, or None when it has no such filter.
   */
  function CeilingOf(expr: string): Option<nat> {
    match IndexOf(expr, HeightTag)
    case None => None
    case Some(i) =>
      var rest := expr[i + |HeightTag|..];
      var n := DigitRun(rest);
      if 0 < n < |rest| && rest[n] == ']' then Some(DigitsValue(rest[..n])) else None
  }

  /** A filter behind text without '[' is the first one, and its number reads back exactly. */
  lemma ReadBackFilter(pre: string, h: nat, tail: string)
    requires '[' !in pre
    ensures CeilingOf(pre + HeightFilter(h) + tail) == Some(h)
  {
    var d := NatToString(h);
    var s := pre + HeightFilter(h) + tail;
    assert s == pre + HeightTag + (d + "]" + tail);
    IndexOfAfter(pre, HeightTag, d + "]" + tail);
    var rest := s[|pre| + |HeightTag|..];
    assert rest == d + ("]" + tail);
    DigitRunOf(d, "]" + tail);
  }

  /**
   * The video-only expression (GetVideoOnlyFormat): the best video stream,
   * capped by the tier's ceiling, which reads back from the expression; it
   * never asks for audio, and tier 0 carries no height filter at all.
   */
  function VideoOnlyFormat(quality: int): (r: string)
    ensures StartsWith(r, "bestvideo")
    ensures CeilingOf(r) == Ceiling(quality)
    ensures quality == 0 ==> !Contains(r, "height<=")
    ensures !Contains(r, "bestaudio")
  {
    match Ceiling(quality)
    case None => VideoOnlyUncapped(); "bestvideo"
    case Some(h) => VideoOnlyCapped(h); "bestvideo" + HeightFilter(h)
  }

  lemma VideoOnlyUncapped()
    ensures CeilingOf("bestvideo") == None
    ensures !Contains("bestvideo", "height<=") && !Contains("bestvideo", "bestaudio")
  {
    MissingChar("bestvideo", HeightTag, 0);
    MissingChar("bestvideo", "height<=", 0);
    MissingChar("bestvideo", "bestaudio", 4);
  }

  lemma VideoOnlyCapped(h: nat)
    ensures var r := "bestvideo" + HeightFilter(h);
            StartsWith(r, "bestvideo") && CeilingOf(r) == Some(h) && !Contains(r, "bestaudio")
  {
    var r := "bestvideo" + HeightFilter(h);
    assert r == "bestvideo" + HeightFilter(h) + "";
    ReadBackFilter("bestvideo", h, "");
    VideoOnlyCappedHasNoAudio(h);
  }

  lemma VideoOnlyCappedHasNoAudio(h: nat)
    ensures !Contains("bestvideo" + HeightFilter(h), "bestaudio")
  {
    var r := "bestvideo" + HeightFilter(h);
    NotInDigits(NatToString(h), 'a');
    assert r == "bestvideo" + HeightTag + NatToString(h) + "]";
    assert 'a' !in r;
    MissingChar(r, "bestaudio", 4);
  }

  /**
   * The video-with-audio expression (GetVideoAudioFormat): the best video
   * merged with the best audio, falling back to the best single file. Its
   * first alternative starts with the video-only expression of the same tier,
   * and the ceiling applies to both alternatives: it reads back from the whole
   * expression and from the fallback after the '/'. Tier 0 carries no height
   * filter at all.
   */
  function VideoAudioFormat(quality: int): (r: string)
    ensures StartsWith(r, VideoOnlyFormat(quality))
    ensures CeilingOf(r) == Ceiling(quality)
    ensures var k := IndexOf(r, "/"); k.Some? && CeilingOf(r[k.value + 1..]) == Ceiling(quality)
    ensures quality == 0 ==> !Contains(r, "height<=")
  {
    match Ceiling(quality)
    case None =>
      UncappedHasNoCeiling();
      UncappedHasNoFilter();
      SlashInUncapped();
      BestHasNoCeiling();
      "bestvideo+bestaudio/best"
    case Some(h) =>
      VideoAudioCapped(h);
      "bestvideo" + HeightFilter(h) + "+bestaudio/best" + HeightFilter(h)
  }

  /**
   * The first alternative of the video-with-audio expression, everything
   * before the '/', is the video-only expression of the same tier merged
   * with the best audio stream.
   */
  lemma MergesBestAudio(quality: int)
    ensures var r := VideoAudioFormat(quality);
            var k := IndexOf(r, "/");
            k.Some? && r[..k.value] == VideoOnlyFormat(quality) + "+bestaudio"
  {
    match Ceiling(quality)
    case None =>
      assert VideoOnlyFormat(quality) == "bestvideo";
      assert VideoAudioFormat(quality) == "bestvideo+bestaudio/best";
      UncappedMerged();
    case Some(h) =>
      assert VideoOnlyFormat(quality) == "bestvideo" + HeightFilter(h);
      assert VideoAudioFormat(quality) == "bestvideo" + HeightFilter(h) + "+bestaudio/best" + HeightFilter(h);
      CappedMerged(h);
  }

  lemma UncappedMerged()
    ensures var k := IndexOf("bestvideo+bestaudio/best", "/");
            k.Some? && "bestvideo+bestaudio/best"[..k.value] == "bestvideo" + "+bestaudio"
  {
    SlashInUncapped();
    UncappedFront();
  }

  lemma UncappedFront()
    ensures "bestvideo+bestaudio/best"[..19] == "bestvideo" + "+bestaudio"
  {
    var s, t := "bestvideo+bestaudio/best", "bestvideo" + "+bestaudio";
    assert |s[..19]| == |t|;
    forall i | 0 <= i < 19
      ensures s[..19][i] == t[i]
    {
      if i < 9 { assert t[i] == "bestvideo"[i]; } else { assert t[i] == "+bestaudio"[i - 9]; }
    }
  }

  lemma CappedMerged(h: nat)
    ensures var filter := HeightFilter(h);
            var r := "bestvideo" + filter + "+bestaudio/best" + filter;
            var k := IndexOf(r, "/");
            k.Some? && r[..k.value] == "bestvideo" + filter + "+bestaudio"
  {
    var filter := HeightFilter(h);
    var r := "bestvideo" + filter + "+bestaudio/best" + filter;
    SlashInCapped(h);
    assert r == "bestvideo" + filter + "+bestaudio" + ("/best" + filter);
  }

  /**
   * The second alternative of the video-with-audio expression, everything
   * after the '/', is the best single file under the same height filter as
   * the video-only expression (none for tier 0).
   */
  lemma FallbackIsBest(quality: int)
    ensures var r := VideoAudioFormat(quality);
            var k := IndexOf(r, "/");
            k.Some? && r[k.value + 1..] == "best" + VideoOnlyFormat(quality)[9..]
  {
    match Ceiling(quality)
    case None =>
      assert VideoOnlyFormat(quality) == "bestvideo";
      assert VideoAudioFormat(quality) == "bestvideo+bestaudio/best";
      UncappedFallback();
    case Some(h) =>
      assert VideoOnlyFormat(quality) == "bestvideo" + HeightFilter(h);
      assert VideoOnlyFormat(quality)[9..] == HeightFilter(h);
      assert VideoAudioFormat(quality) == "bestvideo" + HeightFilter(h) + "+bestaudio/best" + HeightFilter(h);
      CappedFallback(h);
  }

  lemma UncappedFallback()
    ensures var k := IndexOf("bestvideo+bestaudio/best", "/");
            k.Some? && "bestvideo+bestaudio/best"[k.value + 1..] == "best" + "bestvideo"[9..]
  {
    SlashInUncapped();
    assert "bestvideo"[9..] == [];
    assert "bestvideo+bestaudio/best"[20..] == "best";
  }

  lemma CappedFallback(h: nat)
    ensures var filter := HeightFilter(h);
            var r := "bestvideo" + filter + "+bestaudio/best" + filter;
            var k := IndexOf(r, "/");
            k.Some? && r[k.value + 1..] == "best" + filter
  {
    var filter := HeightFilter(h);
    var pre := "bestvideo" + filter + "+bestaudio";
    var r := "bestvideo" + filter + "+bestaudio/best" + filter;
    SlashInCapped(h);
    assert r == pre + "/" + ("best" + filter);
    assert r[|pre| + 1..] == "best" + filter;
  }

  lemma UncappedHasNoCeiling()
    ensures CeilingOf("bestvideo+bestaudio/best") == None
  {
    MissingChar("bestvideo+bestaudio/best", HeightTag, 0);
  }

  lemma UncappedHasNoFilter()
    ensures !Contains("bestvideo+bestaudio/best", "height<=")
  {
    MissingChar("bestvideo+bestaudio/best", "height<=", 0);
  }

  lemma SlashInUncapped()
    ensures IndexOf("bestvideo+bestaudio/best", "/") == Some(19)
  {
    var s, t := "bestvideo+bestaudio/best", "bestvideo+bestaudio" + "/" + "best";
    assert |s| == |t|;
    forall i | 0 <= i < |s|
      ensures s[i] == t[i]
    {
      if i < 19 { assert t[i] == "bestvideo+bestaudio"[i]; }
      else if i == 19 { assert t[i] == '/'; }
      else { assert t[i] == "best"[i - 20]; }
    }
    assert s == t;
    IndexOfAfter("bestvideo+bestaudio", "/", "best");
  }

  lemma BestHasNoCeiling()
    ensures CeilingOf("bestvideo+bestaudio/best"[20..]) == None
  {
    assert "bestvideo+bestaudio/best"[20..] == "best";
    MissingChar("best", HeightTag, 0);
  }

  lemma VideoAudioCapped(h: nat)
    ensures var filter := HeightFilter(h);
            var r := "bestvideo" + filter + "+bestaudio/best" + filter;
            var k := |"bestvideo" + filter + "+bestaudio"|;
            && StartsWith(r, "bestvideo" + filter)
            && CeilingOf(r) == Some(h)
            && IndexOf(r, "/") == Some(k) && CeilingOf(r[k + 1..]) == Some(h)
  {
    var filter := HeightFilter(h);
    var r := "bestvideo" + filter + "+bestaudio/best" + filter;
    assert r == "bestvideo" + filter + ("+bestaudio/best" + filter);
    ReadBackFilter("bestvideo", h, "+bestaudio/best" + filter);
    SlashInCapped(h);
    FallbackCapped(h);
    assert r[..|"bestvideo" + filter|] == "bestvideo" + filter;
  }

  lemma SlashInCapped(h: nat)
    ensures var filter := HeightFilter(h);
            IndexOf("bestvideo" + filter + "+bestaudio/best" + filter, "/") == Some(|"bestvideo" + filter + "+bestaudio"|)
  {
    var filter := HeightFilter(h);
    var pre := "bestvideo" + filter + "+bestaudio";
    NotInDigits(NatToString(h), '/');
    assert pre == "bestvideo" + HeightTag + NatToString(h) + "]+bestaudio";
    assert '/' !in pre;
    assert "bestvideo" + filter + "+bestaudio/best" + filter == pre + "/" + ("best" + filter);
    IndexOfAfter(pre, "/", "best" + filter);
  }

  lemma FallbackCapped(h: nat)
    ensures var filter := HeightFilter(h);
            var r := "bestvideo" + filter + "+bestaudio/best" + filter;
            CeilingOf(r[|"bestvideo" + filter + "+bestaudio"| + 1..]) == Some(h)
  {
    var filter := HeightFilter(h);
    var pre := "bestvideo" + filter + "+bestaudio";
    var r := "bestvideo" + filter + "+bestaudio/best" + filter;
    assert r[|pre| + 1..] == "best" + filter + "";
    ReadBackFilter("best", h, "");
  }

  /**
   * The format expression for a download type (GetFormatString): audio-only
   * asks for the best audio and carries no height filter; video-only and the
   * default (video with audio) carry the tier's ceiling; a custom format is the
   * trimmed custom text. The expression is empty, so that no -f is passed,
   * exactly when the type is custom and the custom text is blank.
   */
  function FormatString(downloadType: int, quality: int, custom: string): (r: string)
    ensures downloadType == AudioOnly ==> r == "bestaudio/best" && CeilingOf(r) == None
    ensures downloadType == Custom ==> r == Trim(custom)
    ensures downloadType != AudioOnly && downloadType != Custom ==> CeilingOf(r) == Ceiling(quality)
    ensures downloadType == VideoOnly ==> r == VideoOnlyFormat(quality) && !Contains(r, "bestaudio")
    ensures downloadType !in {AudioOnly, VideoOnly, Custom} ==> r == VideoAudioFormat(quality)
    ensures r == "" <==> downloadType == Custom && IsBlank(custom)
  {
    if downloadType == AudioOnly then
      MissingChar("bestaudio/best", HeightTag, 0);
      "bestaudio/best"
    else if downloadType == VideoOnly then
      VideoOnlyFormat(quality)
    else if downloadType == Custom then
      TrimEmpty(custom);
      Trim(custom)
    else
      VideoAudioFormat(quality)
  }
}
