/**
 * The argument string of a download (MainWindow.BuildCommandLineArgs). The
 * builder appends one segment after another to a string builder; the model
 * names each segment, fixes which segments an options snapshot calls for
 * (Expected), collects them in their fixed order (Plan) and proves what the
 * order and the presence rules promise. The imperative builder is proved to
 * produce exactly the rendering of that plan.
 */
module Arguments {
  import opened Wrappers
  import opened Text
  import opened Formats

  /** A snapshot of the window's option controls, taken when Download is clicked. */
  datatype Options = Options(
    outputDir: string,       // OutputPathTextBox.Text
    downloadType: int,       // DownloadTypeCombo.SelectedIndex
    quality: int,            // QualityCombo.SelectedIndex
    customFormat: string,    // CustomFormatTextBox.Text
    audioFormat: string,     // content of the selected AudioFormatCombo item
    audioQualityIndex: int,  // AudioQualityCombo.SelectedIndex
    audioQuality: string,    // content of the selected AudioQualityCombo item
    playlist: bool,          // PlaylistCheckBox.IsChecked == true
    subtitles: bool,         // SubtitlesCheckBox.IsChecked == true
    thumbnail: bool,         // ThumbnailCheckBox.IsChecked == true
    metadata: bool,          // MetadataCheckBox.IsChecked == true
    limitRate: bool,         // LimitRateCheckBox.IsChecked == true
    rateText: string,        // RateLimitTextBox.Text
    extraArgs: string,       // AdditionalArgsTextBox.Text
    url: string)             // UrlTextBox.Text

  /** One piece the builder appends, in the order the builder appends them. */
  datatype Segment =
    | Output(template: string)
    | Format(expr: string)
    | ExtractAudio
    | AudioFormat(codec: string)
    | AudioQuality(level: string)
    | Playlist(yes: bool)
    | Subtitles
    | Thumbnail
    | Metadata
    | LimitRate(kib: nat)
    | ProgressFlags
    | Extra(text: string)
    | Url(address: string)

  /** The number of segment kinds. */
  const Kinds: nat := 13

  /** The position of a segment's kind in the fixed order. */
  function Rank(g: Segment): (k: nat)
    ensures k < Kinds
  {
    match g
    case Output(_) => 0
    case Format(_) => 1
    case ExtractAudio => 2
    case AudioFormat(_) => 3
    case AudioQuality(_) => 4
    case Playlist(_) => 5
    case Subtitles => 6
    case Thumbnail => 7
    case Metadata => 8
    case LimitRate(_) => 9
    case ProgressFlags => 10
    case Extra(_) => 11
    case Url(_) => 12
  }

  /**
   * The text the builder appends for a segment. Every piece is non-empty,
   * and every piece but the output template opens with a space. Values are
   * put in quotes as they are, without escaping.
   */
  function Render(g: Segment): (r: string)
    ensures r != [] && (r[0] == ' ' <==> !g.Output?)
  {
    match g
    case Output(t) => "-o \"" + t + "\""
    case Format(f) => " -f \"" + f + "\""
    case ExtractAudio => " -x"
    case AudioFormat(c) => " --audio-format " + c
    case AudioQuality(q) => " --audio-quality " + q
    case Playlist(yes) => if yes then " --yes-playlist" else " --no-playlist"
    case Subtitles => " " + "--write-subs --write-auto-subs --sub-lang en --embed-subs"
    case Thumbnail => " --embed-thumbnail"
    case Metadata => " --embed-metadata"
    case LimitRate(n) => " --limit-rate " + NatToString(n) + "K"
    case ProgressFlags => " --newline --no-colors --progress"
    case Extra(t) => " " + t
    case Url(u) => " \"" + u + "\""
  }

  /** The file-name template yt-dlp fills in. */
  const TemplateName: string := "%(title)s.%(ext)s"

  predicate IsDirectorySeparator(c: char) {
    c == '\\' || c == '/'
  }

  /**
   * Path.Combine(dir, TemplateName) on Windows: an empty directory gives the
   * bare name; a directory that already ends with a separator is joined
   * directly; otherwise a backslash is put between them.
   */
  function OutputTemplate(dir: string): (t: string)
    ensures StartsWith(t, dir) && EndsWith(t, TemplateName)
    ensures |t| == |dir| + |TemplateName| + if dir == [] || IsDirectorySeparator(dir[|dir| - 1]) then 0 else 1
    ensures dir != [] && !IsDirectorySeparator(dir[|dir| - 1]) ==> t[|dir|] == '\\'
  {
    var t := if dir == [] then TemplateName
      else if IsDirectorySeparator(dir[|dir| - 1]) then dir + TemplateName
      else dir + "\\" + TemplateName;
    assert t[..|dir|] == dir;
    assert t[|t| - |TemplateName|..] == TemplateName;
    t
  }

  /**
   * The --limit-rate value: present only when the limit box is checked, its
   * text is not blank, the text parses as an int, and that int is positive.
   */
  function RateLimit(o: Options): (r: Option<nat>)
    ensures r.Some? ==> o.limitRate && 0 < r.value <= Int32Max && TryParseInt32(o.rateText) == Some(r.value as int)
    ensures o.limitRate && TryParseInt32(o.rateText).Some? && TryParseInt32(o.rateText).value > 0 ==> r.Some?
  {
    if o.limitRate && !IsBlank(o.rateText) then
      var parsed := TryParseInt32(o.rateText);
      if parsed.Some? && parsed.value > 0 then Some(parsed.value as nat) else None
    else
      RateNotParsed(o);
      None
  }

  /** The blank test before the parse never rejects a text the parse accepts. */
  lemma RateNotParsed(o: Options)
    requires !o.limitRate || IsBlank(o.rateText)
    ensures !o.limitRate || TryParseInt32(o.rateText).None?
  {
    if o.limitRate && TryParseInt32(o.rateText).Some? {
      ParsedIsNotBlank(o.rateText);
    }
  }

  /**
   * What the options select, worked out once from the controls: the value
   * behind each segment, or None where the segment is left out.
   */
  datatype Selection = Selection(
    template: string,
    format: string,
    audio: bool,
    codec: string,
    level: Option<string>,
    playlist: bool,
    subtitles: bool,
    thumbnail: bool,
    metadata: bool,
    rate: Option<nat>,
    extra: Option<string>,
    url: string)

  /** The selection an options snapshot makes (the tests of the builder's if statements). */
  function Select(o: Options): Selection {
    var audio := o.downloadType == AudioOnly;
    Selection(
      OutputTemplate(o.outputDir),
      FormatString(o.downloadType, o.quality, o.customFormat),
      audio,
      o.audioFormat,
      if audio && o.audioQualityIndex > 0 then Some(o.audioQuality) else None,
      o.playlist,
      o.subtitles,
      o.thumbnail,
      o.metadata,
      RateLimit(o),
      if IsBlank(o.extraArgs) then None else Some(Trim(o.extraArgs)),
      Trim(o.url))
  }

  /** The segment of the given rank that a selection calls for, if any. */
  function Expected(s: Selection, rank: nat): (g: Option<Segment>)
    ensures g.Some? ==> Rank(g.value) == rank
  {
    match rank
    case 0 => Some(Output(s.template))
    case 1 => if s.format != "" then Some(Format(s.format)) else None
    case 2 => if s.audio then Some(ExtractAudio) else None
    case 3 => if s.audio then Some(AudioFormat(s.codec)) else None
    case 4 => if s.level.Some? then Some(AudioQuality(s.level.value)) else None
    case 5 => Some(Playlist(s.playlist))
    case 6 => if s.subtitles then Some(Subtitles) else None
    case 7 => if s.thumbnail then Some(Thumbnail) else None
    case 8 => if s.metadata then Some(Metadata) else None
    case 9 => if s.rate.Some? then Some(LimitRate(s.rate.value)) else None
    case 10 => Some(ProgressFlags)
    case 11 => if s.extra.Some? then Some(Extra(s.extra.value)) else None
    case 12 => Some(Url(s.url))
    case _ => None
  }

  /** The segments of the given rank, as a sequence of zero or one. */
  function Piece(s: Selection, rank: nat): (p: seq<Segment>)
    ensures |p| <= 1
    ensures forall g :: g in p ==> Rank(g) == rank
  {
    match Expected(s, rank)
    case Some(g) => [g]
    case None => []
  }

  /** The segments of rank below r, in rank order. */
  function PlanUpTo(s: Selection, r: nat): seq<Segment>
    decreases r
  {
    if r == 0 then [] else PlanUpTo(s, r - 1) + Piece(s, r - 1)
  }

  /** All segments a selection calls for, in the builder's order. */
  function PlanOf(s: Selection): seq<Segment> {
    PlanUpTo(s, Kinds)
  }

  /** All segments the options call for, in the builder's order. */
  function Plan(o: Options): seq<Segment> {
    PlanOf(Select(o))
  }

  /** The texts of a sequence of segments, in the same order. */
  function Texts(gs: seq<Segment>): (ts: seq<string>)
    ensures |ts| == |gs|
    decreases |gs|
  {
    if gs == [] then [] else Texts(gs[..|gs| - 1]) + [Render(gs[|gs| - 1])]
  }

  /** The text at each position is the text of the segment there. */
  lemma {:induction false} TextsAt(gs: seq<Segment>, i: nat)
    requires i < |gs|
    ensures Texts(gs)[i] == Render(gs[i])
    decreases |gs|
  {
    if i < |gs| - 1 {
      TextsAt(gs[..|gs| - 1], i);
    }
  }

  /** The text of a sequence of segments, appended one after another. */
  function Flatten(gs: seq<Segment>): string {
    Concat(Texts(gs))
  }

  /** The text appended at a rank: that of the segment the selection calls for there, or nothing. */
  function PieceText(s: Selection, rank: nat): string {
    match Expected(s, rank)
    case Some(g) => Render(g)
    case None => ""
  }

  /** The text appended for the ranks below r, rank by rank. */
  function TextUpTo(s: Selection, r: nat): string
    decreases r
  {
    if r == 0 then "" else TextUpTo(s, r - 1) + PieceText(s, r - 1)
  }

  /** Appending at most one segment appends its text. */
  lemma FlattenSnoc(gs: seq<Segment>, p: seq<Segment>)
    requires |p| <= 1
    ensures Flatten(gs + p) == Flatten(gs) + if p == [] then "" else Render(p[0])
  {
    if p == [] {
      assert gs + p == gs;
    } else {
      assert (gs + p)[..|gs|] == gs;
      ConcatSnoc(Texts(gs), Render(p[0]));
    }
  }

  /** The text of a rank is that of its piece. */
  lemma PieceTextOf(s: Selection, rank: nat)
    ensures PieceText(s, rank) == if Piece(s, rank) == [] then "" else Render(Piece(s, rank)[0])
  {
  }

  /** Appending rank by rank yields the text of the plan below that rank. */
  lemma {:induction false} TextUpToPlan(s: Selection, r: nat)
    ensures TextUpTo(s, r) == Flatten(PlanUpTo(s, r))
    decreases r
  {
    if r > 0 {
      TextUpToPlan(s, r - 1);
      FlattenSnoc(PlanUpTo(s, r - 1), Piece(s, r - 1));
      PieceTextOf(s, r - 1);
    }
  }

  /** Segments strictly ascending by rank: the fixed order, each kind at most once. */
  predicate Ascending(gs: seq<Segment>) {
    forall i, j :: 0 <= i < j < |gs| ==> Rank(gs[i]) < Rank(gs[j])
  }

  /** Every segment of the plan below rank r has a rank below r. */
  lemma {:induction false} PlanUpToRanks(s: Selection, r: nat)
    ensures forall g :: g in PlanUpTo(s, r) ==> Rank(g) < r
    decreases r
  {
    if r > 0 {
      PlanUpToRanks(s, r - 1);
      assert PlanUpTo(s, r) == PlanUpTo(s, r - 1) + Piece(s, r - 1);
    }
  }

  /** The plan below rank r is in rank order. */
  lemma {:induction false} PlanUpToAscending(s: Selection, r: nat)
    ensures Ascending(PlanUpTo(s, r))
    decreases r
  {
    if r > 0 {
      PlanUpToAscending(s, r - 1);
      PlanUpToRanks(s, r - 1);
      AscendingAppend(PlanUpTo(s, r - 1), Piece(s, r - 1), r - 1);
    }
  }

  /** A segment is in the plan below rank r exactly when its rank is below r and the selection calls for it. */
  lemma {:induction false} PlanUpToHas(s: Selection, r: nat, g: Segment)
    ensures g in PlanUpTo(s, r) <==> Rank(g) < r && g in Piece(s, Rank(g))
    decreases r
  {
    if r > 0 {
      PlanUpToHas(s, r - 1, g);
      assert PlanUpTo(s, r) == PlanUpTo(s, r - 1) + Piece(s, r - 1);
    }
  }

  /** A segment is in the plan of a selection exactly when the selection calls for it. */
  lemma PlanOfMembers(s: Selection, g: Segment)
    ensures g in PlanOf(s) <==> Expected(s, Rank(g)) == Some(g)
  {
    PlanUpToHas(s, Kinds, g);
  }

  /** Appending at most one segment of a rank above all present keeps the order. */
  lemma AscendingAppend(front: seq<Segment>, p: seq<Segment>, k: nat)
    requires Ascending(front) && |p| <= 1
    requires forall g :: g in front ==> Rank(g) < k
    requires forall g :: g in p ==> Rank(g) == k
    ensures Ascending(front + p)
  {
    var gs := front + p;
    forall i, j | 0 <= i < j < |gs| ensures Rank(gs[i]) < Rank(gs[j]) {
      if j < |front| {
        assert gs[i] == front[i] && gs[j] == front[j];
      } else {
        assert gs[i] == front[i] && gs[j] == p[0];
        assert front[i] in front;
      }
    }
  }

  /** In an ascending sequence, a segment of the lowest rank present can only be first. */
  lemma AscendingFirst(gs: seq<Segment>, k: nat)
    requires Ascending(gs) && k < |gs|
    requires forall g :: g in gs ==> Rank(gs[k]) <= Rank(g)
    ensures k == 0
  {
    assert gs[0] in gs;
  }

  /** In an ascending sequence, a segment of the highest rank present can only be last. */
  lemma AscendingLast(gs: seq<Segment>, k: nat)
    requires Ascending(gs) && k < |gs|
    requires forall g :: g in gs ==> Rank(g) <= Rank(gs[k])
    ensures k == |gs| - 1
  {
    assert gs[|gs| - 1] in gs;
  }

  /** In an ascending sequence, a segment whose rank is one above another's present one comes right after it. */
  lemma AscendingNext(gs: seq<Segment>, f: nat, i: nat)
    requires Ascending(gs) && f < |gs| && i < |gs|
    requires Rank(gs[i]) == Rank(gs[f]) + 1
    ensures 0 < i && i - 1 == f
  {
    assert 0 < i;
    assert Rank(gs[i - 1]) < Rank(gs[i]);
  }

  /** The plan of a selection opens with the output template and closes with the URL. */
  lemma PlanOfEnds(s: Selection)
    ensures |PlanOf(s)| > 0
    ensures PlanOf(s)[0] == Output(s.template)
    ensures PlanOf(s)[|PlanOf(s)| - 1] == Url(s.url)
  {
    var p := PlanOf(s);
    PlanUpToAscending(s, Kinds);
    PlanOfMembers(s, Output(s.template));
    PlanOfMembers(s, Url(s.url));
    var k :| 0 <= k < |p| && p[k] == Output(s.template);
    AscendingFirst(p, k);
    var m :| 0 <= m < |p| && p[m] == Url(s.url);
    AscendingLast(p, m);
  }

  /** Wherever the extra text stands in the plan of a selection, the progress flags stand right before it. */
  lemma PlanOfExtraAfterProgress(s: Selection, i: nat)
    requires i < |PlanOf(s)| && PlanOf(s)[i].Extra?
    ensures 0 < i && PlanOf(s)[i - 1] == ProgressFlags
  {
    var p := PlanOf(s);
    PlanUpToAscending(s, Kinds);
    PlanOfMembers(s, ProgressFlags);
    var f :| 0 <= f < |p| && p[f] == ProgressFlags;
    AscendingNext(p, f, i);
  }

  /** Which format and audio segments the plan of a selection holds. */
  lemma PlanOfAudio(s: Selection, f: string, codec: string, level: string)
    ensures Format(f) in PlanOf(s) <==> f != "" && f == s.format
    ensures ExtractAudio in PlanOf(s) <==> s.audio
    ensures AudioFormat(codec) in PlanOf(s) <==> s.audio && codec == s.codec
    ensures AudioQuality(level) in PlanOf(s) <==> s.level == Some(level)
  {
    PlanOfMembers(s, Format(f));
    PlanOfMembers(s, ExtractAudio);
    PlanOfMembers(s, AudioFormat(codec));
    PlanOfMembers(s, AudioQuality(level));
  }

  /** Which playlist, subtitle, thumbnail and metadata segments the plan of a selection holds. */
  lemma PlanOfSwitches(s: Selection, yes: bool)
    ensures Playlist(yes) in PlanOf(s) <==> yes == s.playlist
    ensures Subtitles in PlanOf(s) <==> s.subtitles
    ensures Thumbnail in PlanOf(s) <==> s.thumbnail
    ensures Metadata in PlanOf(s) <==> s.metadata
  {
    PlanOfMembers(s, Playlist(yes));
    PlanOfMembers(s, Subtitles);
    PlanOfMembers(s, Thumbnail);
    PlanOfMembers(s, Metadata);
  }

  /** Which rate-limit, progress and extra segments the plan of a selection holds. */
  lemma PlanOfTail(s: Selection, n: nat, t: string)
    ensures LimitRate(n) in PlanOf(s) <==> s.rate == Some(n)
    ensures ProgressFlags in PlanOf(s)
    ensures Extra(t) in PlanOf(s) <==> s.extra == Some(t)
  {
    PlanOfMembers(s, LimitRate(n));
    PlanOfMembers(s, ProgressFlags);
    PlanOfMembers(s, Extra(t));
  }

  /** The plan lists its segments in the fixed order, each kind at most once. */
  lemma PlanOrder(o: Options)
    ensures Ascending(Plan(o))
  {
    PlanUpToAscending(Select(o), Kinds);
  }

  /** A segment is in the plan exactly when the options call for it. */
  lemma PlanMembers(o: Options, g: Segment)
    ensures g in Plan(o) <==> Expected(Select(o), Rank(g)) == Some(g)
  {
    PlanOfMembers(Select(o), g);
  }

  /** Exactly one playlist flag: --yes-playlist when the playlist box is checked, --no-playlist otherwise. */
  lemma PlaylistFlag(o: Options, yes: bool)
    ensures Playlist(yes) in Plan(o) <==> yes == o.playlist
  {
    PlanOfSwitches(Select(o), yes);
  }

  /** Never two playlist flags: the plan holds at most one segment of each kind. */
  lemma OnePlaylistFlag(o: Options, i: nat, j: nat)
    requires i < |Plan(o)| && j < |Plan(o)| && Plan(o)[i].Playlist? && Plan(o)[j].Playlist?
    ensures i == j
  {
    PlanUpToAscending(Select(o), Kinds);
  }

  /** -f "<format>" is passed exactly when the selected format expression is not empty, and with that expression. */
  lemma FormatFlag(o: Options, f: string)
    ensures Format(f) in Plan(o) <==> f != "" && f == FormatString(o.downloadType, o.quality, o.customFormat)
  {
    PlanOfAudio(Select(o), f, "", "");
  }

  /** -x appears exactly for the audio-only type. */
  lemma ExtractAudioFlag(o: Options)
    ensures ExtractAudio in Plan(o) <==> o.downloadType == AudioOnly
  {
    PlanOfAudio(Select(o), "", "", "");
  }

  /** --audio-format appears exactly for the audio-only type, with the selected audio format. */
  lemma AudioFormatFlag(o: Options, codec: string)
    ensures AudioFormat(codec) in Plan(o) <==> o.downloadType == AudioOnly && codec == o.audioFormat
  {
    PlanOfAudio(Select(o), "", codec, "");
  }

  /** --audio-quality appears exactly for the audio-only type when an entry past the first is selected. */
  lemma AudioQualityFlag(o: Options, level: string)
    ensures AudioQuality(level) in Plan(o) <==>
              o.downloadType == AudioOnly && o.audioQualityIndex > 0 && level == o.audioQuality
  {
    PlanOfAudio(Select(o), "", "", level);
  }

  /**
   * --limit-rate nK appears exactly when the limit box is checked, its text is
   * not blank and parses as the int n, and n is positive; in every other case
   * nothing is added and nothing fails.
   */
  lemma RateLimitFlag(o: Options, n: nat)
    ensures LimitRate(n) in Plan(o) <==>
              o.limitRate && !IsBlank(o.rateText) && TryParseInt32(o.rateText) == Some(n as int) && n > 0
  {
    PlanOfTail(Select(o), n, "");
  }

  /** The number --limit-rate writes reads back as the limit that was parsed. */
  lemma RateLimitReadsBack(o: Options, n: nat)
    requires LimitRate(n) in Plan(o)
    ensures TryParseInt32(NatToString(n)) == Some(n as int)
  {
    RateLimitFlag(o, n);
    ParseToStringRoundTrip(n);
  }

  /** The subtitle flags follow their check box. */
  lemma SubtitlesFlag(o: Options)
    ensures Subtitles in Plan(o) <==> o.subtitles
  {
    PlanOfSwitches(Select(o), true);
  }

  /** The thumbnail flag follows its check box. */
  lemma ThumbnailFlag(o: Options)
    ensures Thumbnail in Plan(o) <==> o.thumbnail
  {
    PlanOfSwitches(Select(o), true);
  }

  /** The metadata flag follows its check box. */
  lemma MetadataFlag(o: Options)
    ensures Metadata in Plan(o) <==> o.metadata
  {
    PlanOfSwitches(Select(o), true);
  }

  /** The plan opens with the output template and closes with the trimmed URL. */
  lemma PlanEnds(o: Options)
    ensures |Plan(o)| > 0
    ensures Plan(o)[0] == Output(OutputTemplate(o.outputDir))
    ensures Plan(o)[|Plan(o)| - 1] == Url(Trim(o.url))
  {
    PlanOfEnds(Select(o));
  }

  /** The progress options are always passed. */
  lemma ProgressAlways(o: Options)
    ensures ProgressFlags in Plan(o)
  {
    PlanOfTail(Select(o), 0, "");
  }

  /** The trimmed extra arguments are passed exactly when the extra text is not blank. */
  lemma ExtraArgs(o: Options, t: string)
    ensures Extra(t) in Plan(o) <==> !IsBlank(o.extraArgs) && t == Trim(o.extraArgs)
  {
    PlanOfTail(Select(o), 0, t);
  }

  /** The extra arguments come right after the progress options. */
  lemma ExtraAfterProgress(o: Options, i: nat)
    requires i < |Plan(o)| && Plan(o)[i].Extra?
    ensures 0 < i && Plan(o)[i - 1] == ProgressFlags
  {
    PlanOfExtraAfterProgress(Select(o), i);
  }

  /**
   * StringBuilder.Append of the segment of rank r: when the text so far is
   * that of the ranks below r and the selection calls for g at rank r, the
   * text afterwards is that of the ranks up to r.
   */
  method Append(ghost s: Selection, r: nat, text: string, g: Segment) returns (text': string)
    requires Expected(s, r) == Some(g) && text == TextUpTo(s, r)
    ensures text' == TextUpTo(s, r + 1)
  {
    text' := text + Render(g);
  }

  /** Nothing is appended at rank r when the selection calls for no segment of that rank. */
  lemma Skip(s: Selection, r: nat)
    requires Expected(s, r) == None
    ensures TextUpTo(s, r + 1) == TextUpTo(s, r)
  {
  }

  /** An append under a test: g is appended exactly when the test holds, which is when the selection calls for it. */
  method AppendWhen(ghost s: Selection, r: nat, text: string, test: bool, g: Segment) returns (text': string)
    requires Expected(s, r) == (if test then Some(g) else None) && text == TextUpTo(s, r)
    ensures text' == TextUpTo(s, r + 1)
  {
    if test {
      text' := text + Render(g);
    } else {
      text' := text;
    }
  }

  /** The output template and the format expression (ranks 0 and 1): -f only for a non-empty expression. */
  method AppendTemplateAndFormat(ghost s: Selection, o: Options) returns (text: string)
    requires s.template == OutputTemplate(o.outputDir)
    requires s.format == FormatString(o.downloadType, o.quality, o.customFormat)
    ensures text == TextUpTo(s, 2)
  {
    text := Append(s, 0, "", Output(OutputTemplate(o.outputDir)));
    var format := FormatString(o.downloadType, o.quality, o.customFormat);
    text := AppendWhen(s, 1, text, format != "", Format(format));
  }

  /** The audio extraction (ranks 2 to 4): only for the audio-only type, the quality only past the first entry. */
  method AppendAudio(ghost s: Selection, o: Options, text: string) returns (text': string)
    requires s.audio == (o.downloadType == AudioOnly) && s.codec == o.audioFormat
    requires s.level == if s.audio && o.audioQualityIndex > 0 then Some(o.audioQuality) else None
    requires text == TextUpTo(s, 2)
    ensures text' == TextUpTo(s, 5)
  {
    var audio := o.downloadType == AudioOnly;
    text' := AppendWhen(s, 2, text, audio, ExtractAudio);
    text' := AppendWhen(s, 3, text', audio, AudioFormat(o.audioFormat));
    text' := AppendWhen(s, 4, text', audio && o.audioQualityIndex > 0, AudioQuality(o.audioQuality));
  }

  /** The playlist flag and the subtitle, thumbnail and metadata flags (ranks 5 to 8). */
  method AppendSwitches(ghost s: Selection, o: Options, text: string) returns (text': string)
    requires s.playlist == o.playlist && s.subtitles == o.subtitles
    requires s.thumbnail == o.thumbnail && s.metadata == o.metadata
    requires text == TextUpTo(s, 5)
    ensures text' == TextUpTo(s, 9)
  {
    text' := Append(s, 5, text, Playlist(o.playlist));
    text' := AppendWhen(s, 6, text', o.subtitles, Subtitles);
    text' := AppendWhen(s, 7, text', o.thumbnail, Thumbnail);
    text' := AppendWhen(s, 8, text', o.metadata, Metadata);
  }

  /** The rate limit (rank 9): nothing is added unless the box is checked and its text is a positive int. */
  method AppendRateLimit(ghost s: Selection, o: Options, text: string) returns (text': string)
    requires s.rate == RateLimit(o) && text == TextUpTo(s, 9)
    ensures text' == TextUpTo(s, 10)
  {
    text' := text;
    if o.limitRate && !IsBlank(o.rateText) {
      var rate := TryParseInt32(o.rateText);
      if rate.Some? && rate.value > 0 {
        text' := Append(s, 9, text', LimitRate(rate.value as nat));
      } else {
        Skip(s, 9);
      }
    } else {
      Skip(s, 9);
    }
  }

  /** The progress flags, the trimmed extra arguments unless blank, and the quoted, trimmed URL (ranks 10 to 12). */
  method AppendTail(ghost s: Selection, o: Options, text: string) returns (text': string)
    requires s.extra == (if IsBlank(o.extraArgs) then None else Some(Trim(o.extraArgs)))
    requires s.url == Trim(o.url) && text == TextUpTo(s, 10)
    ensures text' == TextUpTo(s, 13)
  {
    text' := Append(s, 10, text, ProgressFlags);
    text' := AppendExtra(s, o, text');
    text' := Append(s, 12, text', Url(Trim(o.url)));
  }

  /** The trimmed extra arguments, unless their text is blank (rank 11). */
  method AppendExtra(ghost s: Selection, o: Options, text: string) returns (text': string)
    requires s.extra == (if IsBlank(o.extraArgs) then None else Some(Trim(o.extraArgs)))
    requires text == TextUpTo(s, 11)
    ensures text' == TextUpTo(s, 12)
  {
    text' := AppendWhen(s, 11, text, !IsBlank(o.extraArgs), Extra(Trim(o.extraArgs)));
  }

  /**
   * The builder (BuildCommandLineArgs): appends the segments block by block,
   * in the window's order, and yields exactly the text of the plan.
   */
  method BuildCommandLineArgs(o: Options) returns (args: string)
    ensures args == Flatten(Plan(o))
  {
    ghost var s := Select(o);
    args := AppendTemplateAndFormat(s, o);
    args := AppendAudio(s, o, args);
    args := AppendSwitches(s, o, args);
    args := AppendRateLimit(s, o, args);
    args := AppendTail(s, o, args);
    TextUpToPlan(s, Kinds);
  }

  /** The text opens with the output template option. */
  lemma TextStarts(o: Options)
    ensures StartsWith(Flatten(Plan(o)), "-o \"" + OutputTemplate(o.outputDir) + "\"")
  {
    PlanEnds(o);
    ConcatFirst(Texts(Plan(o)));
    TextsAt(Plan(o), 0);
  }

  /** The text closes with the trimmed URL in quotes. */
  lemma TextEnds(o: Options)
    ensures EndsWith(Flatten(Plan(o)), " \"" + Trim(o.url) + "\"")
  {
    PlanEnds(o);
    ConcatLast(Texts(Plan(o)));
    TextsAt(Plan(o), |Plan(o)| - 1);
  }

  /** The text holds the playlist flag the check box selects. */
  lemma TextPlaylist(o: Options)
    ensures Contains(Flatten(Plan(o)), if o.playlist then " --yes-playlist" else " --no-playlist")
  {
    var plan := Plan(o);
    PlaylistFlag(o, o.playlist);
    var k :| 0 <= k < |plan| && plan[k] == Playlist(o.playlist);
    ConcatContains(Texts(plan), k);
    TextsAt(plan, k);
  }

  /** The text always holds the progress options the output parser relies on. */
  lemma TextProgress(o: Options)
    ensures Contains(Flatten(Plan(o)), " --newline --no-colors --progress")
  {
    var plan := Plan(o);
    ProgressAlways(o);
    var m :| 0 <= m < |plan| && plan[m] == ProgressFlags;
    ConcatContains(Texts(plan), m);
    TextsAt(plan, m);
  }
}
