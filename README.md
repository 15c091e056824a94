# ShareIsCare download window, modelled in Dafny

ShareIsCare is a WPF front end for the yt-dlp command-line downloader. Its
window (`MainWindow`) turns the option controls into one yt-dlp argument
string, starts yt-dlp, reads its output line by line to drive a progress bar,
and enables or disables its Download, Stop and Get Info buttons as runs start
and end. This project models that core and proves what it promises:

- `Formats.dfy`: the format expression chosen by download type and quality
  tier (GetFormatString, GetVideoAudioFormat, GetVideoOnlyFormat), with the
  table of height ceilings.
- `Arguments.dfy`: the argument builder (BuildCommandLineArgs). The options
  snapshot selects a sequence of segments (the plan). The imperative builder
  appends them block by block, as the source does, and is proved to produce
  exactly the text of that plan. Lemmas state the order, the presence rule of
  every flag, and the first and last pieces of the text.
- `Progress.dfy`: the progress-line classifier (ParseProgress). A predicate
  states what a match of `\[download\]\s+(\d+\.?\d*)%` is. A scanner computes
  the match at an index. The two are proved to agree in both directions.
  Classify takes the leftmost match; failing that, it checks for
  "[download] Destination:".
- `Session.dfy`: the window's state as a class: the download flag, the three
  button flags, the progress bar, and the yt-dlp processes. Every process
  object the window creates gets a number. The state records which number
  `_currentProcess` holds, which processes are running, and which process
  objects never started because `Process.Start` threw. The event handlers are
  methods. The invariant `Valid` says that the buttons agree with the download
  flag. The handlers as written can break it; their corrected versions keep
  it.
- `Text.dfy`: the .NET primitives the window relies on: Char.IsWhiteSpace,
  string.Trim, string.IsNullOrWhiteSpace, ordinal IndexOf and Contains,
  int.TryParse and int.ToString. `Wrappers.dfy` holds Option.

Asynchronous handlers are split at their `await`. A click method runs up to
the point where the process starts. A separate method runs once the process
has exited, or once `Process.Start` has thrown: the exit handler or the
`catch` block, then the `finally` block. A click is accepted in any state;
whether its button is enabled is part of the state the caller reads.

## Model

| member | source | states |
|---|---|---|
| Formats.Ceiling | ShareIsCare/MainWindow.xaml.cs:319-328 | tier 0 has no ceiling; any tier outside 0 to 6, -1 included, gets 9999 |
| Formats.CeilingsDescend | ShareIsCare/MainWindow.xaml.cs:337-346 | a higher tier among 1 to 6 always gets a strictly lower ceiling |
| Formats.VideoOnlyFormat | ShareIsCare/MainWindow.xaml.cs:333-349 | starts with "bestvideo"; the ceiling that reads back from it is the tier's; never asks for audio; tier 0 carries no height filter |
| Formats.VideoAudioFormat | ShareIsCare/MainWindow.xaml.cs:315-331 | starts with the video-only expression of the same tier; the tier's ceiling reads back from the whole expression and from the fallback after '/'; tier 0 has no filter |
| Formats.MergesBestAudio | ShareIsCare/MainWindow.xaml.cs:315-331 | the first alternative, everything before the '/', is the video-only expression of the same tier followed by "+bestaudio" |
| Formats.FallbackIsBest | ShareIsCare/MainWindow.xaml.cs:315-331 | the fallback alternative, everything after the '/', is "best" under the same height filter as the video-only expression: plain "best" for tier 0, "best[height<=h]" for a tier with ceiling h |
| Formats.FormatString | ShareIsCare/MainWindow.xaml.cs:301-313 | audio-only gives "bestaudio/best" with no ceiling; video-only gives the video-only expression, with no "bestaudio"; custom gives the trimmed custom text; every other type gives the video-with-audio expression; all but audio-only and custom carry the tier's ceiling; empty exactly for a blank custom text |
| Text.TrimEmpty | ShareIsCare/MainWindow.xaml.cs:310 | Trim leaves nothing exactly when the text is blank |
| Text.TrimSlice | ShareIsCare/MainWindow.xaml.cs:292-296 | Trim yields the slice between a blank prefix and a blank suffix, with no white space at either end |
| Text.TryParseInt32 | ShareIsCare/MainWindow.xaml.cs:280 | int.TryParse succeeds only with a value in the 32-bit range |
| Text.ParsedIsNotBlank | ShareIsCare/MainWindow.xaml.cs:277-280 | a text that parses as an int is not blank |
| Text.ParseToStringRoundTrip | ShareIsCare/MainWindow.xaml.cs:282 | the decimal text of an in-range value parses back to that value |
| Arguments.OutputTemplate | ShareIsCare/MainWindow.xaml.cs:225-228 | Path.Combine: the template starts with the folder and ends with "%(title)s.%(ext)s", with exactly one character between them, a backslash, unless the folder is empty or already ends in a separator |
| Arguments.Render | ShareIsCare/MainWindow.xaml.cs:229-296 | every appended piece is non-empty, and all but the output template open with a space |
| Arguments.RateLimit | ShareIsCare/MainWindow.xaml.cs:277-284 | a limit is set only when the box is checked, and it is the positive 32-bit value int.TryParse reads; every checked text that parses to a positive value sets it, so the blank test never rejects a parsable text |
| Arguments.BuildCommandLineArgs | ShareIsCare/MainWindow.xaml.cs:220-299 | the appended text is exactly the rendering of the plan the options select |
| Arguments.PlanOrder | ShareIsCare/MainWindow.xaml.cs:220-299 | the plan lists segments in the builder's fixed order, each kind at most once |
| Arguments.PlanMembers | ShareIsCare/MainWindow.xaml.cs:220-299 | a segment is in the plan exactly when the options call for it |
| Arguments.PlanEnds | ShareIsCare/MainWindow.xaml.cs:220-299 | the plan opens with the output template and closes with the trimmed URL |
| Arguments.TextStarts | ShareIsCare/MainWindow.xaml.cs:225-229 | the argument text starts with -o and the quoted output template |
| Arguments.TextEnds | ShareIsCare/MainWindow.xaml.cs:295-296 | the argument text ends with the quoted, trimmed URL |
| Arguments.FormatFlag | ShareIsCare/MainWindow.xaml.cs:232-236 | -f is passed exactly when the format expression is not empty, and with that expression |
| Arguments.ExtractAudioFlag | ShareIsCare/MainWindow.xaml.cs:239-241 | -x exactly for the audio-only type |
| Arguments.AudioFormatFlag | ShareIsCare/MainWindow.xaml.cs:243-244 | --audio-format exactly for audio-only, with the selected codec |
| Arguments.AudioQualityFlag | ShareIsCare/MainWindow.xaml.cs:246-250 | --audio-quality exactly for audio-only with a quality entry past the first, with that entry |
| Arguments.PlaylistFlag | ShareIsCare/MainWindow.xaml.cs:254-256 | --yes-playlist when the box is checked, --no-playlist otherwise, and no other playlist segment |
| Arguments.OnePlaylistFlag | ShareIsCare/MainWindow.xaml.cs:254-256 | the plan never holds two playlist flags |
| Arguments.TextPlaylist | ShareIsCare/MainWindow.xaml.cs:254-256 | the argument text contains the playlist flag the box selects |
| Arguments.SubtitlesFlag | ShareIsCare/MainWindow.xaml.cs:259-262 | the subtitle options appear exactly when their box is checked |
| Arguments.ThumbnailFlag | ShareIsCare/MainWindow.xaml.cs:265-268 | --embed-thumbnail exactly when its box is checked |
| Arguments.MetadataFlag | ShareIsCare/MainWindow.xaml.cs:271-274 | --embed-metadata exactly when its box is checked |
| Arguments.RateLimitFlag | ShareIsCare/MainWindow.xaml.cs:277-284 | --limit-rate nK appears exactly when the box is checked, the text is not blank, it parses as the int n, and n > 0 |
| Arguments.RateLimitReadsBack | ShareIsCare/MainWindow.xaml.cs:280-282 | the number written after --limit-rate parses back to the limit |
| Arguments.ProgressAlways | ShareIsCare/MainWindow.xaml.cs:287 | the progress options are always in the plan |
| Arguments.TextProgress | ShareIsCare/MainWindow.xaml.cs:287 | the argument text always contains " --newline --no-colors --progress" |
| Arguments.ExtraArgs | ShareIsCare/MainWindow.xaml.cs:290-293 | the trimmed extra arguments appear exactly when the extra text is not blank |
| Arguments.ExtraAfterProgress | ShareIsCare/MainWindow.xaml.cs:286-293 | the extra arguments come right after the progress options |
| Progress.PercentValue | ShareIsCare/MainWindow.xaml.cs:438 | double.TryParse of the captured text: exactly its whole part without a point; at least its whole part and below the next integer with one |
| Progress.PercentOfDigits | ShareIsCare/MainWindow.xaml.cs:438 | with a point, the value is the number all the captured digits spell, divided by ten to the number of digits after the point |
| Progress.CaptureSound | ShareIsCare/MainWindow.xaml.cs:437 | the group read by the scanner is well formed and followed by '%' |
| Progress.CaptureOf | ShareIsCare/MainWindow.xaml.cs:437 | a well-formed group followed by '%' is read back exactly |
| Progress.MatchAtSound | ShareIsCare/MainWindow.xaml.cs:437 | what the scanner finds at an index is a match of the expression there |
| Progress.MatchAtComplete | ShareIsCare/MainWindow.xaml.cs:437 | every match of the expression at an index is the one the scanner finds, so the capture is unique |
| Progress.FirstMatchFound | ShareIsCare/MainWindow.xaml.cs:437 | the search returns a match at or after where it starts |
| Progress.FirstMatchLeftmost | ShareIsCare/MainWindow.xaml.cs:437 | the search returns a match no further right than any existing match |
| Progress.NoMatchExactly | ShareIsCare/MainWindow.xaml.cs:437-438 | Regex.Match fails exactly when the expression matches nowhere in the line |
| Progress.Classify | ShareIsCare/MainWindow.xaml.cs:434-447 | a determinate update carries a well-formed percentage, so double.TryParse succeeds |
| Progress.DeterminateIsLeftmostMatch | ShareIsCare/MainWindow.xaml.cs:437-442 | a determinate update carries the capture of a match, and no match starts further left |
| Progress.MatchWins | ShareIsCare/MainWindow.xaml.cs:437-446 | a line with a match anywhere is determinate, even when it also contains the destination tag |
| Progress.IndeterminateExactly | ShareIsCare/MainWindow.xaml.cs:443-446 | indeterminate exactly when nothing matches and the line contains "[download] Destination:" |
| Progress.NoChangeExactly | ShareIsCare/MainWindow.xaml.cs:434-447 | no update exactly when nothing matches and the destination tag is absent |
| Progress.ReadsProgressLine | ShareIsCare/MainWindow.xaml.cs:436-442 | "[download]", white space, a number and '%' read as that number, whatever follows |
| Progress.ExampleProgress | ShareIsCare/MainWindow.xaml.cs:436 | the line in the comment reads as 45.0 |
| Progress.ExampleValue | ShareIsCare/MainWindow.xaml.cs:438 | "45.0" parses to 45 |
| Progress.NoPercentSign | ShareIsCare/MainWindow.xaml.cs:437 | a line without '%' never matches |
| Progress.DestinationLine | ShareIsCare/MainWindow.xaml.cs:443-446 | a destination line whose path has no '%' turns the bar indeterminate |
| Progress.OtherLine | ShareIsCare/MainWindow.xaml.cs:434-447 | a line with neither a '%' nor the destination tag changes nothing |
| Session.UrlValid | ShareIsCare/MainWindow.xaml.cs:168-178 | the URL is accepted exactly when something is left of it once trimmed |
| Session.OutputPathValid | ShareIsCare/MainWindow.xaml.cs:180-218 | the folder is accepted exactly when something is left of it once trimmed and the directory exists or was created |
| Session.InfoArgs | ShareIsCare/MainWindow.xaml.cs:132 | the information request passes --dump-json --no-warnings and the URL as typed, in quotes, with nothing between the prefix, the URL and the closing quote (the length is exactly theirs) |
| Session.Window.constructor | ShareIsCare/MainWindow.xaml.cs:17 | the window opens idle: Download and Get Info enabled, Stop disabled, the bar empty, no process object, the invariant established |
| Session.Window.SetDownloadingState | ShareIsCare/MainWindow.xaml.cs:474-485 | Download and Get Info are enabled exactly when not downloading, Stop exactly when downloading; starting forces the bar indeterminate; stopping leaves the bar as it was |
| Session.Window.ResetProgress | ShareIsCare/MainWindow.xaml.cs:487-491 | the bar becomes determinate at 0 and nothing else changes |
| Session.Window.ParseProgress | ShareIsCare/MainWindow.xaml.cs:434-447 | a percentage sets the bar to its value and makes it determinate; a destination line makes it indeterminate; any other line changes nothing; the buttons and processes never change |
| Session.Window.OutputLine | ShareIsCare/MainWindow.xaml.cs:382-392 | empty lines and the lines of an information request change nothing; every other line of a download moves the bar as ParseProgress does |
| Session.Window.Launch | ShareIsCare/MainWindow.xaml.cs:353-404 | a missing executable creates nothing; otherwise a new process object, numbered after all earlier ones, becomes the current process, and it is running exactly when Start succeeded |
| Session.Window.ClickDownload | ShareIsCare/MainWindow.xaml.cs:141-158 | invalid input or a download in progress changes nothing; otherwise the arguments are exactly the plan's text, the download state is set and the run launched |
| Session.Window.EndRunAsWritten | ShareIsCare/MainWindow.xaml.cs:406-430 | the run's process is no longer running; the bar is reset unless the executable was missing; the error box shows exactly when Start threw or the exit code of the current process, another run's when one launched since, cannot be read |
| Session.Window.EndRun | ShareIsCare/MainWindow.xaml.cs:406-430 | corrected: the run reads its own process's exit code, so the error box shows exactly when Start threw, and the bar is reset on every path |
| Session.Window.FinishDownloadAsWritten | ShareIsCare/MainWindow.xaml.cs:160-165 | the end of the run, then the download state is left; the bar stays as it was when the executable was missing |
| Session.Window.FinishDownload | ShareIsCare/MainWindow.xaml.cs:160-165 | corrected: the download state is left and the bar is reset on every path |
| Session.Window.ClickGetInfo | ShareIsCare/MainWindow.xaml.cs:123-133 | a blank URL changes nothing; otherwise Get Info is disabled, the request's arguments returned and the run launched, in any state of the window |
| Session.Window.FinishInfoAsWritten | ShareIsCare/MainWindow.xaml.cs:135-138 | the end of the run, then Get Info is enabled whatever the download state; a process launched since stays running |
| Session.Window.FinishInfo | ShareIsCare/MainWindow.xaml.cs:135-138 | corrected: Get Info is enabled exactly when no download runs, keeping the invariant |
| Session.Window.ClickStopAsWritten | ShareIsCare/MainWindow.xaml.cs:449-466 | faults, changing nothing, exactly when the current process object never started; otherwise the current process is killed unless the kill fails, the download state is left and the bar reset |
| Session.Window.ClickStop | ShareIsCare/MainWindow.xaml.cs:449-466 | corrected: never faults; the same kill, download state and bar |
| Session.Window.ClickClear | ShareIsCare/MainWindow.xaml.cs:468-472 | the bar is reset and nothing else changes |
| Session.Window.CloseAsWritten | ShareIsCare/MainWindow.xaml.cs:499-512 | faults exactly when the current process object never started; otherwise a live current process is killed unless the kill fails; nothing else changes |
| Session.Window.Close | ShareIsCare/MainWindow.xaml.cs:499-512 | corrected: never faults; the same kill |
| Session.GetInfoThenDownload | ShareIsCare/MainWindow.xaml.cs:123-158 | Get Info, then Download while the request runs: both processes run, the download's is current, the invariant holds |
| Session.InfoRaceAsWritten | ShareIsCare/MainWindow.xaml.cs:123-166 | the information request then ends: Get Info is enabled during the download, an error box shows, and the download's process stays current and running |
| Session.OrphanedDownloadAsWritten | ShareIsCare/MainWindow.xaml.cs:449-466 | from that state, a second Get Info and then Stop leave the window idle while the download's process still runs and is no longer current |
| Session.InfoRace | ShareIsCare/MainWindow.xaml.cs:123-166 | corrected: the same sequence keeps Get Info disabled and the invariant, with no error box |
| Session.MissingToolAsWritten | ShareIsCare/MainWindow.xaml.cs:351-363 | a download whose executable is missing ends with the bar indeterminate and nothing running |
| Session.MissingTool | ShareIsCare/MainWindow.xaml.cs:351-363 | corrected: the same download ends with the bar determinate at 0 |
| Session.FailedStartAsWritten | ShareIsCare/MainWindow.xaml.cs:499-506 | a download whose Start throws leaves a never-started current process object, and closing the window then faults |
| Session.FailedStart | ShareIsCare/MainWindow.xaml.cs:499-506 | corrected: the same window closes without fault, with nothing running |

## Left out

- Output redirection, the dispatcher and the log text box are not modelled. A process is a number with two facts about it: whether it is running, and whether its Start threw. The value of an exit code does not matter, because both branches of the exit handler reset the progress; only whether reading it throws is modelled.
- When a process exits is the caller's choice: the method that ends a run is called once that run's process has exited. Output lines reach OutputLine with the run's isDownload flag, in whatever order the caller interleaves them with other events.
- A process exiting and its run's end method are one step: `running` means that the end method of the process's run has not yet been called. A process that has exited while its continuation still waits on the dispatcher counts as running, so reading its ExitCode is treated as throwing.
- Process.Kill(entireProcessTree: true) is reduced to the process leaving the running set. Child processes of yt-dlp are not modelled.
- An exception that escapes StopButton_Click or OnClosed is reported as a fault, with the state left as the handler found it. What WPF then does with the unhandled exception is not modelled.
- Locating yt-dlp (CheckYtDlpExists, SelectYtDlpPath, the file dialogs) is left out. Whether the executable exists is a parameter.
- Directory.Exists, Directory.CreateDirectory and the "Create it?" dialog are one boolean parameter of ValidateOutputPath. Message boxes other than the error box of RunYtDlpAsync's catch block are not modelled.
- The default output folder (the user's Downloads folder) and the combo box contents live in MainWindow.xaml, which is not part of this model. The options are taken as a snapshot. The initial state of the buttons and the bar is assumed: Download and Get Info enabled, Stop disabled, the bar empty.
- Arguments.Render: values (the custom format, the extra text, the URL) are put in quotes as they are, without escaping. How Windows then splits the command line into arguments is not modelled. A `"` inside a value, or a value ending in `\`, can merge or run on arguments; the model only states each piece's text.
- Progress.PercentValue: reads the number with '.' as the decimal point, as the invariant culture does. Under a culture whose decimal separator is ',' the source's parse of "45.0" fails or reads differently; when it fails, the Destination test decides the line. Rounding to a double is not modelled; the value is exact.
- Progress.Capture: \d is ASCII digits only. .NET's \d also matches other Unicode decimal digits.
- Session.Window.ParseProgress: the value is stored without clamping, as the code does. Clamping to 0-100 is done by WPF's coercion of ProgressBar.Value, which is not modelled. A description of the program that promises a percentage in [0,100] relies on that coercion.
- BrowseButton_Click, the combo and check-box visibility handlers, and LogOutput are WPF wiring and are left out.

## Findings

| source | as written | input that shows it | evidently intended | confidence | as-written member | corrected member |
|---|---|---|---|---|---|---|
| ShareIsCare/MainWindow.xaml.cs:135-138 | the finally block of GetInfoButton_Click sets GetInfoButton.IsEnabled = true unconditionally | click Get Info; while it runs, click Download; the information request then ends. Get Info is now enabled during the download; a second Get Info click makes its process the current one, so Stop kills that request and the download keeps running out of Stop's reach | Get Info stays disabled while a download runs, as SetDownloadingState(true) set it | not executed | Session.Window.FinishInfoAsWritten | Session.Window.FinishInfo |
| ShareIsCare/MainWindow.xaml.cs:351-363 | when yt-dlp.exe is missing, RunYtDlpAsync returns before any ResetProgress, and DownloadButton_Click's finally only calls SetDownloadingState(false) | click Download with valid options while the executable is missing | the bar is reset when a download ends, as on every other exit path | not executed | Session.Window.FinishDownloadAsWritten | Session.Window.FinishDownload |
| ShareIsCare/MainWindow.xaml.cs:408-419 | the exit handler reads _currentProcess.ExitCode, the process of the last run launched, not necessarily the process of the run that ended | click Get Info; while it runs, click Download; the information request ends while the download runs. ExitCode of the running download throws, and the catch shows "Error running yt-dlp" | each run reads the exit code of its own process | not executed | Session.Window.EndRunAsWritten | Session.Window.EndRun |
| ShareIsCare/MainWindow.xaml.cs:499-506 | OnClosed reads HasExited of _currentProcess outside any try, as StopButton_Click does at 451. After Process.Start throws at 402, _currentProcess is a process object with no process, and HasExited throws InvalidOperationException | pick a file that is not an executable as yt-dlp (the dialog's "All files" filter allows it), click Download, then close the window | a process object that never started counts as exited, so closing does nothing | not executed | Session.Window.CloseAsWritten | Session.Window.Close |
