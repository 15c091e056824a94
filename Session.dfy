/**
 * The window's session state (MainWindow): whether a download runs, which of
 * the Download, Stop and Get Info buttons are enabled, the progress bar, and
 * the process objects the window created: each is a number, the one held as
 * the current process is recorded, and two sets say which have started and
 * not yet ended and which failed to start. Each event handler is a method
 * that updates the state in place.
 *
 * Asynchronous runs are split at their await: a click starts a run, and a
 * separate method is the code that runs once the process has exited (the
 * exit handler, or the catch block, and the finally block). Each process
 * object the window creates gets a number; the window's _currentProcess is
 * the number of the last one created, and the model tracks which process
 * objects are running and which never started because Process.Start threw.
 * The outcomes of the file system and of Process.Kill are parameters.
 */
module Session {
  import opened Wrappers
  import opened Text
  import opened Arguments
  import opened Progress

  /** ValidateUrl: the URL box must not be blank, so something is left of it once trimmed. */
  function UrlValid(url: string): (ok: bool)
    ensures ok <==> Trim(url) != []
  {
    TrimEmpty(url);
    !IsBlank(url)
  }

  /**
   * ValidateOutputPath: the output box must not be blank, and its directory
   * must exist or be created after the user agrees (directoryReady stands for
   * that outcome of the file system and the dialog).
   */
  function OutputPathValid(dir: string, directoryReady: bool): (ok: bool)
    ensures ok <==> Trim(dir) != [] && directoryReady
  {
    TrimEmpty(dir);
    !IsBlank(dir) && directoryReady
  }

  /** The arguments of an information request: the URL as typed, quoted, without trimming. */
  function InfoArgs(url: string): (args: string)
    ensures StartsWith(args, "--dump-json --no-warnings \"")
    ensures EndsWith(args, url + "\"")
    ensures |args| == |"--dump-json --no-warnings \""| + |url| + 1
  {
    var pre := "--dump-json --no-warnings \"";
    var args := pre + url + "\"";
    assert args[..|pre|] == pre;
    assert args[|args| - |url + "\""|..] == url + "\"";
    args
  }

  /** How RunYtDlpAsync's launch goes. */
  datatype Launch =
    | Missing  // File.Exists fails: no process object is created and the run returns at once
    | Throws   // a process object becomes the current one, but Process.Start throws
    | Runs     // the process starts, becomes the current one, and runs until it exits

  /** What a click on Download leads to. */
  datatype DownloadOutcome =
    | Invalid          // the URL or the output folder did not validate
    | AlreadyRunning   // a download is in progress; the click is refused
    | Started(args: string, process: nat)  // the arguments were built, the download state set and the run launched (process 0: none created)

  class Window {
    var downloading: bool      // _isDownloading
    var downloadEnabled: bool  // DownloadButton.IsEnabled
    var stopEnabled: bool      // StopButton.IsEnabled
    var getInfoEnabled: bool   // GetInfoButton.IsEnabled
    var indeterminate: bool    // DownloadProgressBar.IsIndeterminate
    var value: real            // DownloadProgressBar.Value
    var current: nat           // _currentProcess, as the number of its process object; 0 for null
    var created: nat           // how many process objects the window has created, numbered 1 to created
    var running: set<nat>      // the process objects whose process started and has not exited
    var unstarted: set<nat>    // the process objects whose Start threw: no process is associated with them

    /**
     * The buttons agree with the download flag: Download is enabled exactly
     * when no download runs, Stop exactly when one does, and Get Info is never
     * enabled during a download.
     */
    predicate Valid()
      reads this
    {
      && downloadEnabled == !downloading
      && stopEnabled == downloading
      && (getInfoEnabled ==> !downloading)
    }

    /** _currentProcess != null && !_currentProcess.HasExited, for a process object that did start. */
    predicate CurrentAlive()
      reads this
    {
      current != 0 && current in running
    }

    /** Reading HasExited or ExitCode of _currentProcess throws: no process was ever associated with it. */
    predicate CurrentUnstarted()
      reads this
    {
      current != 0 && current in unstarted
    }

    /** The window as it opens: idle, Download and Get Info enabled, Stop disabled, the bar empty, no process. */
    constructor ()
      ensures Valid()
      ensures !downloading && downloadEnabled && !stopEnabled && getInfoEnabled
      ensures !indeterminate && value == 0.0
      ensures current == 0 && created == 0 && running == {} && unstarted == {}
    {
      downloading := false;
      downloadEnabled := true;
      stopEnabled := false;
      getInfoEnabled := true;
      indeterminate := false;
      value := 0.0;
      current := 0;
      created := 0;
      running := {};
      unstarted := {};
    }

    /**
     * SetDownloadingState: records the flag, enables Download and Get Info
     * exactly when not downloading and Stop exactly when downloading, and turns
     * the bar indeterminate when a download starts; leaving the download state
     * does not touch the bar.
     */
    method SetDownloadingState(d: bool)
      modifies this
      ensures Valid()
      ensures downloading == d && downloadEnabled == !d && stopEnabled == d && getInfoEnabled == !d
      ensures indeterminate == (d || old(indeterminate))
      ensures value == old(value)
      ensures current == old(current) && created == old(created)
      ensures running == old(running) && unstarted == old(unstarted)
    {
      downloading := d;
      downloadEnabled := !d;
      stopEnabled := d;
      getInfoEnabled := !d;
      if d {
        indeterminate := true;
      }
    }

    /** ResetProgress: the bar becomes determinate and empty; nothing else changes. */
    method ResetProgress()
      modifies this
      ensures !indeterminate && value == 0.0
      ensures downloading == old(downloading) && downloadEnabled == old(downloadEnabled)
      ensures stopEnabled == old(stopEnabled) && getInfoEnabled == old(getInfoEnabled)
      ensures current == old(current) && created == old(created)
      ensures running == old(running) && unstarted == old(unstarted)
    {
      indeterminate := false;
      value := 0.0;
    }

    /**
     * ParseProgress: a line with a percentage sets the bar to it (determinate);
     * otherwise a destination line makes it indeterminate; any other line
     * leaves the bar as it is. Nothing else changes.
     */
    method ParseProgress(line: string)
      modifies this
      ensures match Classify(line)
              case Determinate(p) => !indeterminate && value == PercentValue(p)
              case Indeterminate => indeterminate && value == old(value)
              case NoChange => indeterminate == old(indeterminate) && value == old(value)
      ensures downloading == old(downloading) && downloadEnabled == old(downloadEnabled)
      ensures stopEnabled == old(stopEnabled) && getInfoEnabled == old(getInfoEnabled)
      ensures current == old(current) && created == old(created)
      ensures running == old(running) && unstarted == old(unstarted)
    {
      match Classify(line)
      case Determinate(p) =>
        indeterminate := false;
        value := PercentValue(p);
      case Indeterminate =>
        indeterminate := true;
      case NoChange =>
    }

    /**
     * A line on the standard output of a run: empty lines are ignored, the
     * lines of an information request are only logged, and every other line
     * of a download is parsed for progress.
     */
    method OutputLine(line: string, isDownload: bool)
      modifies this
      ensures line == [] || !isDownload ==> unchanged(this)
      ensures line != [] && isDownload ==>
                match Classify(line)
                case Determinate(p) => !indeterminate && value == PercentValue(p)
                case Indeterminate => indeterminate && value == old(value)
                case NoChange => indeterminate == old(indeterminate) && value == old(value)
      ensures downloading == old(downloading) && downloadEnabled == old(downloadEnabled)
      ensures stopEnabled == old(stopEnabled) && getInfoEnabled == old(getInfoEnabled)
      ensures current == old(current) && created == old(created)
      ensures running == old(running) && unstarted == old(unstarted)
    {
      if line != [] && isDownload {
        ParseProgress(line);
      }
    }

    /**
     * The launch in RunYtDlpAsync: when the executable exists, a new process
     * object is created and becomes _currentProcess before Start is called;
     * it runs when Start succeeds and never starts when Start throws. The
     * result is the new object's number, or 0 when none was created.
     */
    method Launch(launch: Launch) returns (process: nat)
      modifies this
      ensures launch == Missing ==> process == 0 && current == old(current) && created == old(created)
      ensures launch != Missing ==> process == old(created) + 1 && created == process && current == process
      ensures running == if launch == Runs then old(running) + {process} else old(running)
      ensures unstarted == if launch == Throws then old(unstarted) + {process} else old(unstarted)
      ensures downloading == old(downloading) && downloadEnabled == old(downloadEnabled)
      ensures stopEnabled == old(stopEnabled) && getInfoEnabled == old(getInfoEnabled)
      ensures indeterminate == old(indeterminate) && value == old(value)
    {
      if launch == Missing {
        return 0;
      }
      created := created + 1;
      process := created;
      current := process;
      if launch == Runs {
        running := running + {process};
      } else {
        unstarted := unstarted + {process};
      }
    }

    /**
     * DownloadButton_Click up to its await: the URL and the output folder are
     * validated first; a click during a download is refused with nothing
     * changed; otherwise the arguments are built, the download state is set,
     * and the run is launched.
     */
    method ClickDownload(o: Options, directoryReady: bool, launch: Launch) returns (outcome: DownloadOutcome)
      modifies this
      ensures old(Valid()) ==> Valid()
      ensures outcome == Invalid <==> !UrlValid(o.url) || !OutputPathValid(o.outputDir, directoryReady)
      ensures outcome == AlreadyRunning <==>
                UrlValid(o.url) && OutputPathValid(o.outputDir, directoryReady) && old(downloading)
      ensures !outcome.Started? ==> unchanged(this)
      ensures outcome.Started? ==>
                && !old(downloading)
                && outcome.args == Flatten(Plan(o))
                && downloading && !downloadEnabled && stopEnabled && !getInfoEnabled
                && indeterminate && value == old(value)
                && (launch == Missing ==> outcome.process == 0 && current == old(current) && created == old(created))
                && (launch != Missing ==> outcome.process == old(created) + 1 == created && current == outcome.process)
                && running == (if launch == Runs then old(running) + {outcome.process} else old(running))
                && unstarted == (if launch == Throws then old(unstarted) + {outcome.process} else old(unstarted))
    {
      if !UrlValid(o.url) || !OutputPathValid(o.outputDir, directoryReady) {
        return Invalid;
      }
      if downloading {
        return AlreadyRunning;
      }
      var args := BuildCommandLineArgs(o);
      SetDownloadingState(true);
      var process := Launch(launch);
      outcome := Started(args, process);
    }

    /**
     * The rest of RunYtDlpAsync, shared by both kinds of run, as written.
     * When the run's process exits, the exit handler reads the exit code of
     * _currentProcess, which is that run's process only when no other run has
     * launched since; reading it throws when the current process is still
     * running, never started, or is null, and the catch shows an error box.
     * Every path but a missing executable resets the progress. The result
     * says whether the error box of the catch block is shown.
     */
    method EndRunAsWritten(launch: Launch, process: nat) returns (errorBox: bool)
      modifies this
      ensures running == if launch == Runs then old(running) - {process} else old(running)
      ensures errorBox <==> launch == Throws || (launch == Runs && (current == 0 || current in running || current in unstarted))
      ensures launch != Missing ==> !indeterminate && value == 0.0
      ensures launch == Missing ==> indeterminate == old(indeterminate) && value == old(value)
      ensures downloading == old(downloading) && downloadEnabled == old(downloadEnabled)
      ensures stopEnabled == old(stopEnabled) && getInfoEnabled == old(getInfoEnabled)
      ensures current == old(current) && created == old(created) && unstarted == old(unstarted)
    {
      errorBox := false;
      if launch == Runs {
        running := running - {process};
        errorBox := current == 0 || current in running || current in unstarted;
        ResetProgress();
      } else if launch == Throws {
        errorBox := true;
        ResetProgress();
      }
    }

    /**
     * The rest of RunYtDlpAsync, corrected: the exit handler reads the exit
     * code of the run's own process, so only a failed Start shows the error
     * box, and the progress is reset on every path, a missing executable
     * included.
     */
    method EndRun(launch: Launch, process: nat) returns (errorBox: bool)
      modifies this
      ensures running == if launch == Runs then old(running) - {process} else old(running)
      ensures errorBox <==> launch == Throws
      ensures !indeterminate && value == 0.0
      ensures downloading == old(downloading) && downloadEnabled == old(downloadEnabled)
      ensures stopEnabled == old(stopEnabled) && getInfoEnabled == old(getInfoEnabled)
      ensures current == old(current) && created == old(created) && unstarted == old(unstarted)
    {
      if launch == Runs {
        running := running - {process};
      }
      errorBox := launch == Throws;
      ResetProgress();
    }

    /**
     * The end of a download as written: the end of the run, then the finally
     * block leaves the download state. When the executable was missing, the
     * bar stays indeterminate.
     */
    method FinishDownloadAsWritten(launch: Launch, process: nat) returns (errorBox: bool)
      modifies this
      ensures Valid()
      ensures !downloading && downloadEnabled && !stopEnabled && getInfoEnabled
      ensures indeterminate == (launch == Missing && old(indeterminate))
      ensures value == if launch == Missing then old(value) else 0.0
      ensures running == if launch == Runs then old(running) - {process} else old(running)
      ensures errorBox <==> launch == Throws || (launch == Runs && (current == 0 || current in running || current in unstarted))
      ensures current == old(current) && created == old(created) && unstarted == old(unstarted)
    {
      errorBox := EndRunAsWritten(launch, process);
      SetDownloadingState(false);
    }

    /** The end of a download, corrected: the bar is reset on every path, so it never stays busy. */
    method FinishDownload(launch: Launch, process: nat) returns (errorBox: bool)
      modifies this
      ensures Valid()
      ensures !downloading && downloadEnabled && !stopEnabled && getInfoEnabled
      ensures !indeterminate && value == 0.0
      ensures running == if launch == Runs then old(running) - {process} else old(running)
      ensures errorBox <==> launch == Throws
      ensures current == old(current) && created == old(created) && unstarted == old(unstarted)
    {
      errorBox := EndRun(launch, process);
      SetDownloadingState(false);
    }

    /**
     * GetInfoButton_Click up to its await: nothing happens for a blank URL;
     * otherwise Get Info is disabled and the information run is launched.
     * The click is taken in any state, since the button can be enabled
     * during a download.
     */
    method ClickGetInfo(url: string, launch: Launch) returns (args: Option<string>, process: nat)
      modifies this
      ensures old(Valid()) ==> Valid()
      ensures args.None? <==> !UrlValid(url)
      ensures args.None? ==> unchanged(this) && process == 0
      ensures args.Some? ==>
                && args.value == InfoArgs(url)
                && !getInfoEnabled
                && (launch == Missing ==> process == 0 && current == old(current) && created == old(created))
                && (launch != Missing ==> process == old(created) + 1 == created && current == process)
                && running == (if launch == Runs then old(running) + {process} else old(running))
                && unstarted == (if launch == Throws then old(unstarted) + {process} else old(unstarted))
      ensures downloading == old(downloading) && downloadEnabled == old(downloadEnabled)
      ensures stopEnabled == old(stopEnabled)
      ensures indeterminate == old(indeterminate) && value == old(value)
    {
      if !UrlValid(url) {
        return None, 0;
      }
      getInfoEnabled := false;
      process := Launch(launch);
      args := Some(InfoArgs(url));
    }

    /**
     * The end of an information request as written: the end of the run, then
     * the finally block enables Get Info whether or not a download has
     * started meanwhile.
     */
    method FinishInfoAsWritten(launch: Launch, process: nat) returns (errorBox: bool)
      modifies this
      ensures getInfoEnabled
      ensures downloading == old(downloading) && downloadEnabled == old(downloadEnabled)
      ensures stopEnabled == old(stopEnabled)
      ensures launch != Missing ==> !indeterminate && value == 0.0
      ensures launch == Missing ==> indeterminate == old(indeterminate) && value == old(value)
      ensures running == if launch == Runs then old(running) - {process} else old(running)
      ensures errorBox <==> launch == Throws || (launch == Runs && (current == 0 || current in running || current in unstarted))
      ensures current == old(current) && created == old(created) && unstarted == old(unstarted)
    {
      errorBox := EndRunAsWritten(launch, process);
      getInfoEnabled := true;
    }

    /**
     * The end of an information request, corrected: Get Info is enabled
     * again only when no download runs, and only a failed Start shows the
     * error box.
     */
    method FinishInfo(launch: Launch, process: nat) returns (errorBox: bool)
      modifies this
      ensures old(Valid()) ==> Valid()
      ensures getInfoEnabled == !downloading
      ensures downloading == old(downloading) && downloadEnabled == old(downloadEnabled)
      ensures stopEnabled == old(stopEnabled)
      ensures !indeterminate && value == 0.0
      ensures running == if launch == Runs then old(running) - {process} else old(running)
      ensures errorBox <==> launch == Throws
      ensures current == old(current) && created == old(created) && unstarted == old(unstarted)
    {
      errorBox := EndRun(launch, process);
      getInfoEnabled := !downloading;
    }

    /**
     * StopButton_Click as written: when _currentProcess is not null, its
     * HasExited is read outside any try, which throws for a process object
     * whose Start threw; the exception leaves the handler and nothing else
     * happens. Otherwise a live current process is killed (the kill can fail,
     * which is logged and otherwise ignored), and the download state is left
     * and the progress reset. The result says whether the handler faulted.
     */
    method ClickStopAsWritten(killSucceeds: bool) returns (faulted: bool)
      modifies this
      ensures faulted <==> CurrentUnstarted()
      ensures faulted ==> unchanged(this)
      ensures !faulted ==>
                && Valid()
                && !downloading && downloadEnabled && !stopEnabled && getInfoEnabled
                && !indeterminate && value == 0.0
                && running == if old(CurrentAlive()) && killSucceeds then old(running) - {current} else old(running)
      ensures current == old(current) && created == old(created) && unstarted == old(unstarted)
    {
      if CurrentUnstarted() {
        return true;
      }
      faulted := false;
      if CurrentAlive() && killSucceeds {
        running := running - {current};
      }
      SetDownloadingState(false);
      ResetProgress();
    }

    /**
     * StopButton_Click, corrected: a process object that never started counts
     * as exited, so the handler always leaves the download state and resets
     * the progress.
     */
    method ClickStop(killSucceeds: bool)
      modifies this
      ensures Valid()
      ensures !downloading && downloadEnabled && !stopEnabled && getInfoEnabled
      ensures !indeterminate && value == 0.0
      ensures running == if old(CurrentAlive()) && killSucceeds then old(running) - {current} else old(running)
      ensures current == old(current) && created == old(created) && unstarted == old(unstarted)
    {
      if CurrentAlive() && killSucceeds {
        running := running - {current};
      }
      SetDownloadingState(false);
      ResetProgress();
    }

    /** ClearButton_Click: the log is cleared (not modelled) and the progress reset. */
    method ClickClear()
      modifies this
      ensures !indeterminate && value == 0.0
      ensures downloading == old(downloading) && downloadEnabled == old(downloadEnabled)
      ensures stopEnabled == old(stopEnabled) && getInfoEnabled == old(getInfoEnabled)
      ensures current == old(current) && created == old(created)
      ensures running == old(running) && unstarted == old(unstarted)
    {
      ResetProgress();
    }

    /**
     * OnClosed as written: HasExited of a non-null _currentProcess is read
     * outside the try, so a process object whose Start threw makes the
     * handler fault; otherwise a live current process is killed, and a
     * failing kill is ignored.
     */
    method CloseAsWritten(killSucceeds: bool) returns (faulted: bool)
      modifies this
      ensures faulted <==> CurrentUnstarted()
      ensures running == if !faulted && old(CurrentAlive()) && killSucceeds then old(running) - {current} else old(running)
      ensures downloading == old(downloading) && downloadEnabled == old(downloadEnabled)
      ensures stopEnabled == old(stopEnabled) && getInfoEnabled == old(getInfoEnabled)
      ensures indeterminate == old(indeterminate) && value == old(value)
      ensures current == old(current) && created == old(created) && unstarted == old(unstarted)
    {
      faulted := CurrentUnstarted();
      if !faulted && CurrentAlive() && killSucceeds {
        running := running - {current};
      }
    }

    /** OnClosed, corrected: a process object that never started counts as exited, so closing never faults. */
    method Close(killSucceeds: bool)
      modifies this
      ensures running == if old(CurrentAlive()) && killSucceeds then old(running) - {current} else old(running)
      ensures downloading == old(downloading) && downloadEnabled == old(downloadEnabled)
      ensures stopEnabled == old(stopEnabled) && getInfoEnabled == old(getInfoEnabled)
      ensures indeterminate == old(indeterminate) && value == old(value)
      ensures current == old(current) && created == old(created) && unstarted == old(unstarted)
    {
      if CurrentAlive() && killSucceeds {
        running := running - {current};
      }
    }
  }

  /**
   * A fresh window: Get Info is clicked, then Download is clicked while the
   * information request still runs. Both processes start, and the
   * download's becomes the current one.
   */
  method GetInfoThenDownload(o: Options) returns (w: Window, infoProcess: nat)
    requires UrlValid(o.url) && !IsBlank(o.outputDir)
    ensures fresh(w)
    ensures w.Valid() && w.downloading && !w.getInfoEnabled
    ensures infoProcess == 1 && w.current == 2 && w.created == 2 && w.running == {1, 2} && w.unstarted == {}
  {
    w := new Window();
    var info;
    info, infoProcess := w.ClickGetInfo(o.url, Runs);
    var outcome := w.ClickDownload(o, true, Runs);
  }

  /**
   * As written, an information request that ends after a download has
   * started enables Get Info during the download, so the buttons no longer
   * agree with the download flag. Its exit handler reads the exit code of
   * the download's process, which is still running, and shows an error box.
   * The download's process stays the current one and stays alive.
   */
  method InfoRaceAsWritten(o: Options) returns (w: Window, errorBox: bool)
    requires UrlValid(o.url) && !IsBlank(o.outputDir)
    ensures w.downloading && w.getInfoEnabled && !w.Valid()
    ensures errorBox
    ensures w.current == 2 && w.CurrentAlive()
    ensures w.created == 2 && w.running == {2} && w.unstarted == {}
  {
    var infoProcess;
    w, infoProcess := GetInfoThenDownload(o);
    errorBox := w.FinishInfoAsWritten(Runs, infoProcess);
  }

  /**
   * Continuing from the state that sequence leaves: a second Get Info click,
   * which the enabled button accepts, replaces the current process; Stop
   * then kills the second information request and leaves the window idle
   * while the download's process keeps running, out of reach of Stop.
   */
  method OrphanedDownloadAsWritten(w: Window, url: string)
    requires UrlValid(url)
    requires w.downloading && w.getInfoEnabled
    requires w.current == 2 && w.created == 2 && w.running == {2} && w.unstarted == {}
    modifies w
    ensures !w.downloading && w.Valid()
    ensures w.running == {2} && w.current == 3 && !w.CurrentAlive()
  {
    var info, second := w.ClickGetInfo(url, Runs);
    var faulted := w.ClickStopAsWritten(true);
  }

  /**
   * Corrected, the same first sequence keeps Get Info disabled until the
   * download ends, shows no error box, and leaves the download's process
   * running.
   */
  method InfoRace(o: Options) returns (w: Window, errorBox: bool)
    requires UrlValid(o.url) && !IsBlank(o.outputDir)
    ensures w.downloading && !w.getInfoEnabled && w.Valid()
    ensures !errorBox
    ensures w.current == 2 && w.CurrentAlive()
  {
    var infoProcess;
    w, infoProcess := GetInfoThenDownload(o);
    errorBox := w.FinishInfo(Runs, infoProcess);
  }

  /**
   * As written, a download whose executable is missing ends with the bar
   * still indeterminate although nothing runs.
   */
  method MissingToolAsWritten(o: Options) returns (w: Window)
    requires UrlValid(o.url) && !IsBlank(o.outputDir)
    ensures !w.downloading && w.indeterminate && w.running == {}
  {
    w := new Window();
    var outcome := w.ClickDownload(o, true, Missing);
    var errorBox := w.FinishDownloadAsWritten(Missing, outcome.process);
  }

  /** Corrected, the same download ends with the bar determinate and empty. */
  method MissingTool(o: Options) returns (w: Window)
    requires UrlValid(o.url) && !IsBlank(o.outputDir)
    ensures !w.downloading && !w.indeterminate && w.value == 0.0 && w.running == {}
  {
    w := new Window();
    var outcome := w.ClickDownload(o, true, Missing);
    var errorBox := w.FinishDownload(Missing, outcome.process);
  }

  /**
   * As written, a download whose Start throws leaves _currentProcess on a
   * process object that never started; closing the window then faults on
   * HasExited.
   */
  method FailedStartAsWritten(o: Options) returns (w: Window, faulted: bool)
    requires UrlValid(o.url) && !IsBlank(o.outputDir)
    ensures !w.downloading && w.CurrentUnstarted()
    ensures faulted
  {
    w := new Window();
    var outcome := w.ClickDownload(o, true, Throws);
    var errorBox := w.FinishDownloadAsWritten(Throws, outcome.process);
    faulted := w.CloseAsWritten(true);
  }

  /** Corrected, the same window closes without fault and nothing is left running. */
  method FailedStart(o: Options) returns (w: Window)
    requires UrlValid(o.url) && !IsBlank(o.outputDir)
    ensures !w.downloading && w.CurrentUnstarted() && w.running == {}
  {
    w := new Window();
    var outcome := w.ClickDownload(o, true, Throws);
    var errorBox := w.FinishDownload(Throws, outcome.process);
    w.Close(true);
  }
}
