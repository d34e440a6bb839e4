/** The downloader window: the output widget, the trigger button, and the handlers that run
    a job. The widget and the message boxes are the event log `events`; the button is its
    enabled state and caption. The thread started by `start_download_thread` is run to
    completion inside the handler call. */
module Host {
  import opened Wrappers
  import opened Text
  import opened Ui
  import opened Progress
  import opened Invocation
  import opened Jobs

  class DownloaderWindow {
    const variant: Variant
    const cwd: string
    var events: seq<UiEvent>
    var buttonEnabled: bool
    var buttonCaption: string

    /** The window as `create_gui` leaves it: nothing logged yet, the button enabled with
        its resting caption. */
    constructor (variant: Variant, cwd: string)
      ensures this.variant == variant && this.cwd == cwd
      ensures events == [] && Idle()
    {
      this.variant := variant;
      this.cwd := cwd;
      events := [];
      buttonEnabled := true;
      buttonCaption := IdleCaption(variant);
    }

    /** The button is clickable and shows its resting caption. */
    predicate Idle()
      reads this
    {
      buttonEnabled && buttonCaption == IdleCaption(variant)
    }

    /** `output_widget.insert(tk.END, text)`. */
    method AppendOutput(text: string)
      modifies this
      ensures events == old(events) + [Insert(text)]
      ensures buttonEnabled == old(buttonEnabled) && buttonCaption == old(buttonCaption)
    {
      events := events + [Insert(text)];
    }

    /** One `messagebox.show...` call. */
    method ShowNotice(n: Notice)
      modifies this
      ensures events == old(events) + [Dialog(n)]
      ensures buttonEnabled == old(buttonEnabled) && buttonCaption == old(buttonCaption)
    {
      events := events + [Dialog(n)];
    }

    /** `download_button.config(state=..., text=caption)`. */
    method ConfigureButton(enabled: bool, caption: string)
      modifies this
      ensures events == old(events) + [Configure(enabled, caption)]
      ensures buttonEnabled == enabled && buttonCaption == caption
    {
      events := events + [Configure(enabled, caption)];
      buttonEnabled := enabled;
      buttonCaption := caption;
    }

    /** `progress_hook(d)` of the library variants: at most one line for the widget. */
    method ProgressHook(d: HookStatus)
      modifies this
      ensures events == old(events) + Inserts(ProgressLines([d]))
      ensures buttonEnabled == old(buttonEnabled) && buttonCaption == old(buttonCaption)
    {
      assert [d][1..] == [];
      if d.status == "downloading" {
        var msg := "Downloading: " + d.percent.GetOr("N/A") + " at " + d.speed.GetOr("N/A")
                   + " ETA: " + d.eta.GetOr("N/A") + "\n";
        AppendOutput(msg);
      } else if d.status == "finished" {
        AppendOutput("Download finished, now processing...\n");
      }
    }

    /** The three banner lines every job starts with. */
    method ShowBanner(url: string)
      modifies this
      ensures events == old(events) + Inserts(Banner(variant, url, cwd))
      ensures buttonEnabled == old(buttonEnabled) && buttonCaption == old(buttonCaption)
    {
      AppendOutput(StartText(variant) + url + "\n");
      AppendOutput("Download directory: " + cwd + "\n");
      AppendOutput(Repeat('-', 80) + "\n");
    }

    /** The closing lines and the one message box of a job. */
    method ReportOutcome(o: Outcome)
      modifies this
      ensures events == old(events) + Ending(variant, o)
      ensures buttonEnabled == old(buttonEnabled) && buttonCaption == old(buttonCaption)
    {
      ghost var lines := EndingLines(variant, o);
      match o {
        case Succeeded =>
          AppendOutput("\n" + Repeat('=', 80) + "\n");
          AppendOutput(SuccessText(variant) + "\n");
          AppendOutput(Repeat('=', 80) + "\n");
          assert events == old(events) + [Insert(lines[0]), Insert(lines[1]), Insert(lines[2])];
          ShowNotice(Notice(Info, "Success", SuccessText(variant)));
        case ExitedWith(code) =>
          AppendOutput("\nDownload failed with error code: " + IntToString(code) + "\n");
          ShowNotice(Notice(Error, "Error", "Download failed with error code: " + IntToString(code)));
        case Failed(message) =>
          var errorMsg := ErrorPrefix(variant) + message;
          AppendOutput("\n" + errorMsg + "\n");
          ShowNotice(Notice(Error, "Download Error", errorMsg));
      }
    }

    /** The `readline` loop: each line goes to the widget (a non-empty line is always
        truthy) until end of file or an exception. Returns the exception's message, if the
        loop ended with one. */
    method ForwardOutput(results: seq<ReadResult>) returns (raised: Option<string>)
      modifies this
      ensures events == old(events) + Inserts(ReadStream(results).lines)
      ensures raised.Some? <==> ReadStream(results).StreamRaised?
      ensures raised.Some? ==> raised.value == ReadStream(results).message
      ensures buttonEnabled == old(buttonEnabled) && buttonCaption == old(buttonCaption)
    {
      var i := 0;
      raised := None;
      ghost var lines: seq<string> := [];
      while i < |results|
        invariant i <= |results| && |lines| == i
        invariant forall j :: 0 <= j < i ==> results[j] == Line(lines[j]) && !Stops(results[j])
        invariant events == old(events) + Inserts(lines)
        invariant raised == None
        invariant buttonEnabled == old(buttonEnabled) && buttonCaption == old(buttonCaption)
      {
        var r := results[i];
        if r.ReadRaised? {
          raised := Some(r.message);
          break;
        }
        if r.text == "" {
          break;
        }
        AppendOutput(r.text);
        InsertsAppend(lines, [r.text]);
        lines := lines + [r.text];
        i := i + 1;
      }
      StopIndexAt(results, i);
      ReadStreamForwardsPrefix(results);
      assert lines == ReadStream(results).lines;
    }

    /** `download_video` of the subprocess variant: the banner, then the output of the
        process line by line until `readline` returns the empty string, then the outcome
        by return code; a failure to start or to read takes the exception path. Returns the
        argument vector handed to `subprocess.Popen`. */
    method DownloadWithSubprocess(url: string, process: Process) returns (command: seq<string>)
      requires variant.LocalExe?
      modifies this
      ensures command == DownloadCommand(variant.toolPath, url)
      ensures events == old(events) + JobEvents(variant, url, cwd, ProcessRun(process))
      ensures buttonEnabled == old(buttonEnabled) && buttonCaption == old(buttonCaption)
    {
      command := DownloadCommand(variant.toolPath, url);
      ShowBanner(url);
      ghost var afterBanner := events;
      var outcome: Outcome;
      match process {
        case SpawnFailed(message) =>
          outcome := Failed(message);
        case Spawned(results, code) =>
          var raised := ForwardOutput(results);
          outcome := if raised.Some? then Failed(raised.value) else if code == 0 then Succeeded else ExitedWith(code);
      }
      ghost var afterOutput := events;
      assert afterOutput == afterBanner + Inserts(ReportedLines(ProcessRun(process)));
      assert outcome == RunOutcome(ProcessRun(process));
      ReportOutcome(outcome);
      AppendJob(old(events), variant, url, cwd, ProcessRun(process));
    }

    /** The hook calls yt-dlp makes while it runs, in order. */
    method RunHooks(hooks: seq<HookStatus>)
      modifies this
      ensures events == old(events) + Inserts(ProgressLines(hooks))
      ensures buttonEnabled == old(buttonEnabled) && buttonCaption == old(buttonCaption)
    {
      for i := 0 to |hooks|
        invariant events == old(events) + Inserts(ProgressLines(hooks[..i]))
        invariant buttonEnabled == old(buttonEnabled) && buttonCaption == old(buttonCaption)
      {
        ProgressHook(hooks[i]);
        assert hooks[..i + 1] == hooks[..i] + [hooks[i]];
        ProgressLinesAppend(hooks[..i], [hooks[i]]);
        InsertsAppend(ProgressLines(hooks[..i]), ProgressLines([hooks[i]]));
      }
      assert hooks[..|hooks|] == hooks;
    }

    /** `download_video` / `download_audio` of the library variants: the banner, one hook
        call per record yt-dlp reports, then success if `extract_info` returned an info
        dictionary and the exception path otherwise. Returns the `ydl_opts` record. */
    method DownloadWithLibrary(url: string, run: LibraryRun) returns (opts: YdlOptions)
      requires !variant.LocalExe?
      modifies this
      ensures opts == Options(ModeOf(variant))
      ensures events == old(events) + JobEvents(variant, url, cwd, Library(run))
      ensures buttonEnabled == old(buttonEnabled) && buttonCaption == old(buttonCaption)
    {
      opts := Options(ModeOf(variant));
      ShowBanner(url);
      ghost var afterBanner := events;
      RunHooks(run.hooks);
      ghost var afterHooks := events;
      var outcome := match run.result
        case InfoReturned => Succeeded
        case NoneReturned => Failed(NoneGetMessage)
        case ExtractRaised(message) => Failed(message);
      assert outcome == RunOutcome(Library(run));
      ReportOutcome(outcome);
      AppendJob(old(events), variant, url, cwd, Library(run));
    }

    /** `download_and_enable_button`: the job, then the button back to its resting state in
        the `finally` clause. A job function that raised before its `try` has shown nothing;
        its exception passes through the `finally` and ends the thread, and is returned here. */
    method DownloadAndEnableButton(url: string, attempt: Attempt) returns (escaped: Option<string>)
      requires AttemptFits(variant, attempt)
      modifies this
      ensures events == old(events) + AttemptEvents(variant, url, cwd, attempt) + [Configure(true, IdleCaption(variant))]
      ensures escaped == if attempt.RaisedBeforeTry? then Some(attempt.message) else None
      ensures Idle()
    {
      match attempt {
        case RaisedBeforeTry(message) =>
          escaped := Some(message);
        case ReachedTry(run) =>
          if variant.LocalExe? {
            var _ := DownloadWithSubprocess(url, run.process);
          } else {
            var _ := DownloadWithLibrary(url, run.run);
          }
          escaped := None;
      }
      ConfigureButton(true, IdleCaption(variant));
    }

    /** `start_download_thread`, with the thread body run to completion: a blank entry
        shows the warning and leaves the button as it was; any other entry disables the
        button, runs the job on the stripped URL, and leaves the window idle again. An
        exception that ends the thread is not seen here. */
    method StartDownloadThread(entry: string, attempt: Attempt)
      requires AttemptFits(variant, attempt)
      modifies this
      ensures events == old(events) + SubmitEvents(variant, entry, cwd, attempt)
      ensures IsBlank(entry) ==> buttonEnabled == old(buttonEnabled) && buttonCaption == old(buttonCaption)
      ensures !IsBlank(entry) ==> Idle()
    {
      var videoUrl := Strip(entry);
      StripEmptyIffBlank(entry);
      if videoUrl == [] {
        ShowNotice(NoUrlNotice);
        SubmitBlank(variant, entry, cwd, attempt);
        return;
      }
      ConfigureButton(false, BusyCaption(variant));
      ghost var mid := events;
      var _ := DownloadAndEnableButton(videoUrl, attempt);
      assert events == mid + AttemptEvents(variant, videoUrl, cwd, attempt) + [Configure(true, IdleCaption(variant))];
      assert mid == old(events) + [Configure(false, BusyCaption(variant))];
      SubmitNonBlank(variant, entry, cwd, attempt);
      Regroup(old(events), [Configure(false, BusyCaption(variant))], AttemptEvents(variant, videoUrl, cwd, attempt),
              [Configure(true, IdleCaption(variant))]);
    }
  }
}
