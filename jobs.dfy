/** What one download job does to the window, as a sequence of UI events: the start
    banner, the lines the downloader reports while it runs, and how the job ends (an
    outcome line and exactly one message box). It also covers the button handler around
    the job. The downloader is an oracle: for the subprocess variant, the results of
    successive `readline` calls and the exit code; for the library variants, the hook
    records and how `extract_info` ended. */
module Jobs {
  import opened Wrappers
  import opened Text
  import opened Ui
  import opened Progress
  import opened Invocation

  /** The three programs: the subprocess wrapper, which knows the path of its tool, and the
      two wrappers around the yt-dlp library. */
  datatype Variant = LocalExe(toolPath: string) | LibVideo | LibAudio

  function StartText(v: Variant): string {
    if v.LibAudio? then "Starting MP3 extraction for: " else "Starting download for: "
  }

  function SuccessText(v: Variant): string {
    if v.LibAudio? then "MP3 extraction completed successfully!" else "Download completed successfully!"
  }

  function ErrorPrefix(v: Variant): string {
    if v.LibAudio? then "Error during MP3 extraction: " else "Error during download: "
  }

  /** The button caption while a job runs, and at rest. */
  function BusyCaption(v: Variant): string {
    if v.LibAudio? then "Extracting Audio..." else "Downloading..."
  }

  function IdleCaption(v: Variant): string {
    if v.LibAudio? then "Extract MP3" else "Download Video"
  }

  function ModeOf(v: Variant): LibraryMode {
    if v.LibAudio? then AudioMode else VideoMode
  }

  /** The three lines inserted before the downloader starts. */
  function Banner(v: Variant, url: string, cwd: string): (r: seq<string>)
    ensures |r| == 3 && |r[2]| == 81
  {
    [StartText(v) + url + "\n", "Download directory: " + cwd + "\n", Repeat('-', 80) + "\n"]
  }

  // ---------------------------------------------------------------------------------------
  // The subprocess output stream.

  /** One `process.stdout.readline()` call: a line (the empty string at end of file), or an
      exception. */
  datatype ReadResult = Line(text: string) | ReadRaised(message: string)

  /** A read that ends `for line in iter(process.stdout.readline, '')`. */
  predicate Stops(r: ReadResult) {
    r.ReadRaised? || r.text == ""
  }

  /** The lines forwarded to the widget, and whether the loop ended at end of file or with an
      exception. Running out of given results counts as end of file. */
  datatype Stream = StreamEnded(lines: seq<string>) | StreamRaised(lines: seq<string>, message: string)

  /** The read loop: every result before the first stopping read is forwarded, and nothing
      after it. */
  function ReadStream(results: seq<ReadResult>): (r: Stream)
    ensures |r.lines| <= |results|
    ensures forall i :: 0 <= i < |r.lines| ==> results[i] == Line(r.lines[i]) && r.lines[i] != ""
    ensures |r.lines| < |results| ==> Stops(results[|r.lines|])
    ensures r.StreamRaised? <==> |r.lines| < |results| && results[|r.lines|].ReadRaised?
    ensures r.StreamRaised? ==> r.message == results[|r.lines|].message
  {
    if results == [] then StreamEnded([])
    else
      match results[0]
      case ReadRaised(m) => StreamRaised([], m)
      case Line(t) =>
        if t == "" then StreamEnded([])
        else
          var rest := ReadStream(results[1..]);
          rest.(lines := [t] + rest.lines)
  }

  /** The position of the first stopping read, or the number of results when none stops. */
  function StopIndex(results: seq<ReadResult>): (k: nat)
    ensures k <= |results|
    ensures forall i :: 0 <= i < k ==> !Stops(results[i])
    ensures k < |results| ==> Stops(results[k])
  {
    if results == [] || Stops(results[0]) then 0 else StopIndex(results[1..]) + 1
  }

  /** The widget receives exactly the results before the first stop, in arrival order. */
  lemma {:induction false} ReadStreamForwardsPrefix(results: seq<ReadResult>)
    ensures |ReadStream(results).lines| == StopIndex(results)
    ensures forall i :: 0 <= i < StopIndex(results) ==> results[i] == Line(ReadStream(results).lines[i])
  {
    if results != [] && !Stops(results[0]) {
      ReadStreamForwardsPrefix(results[1..]);
    }
  }

  /** The first stopping read is the one the loop stopped at. */
  lemma StopIndexAt(results: seq<ReadResult>, i: nat)
    requires i <= |results|
    requires forall j :: 0 <= j < i ==> !Stops(results[j])
    requires i < |results| ==> Stops(results[i])
    ensures StopIndex(results) == i
  {
  }

  /** What `subprocess.Popen(command, ...)` did: it raised, or it started a process whose
      output results and final `returncode` are given. */
  datatype Process = SpawnFailed(message: string) | Spawned(results: seq<ReadResult>, returnCode: int)

  // ---------------------------------------------------------------------------------------
  // The library call.

  /** How `ydl.extract_info(video_url, download=True)` and the `with` block around it ended:
      with an info dictionary, with `None` (so that `info.get` raises), or by raising. */
  datatype ExtractResult = InfoReturned | NoneReturned | ExtractRaised(message: string)

  const NoneGetMessage := "'NoneType' object has no attribute 'get'"

  /** The hook records yt-dlp passed while it ran, then how it ended. */
  datatype LibraryRun = LibraryRun(hooks: seq<HookStatus>, result: ExtractResult)

  /** The downloader behind one job. */
  datatype Run = ProcessRun(process: Process) | Library(run: LibraryRun)

  /** The subprocess wrapper runs processes, the library wrappers call the library. */
  predicate RunFits(v: Variant, run: Run) {
    v.LocalExe? <==> run.ProcessRun?
  }

  /** How one call of `download_video` / `download_audio` goes. Its first statements (the
      diagnostic `print`s, `os.getcwd()`, and in the subprocess variant the `print` of the
      joined command) stand before its `try`: when one of them raises, the exception leaves
      the function before anything is shown. Otherwise the function reaches its `try` and the
      downloader runs. */
  datatype Attempt = RaisedBeforeTry(message: string) | ReachedTry(run: Run)

  predicate AttemptFits(v: Variant, a: Attempt) {
    a.ReachedTry? ==> RunFits(v, a.run)
  }

  // ---------------------------------------------------------------------------------------
  // How a job ends.

  datatype Outcome = Succeeded | ExitedWith(code: int) | Failed(message: string)

  /** The lines and the one message box of each ending. The exception message always comes
      after the variant's prefix. */
  function EndingLines(v: Variant, o: Outcome): (r: seq<string>)
    ensures |r| == if o.Succeeded? then 3 else 1
  {
    match o
    case Succeeded =>
      ["\n" + Repeat('=', 80) + "\n", SuccessText(v) + "\n", Repeat('=', 80) + "\n"]
    case ExitedWith(code) =>
      ["\nDownload failed with error code: " + IntToString(code) + "\n"]
    case Failed(message) =>
      ["\n" + (ErrorPrefix(v) + message) + "\n"]
  }

  function EndingNotice(v: Variant, o: Outcome): (n: Notice)
    ensures n.severity == Info <==> o.Succeeded?
    ensures o.Failed? ==> n.title == "Download Error" && n.message == ErrorPrefix(v) + o.message
    ensures o.ExitedWith? ==> n.title == "Error"
  {
    match o
    case Succeeded => Notice(Info, "Success", SuccessText(v))
    case ExitedWith(code) => Notice(Error, "Error", "Download failed with error code: " + IntToString(code))
    case Failed(message) => Notice(Error, "Download Error", ErrorPrefix(v) + message)
  }

  function Ending(v: Variant, o: Outcome): seq<UiEvent> {
    Inserts(EndingLines(v, o)) + [Dialog(EndingNotice(v, o))]
  }

  /** The outcome of a subprocess job once the process has started (`process.wait()` is
      taken to return). */
  function ProcessOutcome(stream: Stream, returnCode: int): (o: Outcome)
    ensures o.Failed? <==> stream.StreamRaised?
    ensures o.Succeeded? <==> stream.StreamEnded? && returnCode == 0
    ensures o.ExitedWith? ==> o.code == returnCode && returnCode != 0
  {
    match stream
    case StreamRaised(_, m) => Failed(m)
    case StreamEnded(_) => if returnCode == 0 then Succeeded else ExitedWith(returnCode)
  }

  function LibraryOutcome(result: ExtractResult): (o: Outcome)
    ensures o.Succeeded? <==> result.InfoReturned?
    ensures !o.ExitedWith?
    ensures result.ExtractRaised? ==> o == Failed(result.message)
  {
    match result
    case InfoReturned => Succeeded
    case NoneReturned => Failed(NoneGetMessage)
    case ExtractRaised(m) => Failed(m)
  }

  /** The lines a running downloader reports, and how the job ends. */
  function ReportedLines(run: Run): seq<string> {
    match run
    case ProcessRun(SpawnFailed(_)) => []
    case ProcessRun(Spawned(results, _)) => ReadStream(results).lines
    case Library(LibraryRun(hooks, _)) => ProgressLines(hooks)
  }

  function RunOutcome(run: Run): Outcome {
    match run
    case ProcessRun(SpawnFailed(m)) => Failed(m)
    case ProcessRun(Spawned(results, code)) => ProcessOutcome(ReadStream(results), code)
    case Library(LibraryRun(_, result)) => LibraryOutcome(result)
  }

  /** `download_video` / `download_audio` as a sequence of events, from its `try` on. */
  function JobEvents(v: Variant, url: string, cwd: string, run: Run): seq<UiEvent> {
    Inserts(Banner(v, url, cwd)) + Inserts(ReportedLines(run)) + Ending(v, RunOutcome(run))
  }

  /** The job's events appended to a log, one part after the other. */
  lemma AppendJob(log: seq<UiEvent>, v: Variant, url: string, cwd: string, run: Run)
    ensures log + Inserts(Banner(v, url, cwd)) + Inserts(ReportedLines(run)) + Ending(v, RunOutcome(run))
            == log + JobEvents(v, url, cwd, run)
  {
    Regroup(log, Inserts(Banner(v, url, cwd)), Inserts(ReportedLines(run)), Ending(v, RunOutcome(run)));
  }

  /** How a job ends, read off the oracle directly: success is a subprocess that read to end
      of file and exited 0, or a library call that returned an info dictionary. */
  predicate JobSucceeded(run: Run) {
    match run
    case ProcessRun(SpawnFailed(_)) => false
    case ProcessRun(Spawned(results, code)) =>
      code == 0 && (StopIndex(results) < |results| ==> !results[StopIndex(results)].ReadRaised?)
    case Library(LibraryRun(_, result)) => result.InfoReturned?
  }

  lemma OutcomeSucceededIff(run: Run)
    ensures RunOutcome(run).Succeeded? <==> JobSucceeded(run)
  {
    if run.ProcessRun? && run.process.Spawned? {
      ReadStreamForwardsPrefix(run.process.results);
    }
  }

  /** Exactly one message box per job that reaches its `try`: an info box when the job
      succeeded and an error box otherwise. The button is not touched by the job itself. */
  lemma {:induction false} ExactlyOneNotice(v: Variant, url: string, cwd: string, run: Run)
    ensures |Dialogs(JobEvents(v, url, cwd, run))| == 1
    ensures Dialogs(JobEvents(v, url, cwd, run))[0].severity == Info <==> JobSucceeded(run)
    ensures ButtonChanges(JobEvents(v, url, cwd, run)) == []
  {
    var o := RunOutcome(run);
    JobPieces(v, url, cwd, run);
    OutcomeSucceededIff(run);
  }

  lemma JobPieces(v: Variant, url: string, cwd: string, run: Run)
    ensures Dialogs(JobEvents(v, url, cwd, run)) == [EndingNotice(v, RunOutcome(run))]
    ensures ButtonChanges(JobEvents(v, url, cwd, run)) == []
    ensures Output(JobEvents(v, url, cwd, run)) == Banner(v, url, cwd) + ReportedLines(run) + EndingLines(v, RunOutcome(run))
  {
    JobOutput(v, url, cwd, run);
    JobDialogs(v, url, cwd, run);
  }

  lemma JobOutput(v: Variant, url: string, cwd: string, run: Run)
    ensures Output(JobEvents(v, url, cwd, run)) == Banner(v, url, cwd) + ReportedLines(run) + EndingLines(v, RunOutcome(run))
  {
    var o := RunOutcome(run);
    InsertsThenNotice(Banner(v, url, cwd), ReportedLines(run), EndingLines(v, o), EndingNotice(v, o));
  }

  /** The pane's view of three runs of inserts and one box. */
  lemma {:induction false} InsertsThenNotice(a: seq<string>, b: seq<string>, c: seq<string>, n: Notice)
    ensures Output(Inserts(a) + Inserts(b) + (Inserts(c) + [Dialog(n)])) == a + b + c
  {
    var d := [Dialog(n)];
    InsertsShow(a);
    InsertsShow(b);
    InsertsShow(c);
    OutputOnlyAppend(Inserts(a), Inserts(b));
    OutputOnlyAppend(Inserts(c), d);
    OutputOnlyAppend(Inserts(a) + Inserts(b), Inserts(c) + d);
    assert Output(d) == [];
  }

  lemma {:induction false} JobDialogs(v: Variant, url: string, cwd: string, run: Run)
    ensures Dialogs(JobEvents(v, url, cwd, run)) == [EndingNotice(v, RunOutcome(run))]
    ensures ButtonChanges(JobEvents(v, url, cwd, run)) == []
  {
    var o := RunOutcome(run);
    var d := [Dialog(EndingNotice(v, o))];
    var front := Inserts(Banner(v, url, cwd)) + Inserts(ReportedLines(run));
    InsertsShow(Banner(v, url, cwd));
    InsertsShow(ReportedLines(run));
    InsertsShow(EndingLines(v, o));
    DialogsAppend(Inserts(Banner(v, url, cwd)), Inserts(ReportedLines(run)));
    DialogsAppend(Inserts(EndingLines(v, o)), d);
    DialogsAppend(front, Ending(v, o));
    ButtonChangesAppend(Inserts(Banner(v, url, cwd)), Inserts(ReportedLines(run)));
    ButtonChangesAppend(Inserts(EndingLines(v, o)), d);
    ButtonChangesAppend(front, Ending(v, o));
    assert Dialogs(d) == [EndingNotice(v, o)] && ButtonChanges(d) == [];
  }

  /** The widget shows the banner, then exactly the forwarded output lines before the first
      end-of-file or failed read, then the outcome lines. */
  lemma SubprocessOutputOrder(toolPath: string, url: string, cwd: string, results: seq<ReadResult>, code: int)
    ensures var out := Output(JobEvents(LocalExe(toolPath), url, cwd, ProcessRun(Spawned(results, code))));
            var k := StopIndex(results);
            && |out| >= 3 + k
            && out[..3] == Banner(LocalExe(toolPath), url, cwd)
            && (forall i :: 0 <= i < k ==> Line(out[3 + i]) == results[i])
            && out[3 + k..] == EndingLines(LocalExe(toolPath), ProcessOutcome(ReadStream(results), code))
  {
    var v := LocalExe(toolPath);
    var run := ProcessRun(Spawned(results, code));
    var b, lines, e := Banner(v, url, cwd), ReadStream(results).lines, EndingLines(v, RunOutcome(run));
    JobOutput(v, url, cwd, run);
    assert Output(JobEvents(v, url, cwd, run)) == b + lines + e;
    ReadStreamForwardsPrefix(results);
    ThreeParts(b, lines, e);
  }

  lemma Regroup<T>(a: seq<T>, b: seq<T>, c: seq<T>, d: seq<T>)
    ensures a + b + c + d == a + (b + c + d)
  {
  }

  lemma ThreeParts<T>(a: seq<T>, b: seq<T>, c: seq<T>)
    ensures var s := a + b + c;
            && s[..|a|] == a
            && (forall i :: 0 <= i < |b| ==> s[|a| + i] == b[i])
            && s[|a| + |b|..] == c
  {
  }

  /** A process that stops reading at end of file (reads after the stop never happen) and
      fails with code `c` reports that very code in its last line and its
      error box. */
  lemma ExitCodeReported(toolPath: string, url: string, cwd: string, results: seq<ReadResult>, code: int)
    requires code != 0
    requires StopIndex(results) < |results| ==> !results[StopIndex(results)].ReadRaised?
    ensures var run := ProcessRun(Spawned(results, code));
            && RunOutcome(run) == ExitedWith(code)
            && Dialogs(JobEvents(LocalExe(toolPath), url, cwd, run))
               == [Notice(Error, "Error", "Download failed with error code: " + IntToString(code))]
            && var out := Output(JobEvents(LocalExe(toolPath), url, cwd, run));
               |out| > 0 && out[|out| - 1] == "\nDownload failed with error code: " + IntToString(code) + "\n"
  {
    ReadStreamForwardsPrefix(results);
    JobPieces(LocalExe(toolPath), url, cwd, ProcessRun(Spawned(results, code)));
  }

  /** Two output lines, then end of file, then exit code 0: both lines reach the widget in
      order between the banner and the success lines, and the one box is the success box. */
  lemma SubprocessScenario(toolPath: string, url: string, cwd: string, l1: string, l2: string)
    requires l1 != "" && l2 != ""
    ensures var job := JobEvents(LocalExe(toolPath), url, cwd, ProcessRun(Spawned([Line(l1), Line(l2), Line("")], 0)));
            && Output(job) == Banner(LocalExe(toolPath), url, cwd) + [l1, l2] + EndingLines(LocalExe(toolPath), Succeeded)
            && Dialogs(job) == [Notice(Info, "Success", "Download completed successfully!")]
  {
    var results := [Line(l1), Line(l2), Line("")];
    assert results[1..] == [Line(l2), Line("")];
    assert results[1..][1..] == [Line("")];
    assert ReadStream(results[1..][1..]) == StreamEnded([]);
    assert ReadStream(results[1..]) == StreamEnded([l2]);
    assert ReadStream(results) == StreamEnded([l1, l2]);
    JobPieces(LocalExe(toolPath), url, cwd, ProcessRun(Spawned(results, 0)));
  }

  /** A library exception shows one `Download Error` box whose text is the variant's prefix
      followed by the exception's message. */
  lemma LibraryErrorPrefixed(v: Variant, url: string, cwd: string, hooks: seq<HookStatus>, message: string)
    ensures Dialogs(JobEvents(v, url, cwd, Library(LibraryRun(hooks, ExtractRaised(message)))))
            == [Notice(Error, "Download Error", ErrorPrefix(v) + message)]
    ensures v.LibAudio? ==> ErrorPrefix(v) == "Error during MP3 extraction: "
    ensures v.LibVideo? ==> ErrorPrefix(v) == "Error during download: "
  {
    JobPieces(v, url, cwd, Library(LibraryRun(hooks, ExtractRaised(message))));
  }

  // ---------------------------------------------------------------------------------------
  // The button handler.

  const NoUrlNotice := Notice(Warning, "No URL", "Please enter a video URL")

  /** The events of one call of the job function: none when it raised before its `try`,
      the job's events otherwise. */
  function AttemptEvents(v: Variant, url: string, cwd: string, a: Attempt): seq<UiEvent> {
    match a
    case RaisedBeforeTry(_) => []
    case ReachedTry(run) => JobEvents(v, url, cwd, run)
  }

  /** `start_download_thread` followed by the thread body `download_and_enable_button`, run
      to completion: a blank entry gives one warning; any other entry disables the button,
      runs the job on the stripped URL, and re-enables the button in the `finally` clause
      whatever the job did, also when the job function raised. */
  function SubmitEvents(v: Variant, entry: string, cwd: string, a: Attempt): (ev: seq<UiEvent>)
    ensures |ev| >= 1
    ensures IsBlank(entry) ==> ev == [Dialog(NoUrlNotice)]
    ensures !IsBlank(entry) ==> ev[|ev| - 1] == Configure(true, IdleCaption(v))
  {
    var url := Strip(entry);
    StripEmptyIffBlank(entry);
    if url == [] then [Dialog(NoUrlNotice)]
    else [Configure(false, BusyCaption(v))] + AttemptEvents(v, url, cwd, a) + [Configure(true, IdleCaption(v))]
  }

  /** A blank or whitespace-only entry shows the warning and nothing else: no output, no
      change to the button, no job. */
  lemma BlankEntryOnlyWarns(v: Variant, entry: string, cwd: string, a: Attempt)
    ensures IsBlank(entry) <==> SubmitEvents(v, entry, cwd, a) == [Dialog(NoUrlNotice)]
  {
    StripEmptyIffBlank(entry);
  }

  /** Any other entry: the button is disabled first and re-enabled last, the job's events
      lie in between, the job ran on the stripped entry, and exactly one message box is
      shown unless the job function raised before its `try`, in which case none is. */
  lemma NonBlankEntryBracketsJob(v: Variant, entry: string, cwd: string, a: Attempt)
    requires !IsBlank(entry)
    ensures var ev := SubmitEvents(v, entry, cwd, a);
            && |ev| >= 2
            && ev[0] == Configure(false, BusyCaption(v))
            && ev[|ev| - 1] == Configure(true, IdleCaption(v))
            && ev[1..|ev| - 1] == AttemptEvents(v, Strip(entry), cwd, a)
            && ButtonChanges(ev) == [Configure(false, BusyCaption(v)), Configure(true, IdleCaption(v))]
            && |Dialogs(ev)| == (if a.ReachedTry? then 1 else 0)
  {
    SubmitNonBlank(v, entry, cwd, a);
    var job := AttemptEvents(v, Strip(entry), cwd, a);
    if a.ReachedTry? {
      JobPieces(v, Strip(entry), cwd, a.run);
    }
    Bracketed(Configure(false, BusyCaption(v)), job, Configure(true, IdleCaption(v)));
  }

  /** A job function that raises before its `try` shows nothing at all: the only effects of
      the submission are the two button changes, and the button ends enabled. */
  lemma RaisedJobStillReenables(v: Variant, entry: string, cwd: string, message: string)
    requires !IsBlank(entry)
    ensures var ev := SubmitEvents(v, entry, cwd, RaisedBeforeTry(message));
            && ev == [Configure(false, BusyCaption(v)), Configure(true, IdleCaption(v))]
            && Output(ev) == [] && Dialogs(ev) == []
  {
    SubmitNonBlank(v, entry, cwd, RaisedBeforeTry(message));
    var ev := SubmitEvents(v, entry, cwd, RaisedBeforeTry(message));
    assert ev == [Configure(false, BusyCaption(v))] + [Configure(true, IdleCaption(v))];
    OutputAppend([Configure(false, BusyCaption(v))], [Configure(true, IdleCaption(v))]);
  }

  lemma SubmitBlank(v: Variant, entry: string, cwd: string, a: Attempt)
    requires Strip(entry) == []
    ensures SubmitEvents(v, entry, cwd, a) == [Dialog(NoUrlNotice)]
  {
  }

  lemma SubmitNonBlank(v: Variant, entry: string, cwd: string, a: Attempt)
    requires !IsBlank(entry)
    ensures SubmitEvents(v, entry, cwd, a)
            == [Configure(false, BusyCaption(v))] + AttemptEvents(v, Strip(entry), cwd, a) + [Configure(true, IdleCaption(v))]
  {
    StripEmptyIffBlank(entry);
  }

  lemma Bracketed(first: UiEvent, job: seq<UiEvent>, last: UiEvent)
    requires first.Configure? && last.Configure?
    ensures var ev := [first] + job + [last];
            && ev[0] == first && ev[|ev| - 1] == last && ev[1..|ev| - 1] == job
            && ButtonChanges(ev) == [first] + ButtonChanges(job) + [last]
            && Dialogs(ev) == Dialogs(job)
  {
    OutputAppend([first], job);
    OutputAppend([first] + job, [last]);
    var ev := [first] + job + [last];
    assert ev[1..|ev| - 1] == job;
  }

  /** Under the button captions of each program. */
  lemma Captions()
    ensures BusyCaption(LocalExe("")) == BusyCaption(LibVideo) == "Downloading..."
    ensures IdleCaption(LocalExe("")) == IdleCaption(LibVideo) == "Download Video"
    ensures BusyCaption(LibAudio) == "Extracting Audio..." && IdleCaption(LibAudio) == "Extract MP3"
  {
  }
}
