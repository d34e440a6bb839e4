# Web_Video_Downloader: the download orchestration, in Dafny

Web_Video_Downloader is three near-identical Windows desktop wrappers around yt-dlp. The first
runs a local `yt-dlp.exe` as a subprocess and saves an MP4 with English subtitles. The second
calls the yt-dlp library and saves an MP4 the same way. The third calls the library and
extracts an MP3. Each program does the following:

1. checks for administrator rights and relaunches itself elevated when it lacks them;
2. in the subprocess variant, looks for the tool;
3. opens a window with a URL field, a button and an output pane;
4. on a click, strips the URL, runs the download on a thread, streams its progress into the
   pane, ends with exactly one message box, and re-enables the button.

This project models that decision layer. The window, the operating system and yt-dlp are
replaced by values:

- The output pane and the message boxes form an event log.
- The filesystem is a set of existing paths plus a walk order.
- A subprocess is the sequence of results its `readline` calls give, plus an exit code.
- A library call is the list of progress records it reports, plus how it ended.
- The two shell32 calls are oracle results.

Modules, leaf first:

- `Wrappers`: `Option`.
- `Text`: Python's `strip()`, ASCII `lower()`, `"-" * 80`, and `str()` of an `int`, each with
  its characterising lemmas.
- `Ui`: the event log (`Insert`, `Dialog`, `Configure`) and its projections: the pane's lines,
  the message boxes and the button changes.
- `Elevation`: `is_admin`, the parameter string of `elevate_privileges`, and its exit-code rule.
- `Locator`: `find_ytdlp_exe`, as a method with the source's loops, proved against the
  function `Locate`.
- `Invocation`: the argument vector of the subprocess variant, a reference reading of that
  vector, and the `ydl_opts` records of the library variants.
- `Progress`: the `progress_hook` line choice.
- `Jobs`: one job as a sequence of events. This covers the banner, the forwarded output, the
  outcome lines and the single message box. It also covers the button handler around the job.
- `Host`: the class `DownloaderWindow`. It holds the event log and the button state, and its
  methods mirror `progress_hook`, `download_video`/`download_audio`, `download_and_enable_button`
  and `start_download_thread`. Each method is proved to append exactly the events the `Jobs`
  functions describe.
- `Startup`: what `main` decides before the window opens.

Behaviour worth noting:

- **A failed admin query.** It is not a fatal elevation error. `is_admin` returns False, and
  the program tries to elevate (`Startup.FailedQueryElevates`).
- **Library availability.** The library variants import `yt_dlp` at the top of the file, so a
  missing library stops the program with an import error before `main` runs. Inside `main`,
  the version printout is wrapped in a `try` and cannot stop the program.
- **Exceptions during a job.** An exception inside the `try` of `download_video` /
  `download_audio` is caught there and shown in one error box. The statements before that
  `try` (the diagnostic prints, `os.getcwd()`, and in the subprocess variant the print of the
  joined command) are not guarded. An exception there leaves the job function before anything
  is shown. The `finally` of `download_and_enable_button` still re-enables the button, and
  the exception then ends the thread (`Jobs.RaisedJobStillReenables`).
- **The success box.** Its text is fixed. It does not report the video title.
- **Audio subtitle languages.** They are `['en.*']`.

## Model

| member | source | states |
|---|---|---|
| Elevation.IsAdmin | YT-DLP_HQ_Video_w_Subtitle_EN_local.py:33-41 | a query that raised counts as not elevated; otherwise the truth value of the status (the two library variants repeat these lines unchanged) |
| Elevation.ShellParameters | YT-DLP_HQ_Video_w_Subtitle_EN_local.py:47-57 | the parameter string is the script path between double quotes, one space, then the quoted arguments; with no arguments it ends in that space |
| Elevation.ElevationParams | YT-DLP_HQ_Video_w_Subtitle_EN_local.py:50 | the joined arguments are empty exactly when `sys.argv` has nothing after the program name |
| Elevation.ElevationParamsRoundTrip | YT-DLP_HQ_Video_w_Subtitle_EN_local.py:50 | for arguments free of double quotes, a reader of the plain `"a" "b"` shape splits the joined string back into exactly `argv[1:]`, in order |
| Elevation.ElevatedCommandLine | YT-DLP_HQ_Video_w_Subtitle_EN_local.py:47-57 | read by the same plain reader, which skips trailing spaces as the Windows parser does, the string handed to ShellExecuteW is the script path followed by `argv[1:]`, for every `argv` whose script path and arguments hold no double quote, including the usual launch with no arguments |
| Elevation.QuotingIsAmbiguous | YT-DLP_HQ_Video_w_Subtitle_EN_local.py:50 | without escaping, two different argument lists give the same parameter string |
| Elevation.IndexOfQuote | YT-DLP_HQ_Video_w_Subtitle_EN_local.py:50 | the first double quote of a string, or none |
| Elevation.ElevationFailedNotice | YT-DLP_HQ_Video_w_Subtitle_EN_local.py:69 | the "Elevation Failed" error box, naming the return code of ShellExecuteW |
| Elevation.ElevationErrorNotice | YT-DLP_HQ_Video_w_Subtitle_EN_local.py:74 | the "Elevation Error" error box, naming the exception |
| Elevation.Elevate | YT-DLP_HQ_Video_w_Subtitle_EN_local.py:53-75 | exit code 0 exactly when ShellExecuteW returned more than 32, and then no box; otherwise exit 1 after one error box, "Elevation Failed" naming the code or "Elevation Error" naming the exception (the same in all three variants) |
| Elevation.FailureCodeIsReported | YT-DLP_HQ_Video_w_Subtitle_EN_local.py:68-69 | different failure codes give different error boxes: `str()` of an int loses nothing |
| Text.Repeat | YT-DLP_HQ_Video_w_Subtitle_EN_local.py:151 | `"-" * 80` (and `"=" * 80` at lines 177 and 179): exactly `n` copies of the character |
| Text.IntToString | YT-DLP_HQ_Video_w_Subtitle_EN_local.py:184-186 | `str()` of the return code in the f-strings (and of the ShellExecuteW result at line 69): non-empty, starting with `-` exactly for a negative number; read back by `IntToStringRoundTrip` |
| Text.Strip | YT-DLP_HQ_Video_w_Subtitle_EN_local.py:197 | `strip()` keeps an infix that neither starts nor ends with whitespace, and everything cut off is whitespace |
| Text.StripEmptyIffBlank | YT-DLP_HQ_Video_w_Subtitle_EN_local.py:197-199 | the stripped URL is empty exactly when the entry is empty or whitespace only |
| Text.StripIdempotent | YT-DLP_HQ_Video_w_Subtitle_EN_local.py:197 | stripping an already stripped URL changes nothing |
| Text.Lower | YT-DLP_HQ_Video_w_Subtitle_EN_local.py:107 | `lower()` maps every character through the ASCII lower-case map and keeps the length |
| Text.LowerMatchesCaseVariants | YT-DLP_HQ_Video_w_Subtitle_EN_local.py:107 | a name lower-cases to a lower-case target exactly when it spells the target with any mix of cases |
| Text.NatToStringRoundTrip | YT-DLP_HQ_Video_w_Subtitle_EN_local.py:184 | reading back the decimal digits of a number gives the number |
| Text.IntToStringRoundTrip | YT-DLP_HQ_Video_w_Subtitle_EN_local.py:184-186 | `int(str(code)) == code` for the return codes the error lines print |
| Locator.Candidates | YT-DLP_HQ_Video_w_Subtitle_EN_local.py:81-96 | four candidates when frozen, with the bundle root and the bundle's `_internal` first; two otherwise; the cwd root and the cwd's `_internal` are always last |
| Locator.FirstExisting | YT-DLP_HQ_Video_w_Subtitle_EN_local.py:98-102 | the index of an existing candidate with none existing before it, or none existing at all |
| Locator.FirstToolFile | YT-DLP_HQ_Video_w_Subtitle_EN_local.py:106-107 | the first file of a directory whose lower-cased name is `yt-dlp.exe`, or none |
| Locator.IsToolName | YT-DLP_HQ_Video_w_Subtitle_EN_local.py:107 | the walk's test `file.lower() == "yt-dlp.exe"`; characterised by `ToolNameMatchesAnyCase` |
| Locator.ToolNameMatchesAnyCase | YT-DLP_HQ_Video_w_Subtitle_EN_local.py:107 | the walk accepts exactly the case variants of `yt-dlp.exe` |
| Locator.WalkSearch | YT-DLP_HQ_Video_w_Subtitle_EN_local.py:104-110 | the walk fallback as a value: the first matching file in walk order, joined to its root; its properties are the two rows below |
| Locator.WalkSearchAt | YT-DLP_HQ_Video_w_Subtitle_EN_local.py:104-110 | the walk returns the first matching file in walk order, joined to its root |
| Locator.WalkSearchNone | YT-DLP_HQ_Video_w_Subtitle_EN_local.py:104-113 | the walk finds nothing exactly when no walked file matches |
| Locator.Locate | YT-DLP_HQ_Video_w_Subtitle_EN_local.py:78-113 | the search as a value: the first existing candidate, else the walk's result; its properties are the `Locate…` rows below |
| Locator.FindYtdlpExe | YT-DLP_HQ_Video_w_Subtitle_EN_local.py:78-113 | the candidate loop with early return, then the nested walk loops, compute `Locate` |
| Locator.LocateReturnsFirstMatch | YT-DLP_HQ_Video_w_Subtitle_EN_local.py:98-110 | the first existing candidate is returned; with no candidate, the walk's first match is returned |
| Locator.CandidateBeatsWalk | YT-DLP_HQ_Video_w_Subtitle_EN_local.py:98-102 | once a candidate exists, nothing the walk holds changes the result |
| Locator.InternalCopyShadowsNested | YT-DLP_HQ_Video_w_Subtitle_EN_local.py:93-102 | a tool in `cwd\_internal` beats any deeper copy when the earlier candidates are missing |
| Locator.FrozenBundleFirst | YT-DLP_HQ_Video_w_Subtitle_EN_local.py:84-90 | when frozen, a tool at the bundle root wins |
| Locator.UnfrozenIgnoresBundle | YT-DLP_HQ_Video_w_Subtitle_EN_local.py:84-96 | when not frozen, the bundle directory plays no part |
| Locator.LocateNoneIff | YT-DLP_HQ_Video_w_Subtitle_EN_local.py:112-113 | the search fails exactly when no candidate exists and no walked file matches |
| Invocation.DownloadCommand | YT-DLP_HQ_Video_w_Subtitle_EN_local.py:122-143 | the vector has 31 entries, the tool path first and the URL last |
| Invocation.ReadRendered | YT-DLP_HQ_Video_w_Subtitle_EN_local.py:123-143 | a well-formed flag list followed by a URL that is not `-` followed by at least one character reads back as its options, its switches and that URL |
| Invocation.CommandIsRendered | YT-DLP_HQ_Video_w_Subtitle_EN_local.py:123-143 | `command` is the tool path, the fixed flags rendered in order, then the URL; every flag takes a value exactly when yt-dlp expects one |
| Invocation.CommandReadsBack | YT-DLP_HQ_Video_w_Subtitle_EN_local.py:123-143 | the tool path comes first and the URL last; for a URL not starting with `-`, the URL is the only positional argument and the options do not depend on it |
| Invocation.FormatOptionValues | YT-DLP_HQ_Video_w_Subtitle_EN_local.py:125-126 | reading `command` back gives the `bestvideo[ext=mp4]+bestaudio[ext=m4a]/best` selection and the mp4 container, not overridden later |
| Invocation.NamingOptionValues | YT-DLP_HQ_Video_w_Subtitle_EN_local.py:127-129 | reading `command` back gives `--trim-filenames 120` and the `%(title).80B [%(id)s].%(ext)s` template |
| Invocation.SubtitleOptionValues | YT-DLP_HQ_Video_w_Subtitle_EN_local.py:130-133 | reading `command` back gives the `en` subtitles, converted to `srt` |
| Invocation.PacingOptionValues | YT-DLP_HQ_Video_w_Subtitle_EN_local.py:136-141 | `--retries 20`, `--fragment-retries 20`, `-N 1` and the 2/2/5 sleep values read back from `command` |
| Invocation.DashUrlIsReadAsOption | YT-DLP_HQ_Video_w_Subtitle_EN_local.py:142 | the URL goes in unguarded: every URL of two or more characters starting with `-` is read as an option and leaves nothing to download |
| Invocation.CommandAgreesWithVideoOptions | Web_HQ_Video_w_Subtitle_EN_lib.py:96-112 | on every setting both make, the values written in the subprocess command and in the library video options agree: format, container, template, subtitles, retries, concurrency and sleep bounds; whether yt-dlp acts on each the same way is not stated |
| Invocation.CommandOnlySettings | YT-DLP_HQ_Video_w_Subtitle_EN_local.py:127-136 | `command` also asks for Windows-safe names trimmed to 120 characters, HLS through ffmpeg, IPv4 only and a 2 second pause between requests, which have no `ydl_opts` key |
| Invocation.Options | YT-DLP_HQ_MP3_w_Subtitle_EN_lib.py:96-116 | the merge container is set exactly in video mode (Web_HQ_Video_w_Subtitle_EN_lib.py:96-112) and a post-processor exactly in audio mode |
| Invocation.LibraryResiliencePolicy | YT-DLP_HQ_MP3_w_Subtitle_EN_lib.py:96-116 | both modes use 20 retries, 20 fragment retries, concurrency 1, sleeps of 2 to 5 seconds with minimum at most maximum, the shared template and srt subtitles |
| Invocation.AudioDiffersFromVideo | YT-DLP_HQ_MP3_w_Subtitle_EN_lib.py:96-116 | the audio record is the video record with format `bestaudio/best`, no merge container, the FFmpegExtractAudio mp3 post-processor at quality `0`, and `en.*` subtitles |
| Progress.ProgressLine | YT-DLP_HQ_MP3_w_Subtitle_EN_lib.py:84-94 | a line exactly for the `downloading` and `finished` statuses, and it ends in a newline |
| Progress.DownloadingLine | YT-DLP_HQ_MP3_w_Subtitle_EN_lib.py:85-89 | a `downloading` line prints percent, speed and ETA in order, each `N/A` when missing |
| Progress.DownloadingLinePrefix | Web_HQ_Video_w_Subtitle_EN_lib.py:86 | every `downloading` line starts with `Downloading: ` |
| Progress.FinishedIgnoresFields | Web_HQ_Video_w_Subtitle_EN_lib.py:90-94 | a `finished` record prints the fixed processing line whatever else it holds, and that line is not a `downloading` line |
| Progress.ProgressLines | Web_HQ_Video_w_Subtitle_EN_lib.py:84-94 | a run of hook calls prints at most one line per call |
| Progress.ProgressLinesCount | Web_HQ_Video_w_Subtitle_EN_lib.py:84-94 | a run of hook calls prints one line per `downloading`/`finished` record, in order, and none for the others |
| Progress.ProgressLinesAppend | Web_HQ_Video_w_Subtitle_EN_lib.py:84-94 | the lines of two runs of hook calls are the lines of the first followed by those of the second |
| Jobs.ReadStream | YT-DLP_HQ_Video_w_Subtitle_EN_local.py:166-171 | the forwarded lines are the non-empty reads before the first empty read or exception, and the loop raised exactly when it stopped at an exception |
| Jobs.StopIndex | YT-DLP_HQ_Video_w_Subtitle_EN_local.py:166 | the position of the first read that ends the loop |
| Jobs.ReadStreamForwardsPrefix | YT-DLP_HQ_Video_w_Subtitle_EN_local.py:166-171 | exactly the reads before the first stop reach the pane, in arrival order |
| Jobs.Banner | YT-DLP_HQ_Video_w_Subtitle_EN_local.py:149-151 | three pane lines before the downloader starts, the third one 81 characters long |
| Jobs.EndingLines | YT-DLP_HQ_Video_w_Subtitle_EN_local.py:177-191 | the pane trailer has three lines exactly when the job succeeded and one line for a failure code or an exception |
| Jobs.ProcessOutcome | YT-DLP_HQ_Video_w_Subtitle_EN_local.py:173-186 | a failed read ends the job with the exception; otherwise it succeeds exactly for exit code 0, and any other code is reported as it is |
| Jobs.LibraryOutcome | YT-DLP_HQ_MP3_w_Subtitle_EN_lib.py:125-142 | success exactly when `extract_info` returned an info dictionary; `None` and an exception both end in the exception path, an exception with its own message, and never with an exit code |
| Jobs.EndingNotice | YT-DLP_HQ_Video_w_Subtitle_EN_local.py:175-193 | the box is an info box exactly on success; an exception shows "Download Error" with the prefixed message; a nonzero code shows "Error" |
| Jobs.OutcomeSucceededIff | YT-DLP_HQ_Video_w_Subtitle_EN_local.py:166-188 | a job succeeds exactly when the process read to end of file and exited 0, or the library call returned an info dictionary |
| Jobs.RunOutcome | YT-DLP_HQ_Video_w_Subtitle_EN_local.py:166-193 | how a job that reached its `try` ends: by the return code or the read exception for a process, by the result of `extract_info` for the library; characterised by `OutcomeSucceededIff` |
| Jobs.JobEvents | YT-DLP_HQ_Video_w_Subtitle_EN_local.py:148-193 | the events of a job that reached its `try` (the library variants: YT-DLP_HQ_MP3_w_Subtitle_EN_lib.py:118-142): banner, reported lines, ending; characterised by the next rows |
| Jobs.ExactlyOneNotice | YT-DLP_HQ_Video_w_Subtitle_EN_local.py:148-193 | every job that reaches its `try` shows exactly one message box, an info box exactly when it succeeded, and leaves the button alone |
| Jobs.JobPieces | YT-DLP_HQ_Video_w_Subtitle_EN_local.py:149-193 | the pane shows the banner, the reported lines and the outcome lines, and the only box is the outcome's |
| Jobs.SubprocessOutputOrder | YT-DLP_HQ_Video_w_Subtitle_EN_local.py:149-187 | banner first, then the reads before the first stop in order, then the outcome lines |
| Jobs.ExitCodeReported | YT-DLP_HQ_Video_w_Subtitle_EN_local.py:182-186 | a nonzero return code after a read loop that stopped at end of file ends in "Download failed with error code: c" in the pane and in an error box |
| Jobs.SubprocessScenario | YT-DLP_HQ_Video_w_Subtitle_EN_local.py:166-181 | two progress lines then end of file, with exit 0: both lines shown in order, then the success box |
| Jobs.LibraryErrorPrefixed | YT-DLP_HQ_MP3_w_Subtitle_EN_lib.py:137-142 | a library exception shows one "Download Error" box: "Error during MP3 extraction: " (audio) or "Error during download: " (video) then the message |
| Jobs.BlankEntryOnlyWarns | YT-DLP_HQ_MP3_w_Subtitle_EN_lib.py:146-151 | an empty or whitespace-only entry gives the "No URL" warning and nothing else, and only such an entry does |
| Jobs.SubmitEvents | YT-DLP_HQ_Video_w_Subtitle_EN_local.py:196-219 | a blank entry gives only the warning; for any other entry the last event re-enables the button with its resting caption, however the job went |
| Jobs.NonBlankEntryBracketsJob | Web_HQ_Video_w_Subtitle_EN_lib.py:141-164 | otherwise the button is disabled first and re-enabled last, the job on the stripped URL runs in between, and one box is shown exactly when the job function reached its `try`; the subprocess variant (YT-DLP_HQ_Video_w_Subtitle_EN_local.py:196-219) does the same |
| Jobs.RaisedJobStillReenables | YT-DLP_HQ_Video_w_Subtitle_EN_local.py:116-146 | a job function that raises before its `try` shows no line and no box; the button is disabled and re-enabled and nothing else happens (`finally` at YT-DLP_HQ_Video_w_Subtitle_EN_local.py:215-219) |
| Jobs.Captions | YT-DLP_HQ_MP3_w_Subtitle_EN_lib.py:155-168 | the busy and resting captions: "Extracting Audio..." and "Extract MP3" for audio, "Downloading..." and "Download Video" for both video variants |
| Host.DownloaderWindow.constructor | YT-DLP_HQ_Video_w_Subtitle_EN_local.py:277-287 | the window starts with an empty log and the button enabled with its resting caption |
| Host.DownloaderWindow.AppendOutput | YT-DLP_HQ_Video_w_Subtitle_EN_local.py:149-191 | one `output_widget.insert(tk.END, text)` appends that text to the pane and leaves the button alone |
| Host.DownloaderWindow.ShowNotice | YT-DLP_HQ_Video_w_Subtitle_EN_local.py:181-193 | one `messagebox.show*` call appends that box and leaves the button alone |
| Host.DownloaderWindow.ConfigureButton | YT-DLP_HQ_Video_w_Subtitle_EN_local.py:206-219 | one `download_button.config(state=..., text=...)` call sets the button's state and caption and logs the change |
| Host.DownloaderWindow.ProgressHook | YT-DLP_HQ_MP3_w_Subtitle_EN_lib.py:84-94 | one hook call appends the record's line, if any, and nothing else |
| Host.DownloaderWindow.ShowBanner | YT-DLP_HQ_Video_w_Subtitle_EN_local.py:149-151 | the start line, the download directory and a rule of 80 dashes |
| Host.DownloaderWindow.ReportOutcome | YT-DLP_HQ_Video_w_Subtitle_EN_local.py:175-193 | appends the outcome lines and the one box |
| Host.DownloaderWindow.ForwardOutput | YT-DLP_HQ_Video_w_Subtitle_EN_local.py:166-171 | the read loop appends exactly the lines `ReadStream` forwards, and reports the exception that stopped it |
| Host.DownloaderWindow.DownloadWithSubprocess | YT-DLP_HQ_Video_w_Subtitle_EN_local.py:116-193 | hands `DownloadCommand` to the process and appends exactly the job's events |
| Host.DownloaderWindow.RunHooks | Web_HQ_Video_w_Subtitle_EN_lib.py:121-123 | the hook calls during `extract_info` append the lines `ProgressLines` gives |
| Host.DownloaderWindow.DownloadWithLibrary | YT-DLP_HQ_MP3_w_Subtitle_EN_lib.py:78-142 | uses the mode's `ydl_opts` and appends exactly the job's events |
| Host.DownloaderWindow.DownloadAndEnableButton | YT-DLP_HQ_MP3_w_Subtitle_EN_lib.py:164-168 | the job's events (none when the job function raised before its `try`), then the button enabled with its resting caption; the exception that escaped, if any, is passed on |
| Host.DownloaderWindow.StartDownloadThread | YT-DLP_HQ_Video_w_Subtitle_EN_local.py:196-219 | appends exactly `SubmitEvents`; a blank entry leaves the button as it was, any other entry leaves the window idle |
| Startup.AdminGate | YT-DLP_HQ_Video_w_Subtitle_EN_local.py:351-352 | an administrator goes on; anyone else exits, with code 0 only when the elevated copy was spawned, and with one box per nonzero exit |
| Startup.MainLocal | YT-DLP_HQ_Video_w_Subtitle_EN_local.py:346-380 | the window opens only for an administrator, running a located tool; every exit is 0 or 1 |
| Startup.LocalWindowIff | YT-DLP_HQ_Video_w_Subtitle_EN_local.py:372-380 | the window runs tool `p` exactly when the process is elevated and the search returned `p` |
| Startup.MissingToolExitsOne | YT-DLP_HQ_Video_w_Subtitle_EN_local.py:374-378 | no tool anywhere: the "YT-DLP Not Found" box and exit 1, before any window |
| Startup.ExitCodes | YT-DLP_HQ_Video_w_Subtitle_EN_local.py:351-378 | exit 0 only for a spawned elevated copy, silently; exit 1 always after exactly one error box |
| Startup.NonAdminSkipsSearch | YT-DLP_HQ_Video_w_Subtitle_EN_local.py:351-372 | a process that is not elevated never reaches the search, and every variant ends the same way |
| Startup.MainLibrary | YT-DLP_HQ_MP3_w_Subtitle_EN_lib.py:298-316 | the library window opens exactly for an administrator, in its own mode |
| Startup.FailedQueryElevates | Web_HQ_Video_w_Subtitle_EN_lib.py:296-297 | a query that raised sends the program down the elevation path |

## Left out

- The window itself is not modelled. This covers `create_gui`'s layout, the welcome text, the Clear Output and Exit buttons, and the widgets' `see`/`update` calls. The pane is an append-only log of lines.
- The TCL/TK environment setup at the top of each file is not modelled. It only sets process-wide environment variables.
- All `print` diagnostics are left out: logging only. So is the directory printout in the subprocess variant's `main`, and the library version printout in the library variants' `main`.
- `IsUserAnAdmin`, `ShellExecuteW`, `os.path.abspath` and `sys.exit` are foreign calls. Their results are oracle parameters, and `sys.exit(c)` becomes an exit code.
- `subprocess.Popen`, `process.wait()` and `yt_dlp.YoutubeDL(...).extract_info` are external programs, so they are oracles. A run is the list of `readline` results plus an exit code, or the hook records plus how the call ended. If the given results run out, that counts as end of file. `wait()` is taken to return.
- Threading is not modelled. The thread body runs to completion inside the handler call, so a second click while a job runs cannot be expressed.
- `os.path.join` is written as `dir + "\" + name`, and `os.walk` is a given sequence of `(root, files)` pairs. Windows path rules are not modelled.
- `lower()` is ASCII only, where Python lowers every Unicode letter. The only name compared is the ASCII `yt-dlp.exe`.
- `Invocation.ReadArgs` is a simplified reading of yt-dlp's option parser. It does not handle `--opt=value`, clustered short options or abbreviated long options. It only serves as the reference for what `command` says.
- How yt-dlp renders the `%(title).80B` template and the 120-character trim is not modelled. That happens inside yt-dlp.
- A `progress_hook` record always has a `status`. A hook that raises, like any other failure inside the library, is `ExtractRaised`.
- Host.DownloaderWindow.DownloadAndEnableButton: an exception raised inside the job's `try` or `except` by a widget, message-box or `print` call is not modelled. Only the exceptions raised before the `try` (YT-DLP_HQ_Video_w_Subtitle_EN_local.py:117-146, YT-DLP_HQ_MP3_w_Subtitle_EN_lib.py:79-116) are modelled, as `RaisedBeforeTry`.
- Jobs.SubmitEvents: the `print` of the entered URL before the button is disabled (YT-DLP_HQ_Video_w_Subtitle_EN_local.py:204) is taken not to raise. A raise there would leave the button enabled and start no job; that path is not modelled.
- Jobs.NonBlankEntryBracketsJob: for the same reason, a job that reaches its `try` always ends in the `except` or on the success path, never by an exception escaping the `except` block.
- The traceback that an escaping exception prints when it ends the thread is not modelled: it is console output only.
- The import-time failure of `import yt_dlp` (YT-DLP_HQ_MP3_w_Subtitle_EN_lib.py:30, Web_HQ_Video_w_Subtitle_EN_lib.py:30) is not modelled. It happens before `main` and before any decision the model describes.
- Elevation.ElevationParamsRoundTrip: holds only for arguments without double quotes, because the source does not escape them. `Elevation.QuotingIsAmbiguous` shows two argument lists that collide.
- Elevation.ElevationParamsRoundTrip: the read-back uses a reader of the plain `"a" "b"` shape, not the Windows command-line rules. Under those rules a backslash before a double quote escapes it, so an argument ending in a backslash (such as a directory path `C:\dir\`) does not come back intact. Those rules are not modelled.
- Elevation.ElevatedCommandLine: holds only for a script path and arguments without double quotes, because the source does not escape them (`Elevation.QuotingIsAmbiguous`). It uses the plain reader, not the Windows command-line rules, so an argument ending in a backslash is not covered.
- Elevation.ElevatedCommandLine: in a frozen build `sys.executable` is the bundle, so the elevated copy receives the script path as an extra first argument (YT-DLP_HQ_Video_w_Subtitle_EN_local.py:47 and 56-57). The lemma states this string-level fact. How the elevated copy then treats that extra argument is not modelled.
- Invocation.CommandReadsBack: assumes the URL does not start with `-`, because such a URL is read as an option. `Invocation.DashUrlIsReadAsOption` shows that case.
