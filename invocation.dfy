/** How each variant tells yt-dlp what to do: the argument vector of the subprocess variant
    (`command` in `download_video` of the local-executable file) and the `ydl_opts`
    records of the two library variants. */
module Invocation {
  import opened Wrappers
  import opened Text

  const OutputTemplate := "%(title).80B [%(id)s].%(ext)s"

  /** The `command` list: the tool path, the fixed flags, and the URL last. */
  function DownloadCommand(ytdlpPath: string, videoUrl: string): (r: seq<string>)
    ensures |r| == 31 && r[0] == ytdlpPath && r[|r| - 1] == videoUrl
  {
    [ytdlpPath]
    + ["-f", "bestvideo[ext=mp4]+bestaudio[ext=m4a]/best",
       "--merge-output-format", "mp4"]
    + ["--windows-filenames",
       "--trim-filenames", "120",
       "-o", OutputTemplate]
    + ["--write-subs",
       "--write-auto-subs",
       "--sub-langs", "en",
       "--convert-subs", "srt"]
    + ["--hls-prefer-ffmpeg",
       "--force-ipv4"]
    + ["--sleep-requests", "2",
       "--min-sleep-interval", "2",
       "--max-sleep-interval", "5",
       "--retries", "20",
       "--fragment-retries", "20",
       "-N", "1"]
    + [videoUrl]
  }

  // ---------------------------------------------------------------------------------------
  // A reference reading of an argument vector, as yt-dlp's option parser reads it.

  /** An argument of at least two characters that starts with `-` is read as an option. */
  predicate LooksLikeOption(arg: string) {
    |arg| >= 2 && arg[0] == '-'
  }

  /** The options of `command` that take a value (the next argument, whatever it looks like). */
  const ValueOptions: set<string> := {
    "-f", "--merge-output-format", "--trim-filenames", "-o", "--sub-langs", "--convert-subs",
    "--sleep-requests", "--min-sleep-interval", "--max-sleep-interval", "--retries",
    "--fragment-retries", "-N"
  }

  datatype ParsedArgs = ParsedArgs(options: seq<(string, string)>, switches: seq<string>, positionals: seq<string>)

  /** Reads arguments left to right: an option that takes a value consumes the next
      argument, any other option is a switch, and everything else is a positional (a URL). */
  function ReadArgs(args: seq<string>): ParsedArgs
    decreases |args|
  {
    if args == [] then ParsedArgs([], [], [])
    else if LooksLikeOption(args[0]) && args[0] in ValueOptions && |args| >= 2 then
      var p := ReadArgs(args[2..]);
      p.(options := [(args[0], args[1])] + p.options)
    else if LooksLikeOption(args[0]) then
      var p := ReadArgs(args[1..]);
      p.(switches := [args[0]] + p.switches)
    else
      var p := ReadArgs(args[1..]);
      p.(positionals := [args[0]] + p.positionals)
  }

  /** The value an option was given; a later occurrence overrides an earlier one. */
  function OptionValue(options: seq<(string, string)>, flag: string): Option<string> {
    if options == [] then None
    else
      match OptionValue(options[1..], flag)
      case Some(v) => Some(v)
      case None => if options[0].0 == flag then Some(options[0].1) else None
  }

  /** The fixed part of `command`, item by item, in the order the vector lists them: the
      format selection, the file naming, the subtitles, the transport, and the pacing and
      retry policy. */
  datatype CliItem = Opt(flag: string, value: string) | Switch(flag: string)

  const FormatItems: seq<CliItem> := [
    Opt("-f", "bestvideo[ext=mp4]+bestaudio[ext=m4a]/best"),
    Opt("--merge-output-format", "mp4")
  ]

  const FilenameItems: seq<CliItem> := [
    Switch("--windows-filenames"),
    Opt("--trim-filenames", "120"),
    Opt("-o", "%(title).80B [%(id)s].%(ext)s")
  ]

  const SubtitleItems: seq<CliItem> := [
    Switch("--write-subs"),
    Switch("--write-auto-subs"),
    Opt("--sub-langs", "en"),
    Opt("--convert-subs", "srt")
  ]

  const TransportItems: seq<CliItem> := [
    Switch("--hls-prefer-ffmpeg"),
    Switch("--force-ipv4")
  ]

  const PacingItems: seq<CliItem> := [
    Opt("--sleep-requests", "2"),
    Opt("--min-sleep-interval", "2"),
    Opt("--max-sleep-interval", "5"),
    Opt("--retries", "20"),
    Opt("--fragment-retries", "20"),
    Opt("-N", "1")
  ]

  const CommandItems: seq<CliItem> := FormatItems + FilenameItems + SubtitleItems + TransportItems + PacingItems

  function Render(items: seq<CliItem>): seq<string> {
    if items == [] then []
    else
      match items[0]
      case Opt(f, v) => [f, v] + Render(items[1..])
      case Switch(f) => [f] + Render(items[1..])
  }

  function OptionsOf(items: seq<CliItem>): seq<(string, string)> {
    if items == [] then []
    else if items[0].Opt? then [(items[0].flag, items[0].value)] + OptionsOf(items[1..])
    else OptionsOf(items[1..])
  }

  function SwitchesOf(items: seq<CliItem>): seq<string> {
    if items == [] then []
    else if items[0].Switch? then [items[0].flag] + SwitchesOf(items[1..])
    else SwitchesOf(items[1..])
  }

  /** Every flag looks like an option, and exactly the valued ones take a value. */
  predicate WellFormed(items: seq<CliItem>) {
    forall i :: 0 <= i < |items| ==>
      LooksLikeOption(items[i].flag) && (items[i].Opt? <==> items[i].flag in ValueOptions)
  }

  lemma {:induction false} ReadRendered(items: seq<CliItem>, url: string)
    requires WellFormed(items)
    requires !LooksLikeOption(url)
    ensures ReadArgs(Render(items) + [url]) == ParsedArgs(OptionsOf(items), SwitchesOf(items), [url])
  {
    if items == [] {
      assert Render(items) + [url] == [url];
      assert ReadArgs([url][1..]) == ParsedArgs([], [], []);
    } else {
      assert WellFormed(items[1..]) by {
        forall i | 0 <= i < |items| - 1 ensures items[1..][i] == items[i + 1] { }
      }
      ReadRendered(items[1..], url);
      var args := Render(items) + [url];
      match items[0]
      case Opt(f, v) =>
        assert args == [f, v] + (Render(items[1..]) + [url]);
        assert args[2..] == Render(items[1..]) + [url];
      case Switch(f) =>
        assert args == [f] + (Render(items[1..]) + [url]);
        assert args[1..] == Render(items[1..]) + [url];
    }
  }

  lemma {:induction false} RenderAppend(a: seq<CliItem>, b: seq<CliItem>)
    ensures Render(a + b) == Render(a) + Render(b)
  {
    if a == [] {
      assert a + b == b;
    } else {
      assert (a + b)[0] == a[0];
      assert (a + b)[1..] == a[1..] + b;
      RenderAppend(a[1..], b);
    }
  }

  lemma {:induction false} OptionsOfAppend(a: seq<CliItem>, b: seq<CliItem>)
    ensures OptionsOf(a + b) == OptionsOf(a) + OptionsOf(b)
  {
    if a == [] {
      assert a + b == b;
    } else {
      assert (a + b)[0] == a[0];
      assert (a + b)[1..] == a[1..] + b;
      OptionsOfAppend(a[1..], b);
    }
  }

  lemma {:induction false} SwitchesOfAppend(a: seq<CliItem>, b: seq<CliItem>)
    ensures SwitchesOf(a + b) == SwitchesOf(a) + SwitchesOf(b)
  {
    if a == [] {
      assert a + b == b;
    } else {
      assert (a + b)[0] == a[0];
      assert (a + b)[1..] == a[1..] + b;
      SwitchesOfAppend(a[1..], b);
    }
  }

  lemma WellFormedAppend(a: seq<CliItem>, b: seq<CliItem>)
    requires WellFormed(a) && WellFormed(b)
    ensures WellFormed(a + b)
  {
    forall i | 0 <= i < |a + b|
      ensures LooksLikeOption((a + b)[i].flag) && ((a + b)[i].Opt? <==> (a + b)[i].flag in ValueOptions)
    {
      if i >= |a| {
        assert (a + b)[i] == b[i - |a|];
      }
    }
  }

  /** The fixed flags in the order `command` lists them. */
  lemma CommandRender()
    ensures Render(CommandItems) ==
              ["-f", "bestvideo[ext=mp4]+bestaudio[ext=m4a]/best", "--merge-output-format", "mp4"]
              + ["--windows-filenames", "--trim-filenames", "120", "-o", "%(title).80B [%(id)s].%(ext)s"]
              + ["--write-subs", "--write-auto-subs", "--sub-langs", "en", "--convert-subs", "srt"]
              + ["--hls-prefer-ffmpeg", "--force-ipv4"]
              + ["--sleep-requests", "2", "--min-sleep-interval", "2", "--max-sleep-interval", "5",
                 "--retries", "20", "--fragment-retries", "20", "-N", "1"]
  {
    RenderAppend(FormatItems, FilenameItems);
    RenderAppend(FormatItems + FilenameItems, SubtitleItems);
    RenderAppend(FormatItems + FilenameItems + SubtitleItems, TransportItems);
    RenderAppend(FormatItems + FilenameItems + SubtitleItems + TransportItems, PacingItems);
    assert Render(FormatItems) == ["-f", "bestvideo[ext=mp4]+bestaudio[ext=m4a]/best", "--merge-output-format", "mp4"];
    assert Render(FilenameItems) == ["--windows-filenames", "--trim-filenames", "120", "-o", "%(title).80B [%(id)s].%(ext)s"];
    assert Render(SubtitleItems) == ["--write-subs", "--write-auto-subs", "--sub-langs", "en", "--convert-subs", "srt"];
    assert Render(TransportItems) == ["--hls-prefer-ffmpeg", "--force-ipv4"];
    assert Render(PacingItems) == ["--sleep-requests", "2", "--min-sleep-interval", "2", "--max-sleep-interval", "5",
                                   "--retries", "20", "--fragment-retries", "20", "-N", "1"];
  }

  /** The valued options of `command`: the early ones, then the pacing and retry ones. */
  lemma CommandOptions()
    ensures OptionsOf(CommandItems) == EarlyOptions + PacingOptions
  {
    OptionsOfAppend(FormatItems, FilenameItems);
    OptionsOfAppend(FormatItems + FilenameItems, SubtitleItems);
    OptionsOfAppend(FormatItems + FilenameItems + SubtitleItems, TransportItems);
    OptionsOfAppend(FormatItems + FilenameItems + SubtitleItems + TransportItems, PacingItems);
    assert OptionsOf(FormatItems) == [("-f", "bestvideo[ext=mp4]+bestaudio[ext=m4a]/best"), ("--merge-output-format", "mp4")];
    assert OptionsOf(FilenameItems) == [("--trim-filenames", "120"), ("-o", "%(title).80B [%(id)s].%(ext)s")];
    assert OptionsOf(SubtitleItems) == [("--sub-langs", "en"), ("--convert-subs", "srt")];
    assert OptionsOf(TransportItems) == [];
    assert OptionsOf(PacingItems) == PacingOptions;
  }

  const EarlyOptions: seq<(string, string)> := [
    ("-f", "bestvideo[ext=mp4]+bestaudio[ext=m4a]/best"), ("--merge-output-format", "mp4"),
    ("--trim-filenames", "120"), ("-o", "%(title).80B [%(id)s].%(ext)s"),
    ("--sub-langs", "en"), ("--convert-subs", "srt")
  ]

  const PacingOptions: seq<(string, string)> := [
    ("--sleep-requests", "2"), ("--min-sleep-interval", "2"), ("--max-sleep-interval", "5"),
    ("--retries", "20"), ("--fragment-retries", "20"), ("-N", "1")
  ]

  /** The switches of `command`. */
  lemma CommandSwitches()
    ensures SwitchesOf(CommandItems) ==
              ["--windows-filenames", "--write-subs", "--write-auto-subs", "--hls-prefer-ffmpeg", "--force-ipv4"]
  {
    SwitchesOfAppend(FormatItems, FilenameItems);
    SwitchesOfAppend(FormatItems + FilenameItems, SubtitleItems);
    SwitchesOfAppend(FormatItems + FilenameItems + SubtitleItems, TransportItems);
    SwitchesOfAppend(FormatItems + FilenameItems + SubtitleItems + TransportItems, PacingItems);
    assert SwitchesOf(FormatItems) == [];
    assert SwitchesOf(FilenameItems) == ["--windows-filenames"];
    assert SwitchesOf(SubtitleItems) == ["--write-subs", "--write-auto-subs"];
    assert SwitchesOf(TransportItems) == ["--hls-prefer-ffmpeg", "--force-ipv4"];
    assert SwitchesOf(PacingItems) == [];
  }

  lemma CommandWellFormed()
    ensures WellFormed(CommandItems)
  {
    assert WellFormed(FormatItems);
    assert WellFormed(FilenameItems);
    assert WellFormed(SubtitleItems);
    assert WellFormed(TransportItems);
    assert WellFormed(PacingItems);
    WellFormedAppend(FormatItems, FilenameItems);
    WellFormedAppend(FormatItems + FilenameItems, SubtitleItems);
    WellFormedAppend(FormatItems + FilenameItems + SubtitleItems, TransportItems);
    WellFormedAppend(FormatItems + FilenameItems + SubtitleItems + TransportItems, PacingItems);
  }

  /** `command` is the tool path, the rendered fixed flags, and the URL; every fixed flag
      looks like an option and takes a value exactly when yt-dlp expects one. */
  lemma CommandIsRendered(ytdlpPath: string, videoUrl: string)
    ensures DownloadCommand(ytdlpPath, videoUrl) == [ytdlpPath] + Render(CommandItems) + [videoUrl]
    ensures WellFormed(CommandItems)
  {
    CommandRender();
    CommandWellFormed();
  }

  /** With last-wins lookup, a flag set in a later part of the vector overrides the earlier part. */
  lemma {:induction false} OptionValueAppend(a: seq<(string, string)>, b: seq<(string, string)>, flag: string)
    ensures OptionValue(a + b, flag) == if OptionValue(b, flag).Some? then OptionValue(b, flag) else OptionValue(a, flag)
  {
    if a == [] {
      assert a + b == b;
    } else {
      assert (a + b)[0] == a[0];
      assert (a + b)[1..] == a[1..] + b;
      OptionValueAppend(a[1..], b, flag);
    }
  }

  /** What yt-dlp reads from `command`: the tool path is the program, the URL is the one
      and only positional argument, and every option value comes from the fixed flags, so
      none of them depends on the URL. This needs a URL that does not itself start with `-`. */
  lemma CommandReadsBack(ytdlpPath: string, videoUrl: string)
    requires !LooksLikeOption(videoUrl)
    ensures var cmd := DownloadCommand(ytdlpPath, videoUrl);
            && cmd[0] == ytdlpPath && cmd[|cmd| - 1] == videoUrl
            && ReadArgs(cmd[1..]) == ParsedArgs(OptionsOf(CommandItems), SwitchesOf(CommandItems), [videoUrl])
  {
    CommandIsRendered(ytdlpPath, videoUrl);
    var cmd := DownloadCommand(ytdlpPath, videoUrl);
    assert cmd[1..] == Render(CommandItems) + [videoUrl];
    ReadRendered(CommandItems, videoUrl);
  }

  /** The URL is put in the vector as it was typed, with no `--` before it: any URL that
      starts with `-` and has a second character is read as an option (one that takes a
      value has none left to take), and nothing is left to download. */
  lemma DashUrlIsReadAsOption(ytdlpPath: string, videoUrl: string)
    requires LooksLikeOption(videoUrl)
    ensures ReadArgs(DownloadCommand(ytdlpPath, videoUrl)[1..]).positionals == []
  {
    var cmd := DownloadCommand(ytdlpPath, videoUrl);
    CommandIsRendered(ytdlpPath, videoUrl);
    assert cmd[1..] == Render(CommandItems) + [videoUrl];
    ReadRenderedSwitch(CommandItems, videoUrl);
  }

  lemma {:induction false} ReadRenderedSwitch(items: seq<CliItem>, last: string)
    requires WellFormed(items)
    requires LooksLikeOption(last)
    ensures ReadArgs(Render(items) + [last]).positionals == []
  {
    if items == [] {
      assert Render(items) + [last] == [last];
      assert ReadArgs([last][1..]) == ParsedArgs([], [], []);
    } else {
      assert WellFormed(items[1..]) by {
        forall i | 0 <= i < |items| - 1 ensures items[1..][i] == items[i + 1] { }
      }
      ReadRenderedSwitch(items[1..], last);
      var args := Render(items) + [last];
      match items[0]
      case Opt(f, v) =>
        assert args == [f, v] + (Render(items[1..]) + [last]);
        assert args[2..] == Render(items[1..]) + [last];
      case Switch(f) =>
        assert args == [f] + (Render(items[1..]) + [last]);
        assert args[1..] == Render(items[1..]) + [last];
    }
  }

  // ---------------------------------------------------------------------------------------
  // The `ydl_opts` records of the library variants.

  datatype Postprocessor = Postprocessor(key: string, preferredCodec: string, preferredQuality: string)

  /** The keys of `ydl_opts`; `progress_hooks` is the Progress module's hook. */
  datatype YdlOptions = YdlOptions(
    format: string,
    mergeOutputFormat: Option<string>,
    outtmpl: string,
    postprocessors: seq<Postprocessor>,
    writeSubtitles: bool,
    writeAutomaticSub: bool,
    subtitlesLangs: seq<string>,
    convertSubtitles: string,
    sleepInterval: nat,
    maxSleepInterval: nat,
    retries: nat,
    fragmentRetries: nat,
    concurrentFragmentDownloads: nat,
    quiet: bool,
    noWarnings: bool)

  datatype LibraryMode = VideoMode | AudioMode

  /** `ydl_opts` of `download_video` (video mode) and of `download_audio` (audio mode). */
  function Options(mode: LibraryMode): (r: YdlOptions)
    ensures r.mergeOutputFormat.Some? <==> mode == VideoMode
    ensures r.postprocessors != [] <==> mode == AudioMode
  {
    match mode
    case VideoMode =>
      YdlOptions(
        format := "bestvideo[ext=mp4]+bestaudio[ext=m4a]/best",
        mergeOutputFormat := Some("mp4"),
        outtmpl := OutputTemplate,
        postprocessors := [],
        writeSubtitles := true,
        writeAutomaticSub := true,
        subtitlesLangs := ["en"],
        convertSubtitles := "srt",
        sleepInterval := 2,
        maxSleepInterval := 5,
        retries := 20,
        fragmentRetries := 20,
        concurrentFragmentDownloads := 1,
        quiet := false,
        noWarnings := false)
    case AudioMode =>
      YdlOptions(
        format := "bestaudio/best",
        mergeOutputFormat := None,
        outtmpl := OutputTemplate,
        postprocessors := [Postprocessor("FFmpegExtractAudio", "mp3", "0")],
        writeSubtitles := true,
        writeAutomaticSub := true,
        subtitlesLangs := ["en.*"],
        convertSubtitles := "srt",
        sleepInterval := 2,
        maxSleepInterval := 5,
        retries := 20,
        fragmentRetries := 20,
        concurrentFragmentDownloads := 1,
        quiet := false,
        noWarnings := false)
  }

  /** The resilience policy both library modes apply: 20 retries of the whole request and
      20 of each fragment, one fragment at a time, a 2 to 5 second sleep between downloads,
      and the same output template. */
  lemma LibraryResiliencePolicy(mode: LibraryMode)
    ensures var o := Options(mode);
            && o.retries == 20 && o.fragmentRetries == 20
            && o.concurrentFragmentDownloads == 1
            && 0 < o.sleepInterval <= o.maxSleepInterval
            && o.sleepInterval == 2 && o.maxSleepInterval == 5
            && o.outtmpl == OutputTemplate
            && o.writeSubtitles && o.writeAutomaticSub && o.convertSubtitles == "srt"
  {
  }

  /** The audio options are the video options with a different format, no merge container,
      the MP3 extraction post-processor at quality 0, and every English subtitle variant. */
  lemma AudioDiffersFromVideo()
    ensures Options(AudioMode) == Options(VideoMode).(
              format := "bestaudio/best",
              mergeOutputFormat := None,
              postprocessors := [Postprocessor("FFmpegExtractAudio", "mp3", "0")],
              subtitlesLangs := ["en.*"])
  {
  }

  /** The format and container values of `command`: no later option overrides them. */
  lemma FormatOptionValues()
    ensures OptionValue(OptionsOf(CommandItems), "-f") == Some("bestvideo[ext=mp4]+bestaudio[ext=m4a]/best")
    ensures OptionValue(OptionsOf(CommandItems), "--merge-output-format") == Some("mp4")
  {
    CommandOptions();
    OptionValueAppend(EarlyOptions, PacingOptions, "-f");
    OptionValueAppend(EarlyOptions, PacingOptions, "--merge-output-format");
  }

  /** The file naming values of `command`: names trimmed to 120 characters, from the title
      cut to 80 bytes and the video id. */
  lemma NamingOptionValues()
    ensures OptionValue(OptionsOf(CommandItems), "--trim-filenames") == Some("120")
    ensures OptionValue(OptionsOf(CommandItems), "-o") == Some(OutputTemplate)
  {
    CommandOptions();
    OptionValueAppend(EarlyOptions, PacingOptions, "--trim-filenames");
    OptionValueAppend(EarlyOptions, PacingOptions, "-o");
  }

  /** The subtitle values of `command`: English subtitles, converted to SRT. */
  lemma SubtitleOptionValues()
    ensures OptionValue(OptionsOf(CommandItems), "--sub-langs") == Some("en")
    ensures OptionValue(OptionsOf(CommandItems), "--convert-subs") == Some("srt")
  {
    CommandOptions();
    OptionValueAppend(EarlyOptions, PacingOptions, "--sub-langs");
    OptionValueAppend(EarlyOptions, PacingOptions, "--convert-subs");
  }

  /** The pacing and retry values of `command`. */
  lemma PacingOptionValues()
    ensures OptionValue(OptionsOf(CommandItems), "--sleep-requests") == Some("2")
    ensures OptionValue(OptionsOf(CommandItems), "--min-sleep-interval") == Some("2")
    ensures OptionValue(OptionsOf(CommandItems), "--max-sleep-interval") == Some("5")
    ensures OptionValue(OptionsOf(CommandItems), "--retries") == Some("20")
    ensures OptionValue(OptionsOf(CommandItems), "--fragment-retries") == Some("20")
    ensures OptionValue(OptionsOf(CommandItems), "-N") == Some("1")
  {
    CommandOptions();
    OptionValueAppend(EarlyOptions, PacingOptions, "--sleep-requests");
    OptionValueAppend(EarlyOptions, PacingOptions, "--min-sleep-interval");
    OptionValueAppend(EarlyOptions, PacingOptions, "--max-sleep-interval");
    OptionValueAppend(EarlyOptions, PacingOptions, "--retries");
    OptionValueAppend(EarlyOptions, PacingOptions, "--fragment-retries");
    OptionValueAppend(EarlyOptions, PacingOptions, "-N");
  }

  /** The values written by the subprocess variant and by the library video variant agree
      on every setting both of them make: the values read from `command` are the video
      `ydl_opts` values written out in decimal, for the format, the container, the template,
      the subtitles, the retries, the concurrency and the sleep bounds. `command` also makes
      settings the `ydl_opts` record has no key for (`CommandOnlySettings`). Whether yt-dlp
      acts on a command-line value and on the matching `ydl_opts` key in the same way is
      not stated. */
  lemma CommandAgreesWithVideoOptions(ytdlpPath: string, videoUrl: string)
    requires !LooksLikeOption(videoUrl)
    ensures var read := ReadArgs(DownloadCommand(ytdlpPath, videoUrl)[1..]);
            var o := Options(VideoMode);
            && OptionValue(read.options, "-f") == Some(o.format)
            && OptionValue(read.options, "--merge-output-format") == o.mergeOutputFormat
            && OptionValue(read.options, "-o") == Some(o.outtmpl)
            && OptionValue(read.options, "--sub-langs") == Some(o.subtitlesLangs[0]) && |o.subtitlesLangs| == 1
            && OptionValue(read.options, "--convert-subs") == Some(o.convertSubtitles)
            && ("--write-subs" in read.switches <==> o.writeSubtitles)
            && ("--write-auto-subs" in read.switches <==> o.writeAutomaticSub)
            && OptionValue(read.options, "--retries") == Some(NatToString(o.retries))
            && OptionValue(read.options, "--fragment-retries") == Some(NatToString(o.fragmentRetries))
            && OptionValue(read.options, "-N") == Some(NatToString(o.concurrentFragmentDownloads))
            && OptionValue(read.options, "--min-sleep-interval") == Some(NatToString(o.sleepInterval))
            && OptionValue(read.options, "--max-sleep-interval") == Some(NatToString(o.maxSleepInterval))
            && read.positionals == [videoUrl]
  {
    var read := ReadArgs(DownloadCommand(ytdlpPath, videoUrl)[1..]);
    CommandReadsBack(ytdlpPath, videoUrl);
    assert read.options == OptionsOf(CommandItems);
    assert read.switches == SwitchesOf(CommandItems);
    CommandSwitches();
    FormatOptionValues();
    NamingOptionValues();
    SubtitleOptionValues();
    PacingOptionValues();
    DecimalValues();
  }

  /** The settings of `command` with no counterpart among the `ydl_opts` keys: Windows-safe
      file names trimmed to 120 characters, HLS through ffmpeg, IPv4 only, and a 2 second
      pause between requests. */
  lemma CommandOnlySettings(ytdlpPath: string, videoUrl: string)
    requires !LooksLikeOption(videoUrl)
    ensures var read := ReadArgs(DownloadCommand(ytdlpPath, videoUrl)[1..]);
            && "--windows-filenames" in read.switches
            && "--hls-prefer-ffmpeg" in read.switches
            && "--force-ipv4" in read.switches
            && OptionValue(read.options, "--trim-filenames") == Some("120")
            && OptionValue(read.options, "--sleep-requests") == Some("2")
  {
    var read := ReadArgs(DownloadCommand(ytdlpPath, videoUrl)[1..]);
    CommandReadsBack(ytdlpPath, videoUrl);
    assert read.options == OptionsOf(CommandItems);
    assert read.switches == SwitchesOf(CommandItems);
    CommandSwitches();
    NamingOptionValues();
    PacingOptionValues();
  }

  lemma DecimalValues()
    ensures NatToString(1) == "1" && NatToString(2) == "2" && NatToString(5) == "5" && NatToString(20) == "20"
  {
    assert NatToString(20) == NatToString(2) + "0";
  }
}
