/** What `main` decides before the window's main loop starts: the administrator gate, which
    either continues or ends the process through `elevate_privileges`, and, for the
    subprocess variant, the tool search, whose failure ends the process with exit code 1. */
module Startup {
  import opened Wrappers
  import opened Ui
  import opened Elevation
  import opened Locator
  import opened Jobs

  /** How `main` gets on: the process exits with a code after the message boxes shown, or
      the window of the given program opens. */
  datatype Launch = Exited(code: int, notices: seq<Notice>) | WindowOpened(variant: Variant)

  const NotFoundNotice :=
    Notice(Error, "YT-DLP Not Found", "yt-dlp.exe not found in the current working directory or _internal subdirectory")

  /** `if not is_admin(): elevate_privileges()`: an administrator goes on, anyone else is
      ended by the elevation attempt, successful or not. */
  function AdminGate(q: AdminQuery, shell: ShellResult): (r: Option<Launch>)
    ensures r.None? <==> IsAdmin(q)
    ensures r.Some? ==> r.value.Exited? && (r.value.code == 0 <==> shell.ShellReturned? && shell.code > 32)
    ensures r.Some? ==> |r.value.notices| == r.value.code && (r.value.code == 0 || r.value.code == 1)
  {
    if IsAdmin(q) then None
    else
      var e := Elevate(shell);
      Some(Exited(e.exitCode, if e.dialog.Some? then [e.dialog.value] else []))
  }

  /** `main` of the subprocess variant: the gate, then `find_ytdlp_exe(cwd)`; no tool means
      one error box and exit code 1 before any window exists. */
  function MainLocal(q: AdminQuery, shell: ShellResult, frozen: bool, bundleDir: string, cwd: string,
                     existing: set<string>, walk: seq<WalkStep>): (l: Launch)
    ensures l.WindowOpened? ==> IsAdmin(q) && l.variant.LocalExe?
    ensures l.Exited? ==> l.code == 0 || l.code == 1
  {
    match AdminGate(q, shell)
    case Some(exit) => exit
    case None =>
      match Locate(frozen, bundleDir, cwd, existing, walk)
      case None => Exited(1, [NotFoundNotice])
      case Some(path) => WindowOpened(LocalExe(path))
  }

  /** `main` of the library variants: the gate, then the window of the video or the audio
      program. */
  function MainLibrary(audio: bool, q: AdminQuery, shell: ShellResult): (l: Launch)
    ensures l.WindowOpened? <==> IsAdmin(q)
    ensures l.WindowOpened? ==> l.variant == if audio then LibAudio else LibVideo
  {
    match AdminGate(q, shell)
    case Some(exit) => exit
    case None => WindowOpened(if audio then LibAudio else LibVideo)
  }

  /** The subprocess window opens exactly for an administrator whose search found a tool,
      and it runs that very tool. */
  lemma LocalWindowIff(q: AdminQuery, shell: ShellResult, frozen: bool, bundleDir: string, cwd: string,
                       existing: set<string>, walk: seq<WalkStep>, path: string)
    ensures MainLocal(q, shell, frozen, bundleDir, cwd, existing, walk) == WindowOpened(LocalExe(path))
            <==> IsAdmin(q) && Locate(frozen, bundleDir, cwd, existing, walk) == Some(path)
  {
  }

  /** An administrator with no tool anywhere, neither among the candidates nor in the walked
      tree, gets the not-found box and exit code 1. */
  lemma MissingToolExitsOne(q: AdminQuery, shell: ShellResult, frozen: bool, bundleDir: string, cwd: string,
                            existing: set<string>, walk: seq<WalkStep>)
    requires IsAdmin(q)
    requires forall i :: 0 <= i < |Candidates(frozen, bundleDir, cwd)| ==> Candidates(frozen, bundleDir, cwd)[i] !in existing
    requires NoToolIn(walk)
    ensures MainLocal(q, shell, frozen, bundleDir, cwd, existing, walk) == Exited(1, [NotFoundNotice])
  {
    LocateNoneIff(frozen, bundleDir, cwd, existing, walk);
  }

  /** Exit code 0 happens only when the elevated copy was spawned, and then silently; every
      exit with code 1 shows exactly one error box. */
  lemma ExitCodes(q: AdminQuery, shell: ShellResult, frozen: bool, bundleDir: string, cwd: string,
                  existing: set<string>, walk: seq<WalkStep>)
    ensures var l := MainLocal(q, shell, frozen, bundleDir, cwd, existing, walk);
            l.Exited? ==>
              && (l.code == 0 <==> !IsAdmin(q) && shell.ShellReturned? && shell.code > 32)
              && (l.code == 0 ==> l.notices == [])
              && (l.code == 1 ==> |l.notices| == 1 && l.notices[0].severity == Error)
  {
  }

  /** A process that is not elevated never looks for the tool: its fate depends on the
      elevation attempt alone. */
  lemma NonAdminSkipsSearch(q: AdminQuery, shell: ShellResult,
                            frozen1: bool, bundle1: string, cwd1: string, existing1: set<string>, walk1: seq<WalkStep>,
                            frozen2: bool, bundle2: string, cwd2: string, existing2: set<string>, walk2: seq<WalkStep>)
    requires !IsAdmin(q)
    ensures MainLocal(q, shell, frozen1, bundle1, cwd1, existing1, walk1)
            == MainLocal(q, shell, frozen2, bundle2, cwd2, existing2, walk2)
            == MainLibrary(false, q, shell) == MainLibrary(true, q, shell)
  {
  }

  /** A query that raised counts as not elevated, so the program tries to elevate. */
  lemma FailedQueryElevates(message: string, shell: ShellResult, audio: bool)
    ensures MainLibrary(audio, QueryRaised(message), shell) == AdminGate(QueryRaised(message), shell).value
  {
  }
}
