/** The privilege query and the elevation step every variant runs before anything else:
    `is_admin` and `elevate_privileges`. The two shell32 calls are oracles given as
    parameters; `sys.exit(code)` becomes the exit code of the result. */
module Elevation {
  import opened Wrappers
  import opened Text
  import opened Ui

  /** What `ctypes.windll.shell32.IsUserAnAdmin()` did: returned a status, or raised. */
  datatype AdminQuery = AdminStatus(status: int) | QueryRaised(message: string)

  /** `is_admin()` as `main` tests it (`if not is_admin()`): the truth value of the status,
      and False when the query raised. */
  function IsAdmin(q: AdminQuery): (admin: bool)
    ensures q.QueryRaised? ==> !admin
    ensures q.AdminStatus? ==> (admin <==> q.status != 0)
  {
    match q
    case AdminStatus(status) => status != 0
    case QueryRaised(_) => false
  }

  /** `f'"{arg}"'`. */
  function Quote(arg: string): string {
    "\"" + arg + "\""
  }

  function QuoteAll(args: seq<string>): (r: seq<string>)
    ensures |r| == |args|
    ensures forall i :: 0 <= i < |args| ==> r[i] == Quote(args[i])
  {
    if args == [] then [] else [Quote(args[0])] + QuoteAll(args[1..])
  }

  /** `' '.join(parts)`. */
  function JoinSpaces(parts: seq<string>): string {
    if parts == [] then ""
    else if |parts| == 1 then parts[0]
    else parts[0] + " " + JoinSpaces(parts[1..])
  }

  /** `sys.argv[1:]`, which is empty when `sys.argv` is. */
  function Arguments(argv: seq<string>): seq<string> {
    if argv == [] then [] else argv[1..]
  }

  /** `params = ' '.join([f'"{arg}"' for arg in sys.argv[1:]])`. */
  function ElevationParams(argv: seq<string>): (r: string)
    ensures r == [] <==> |argv| <= 1
  {
    JoinSpaces(QuoteAll(Arguments(argv)))
  }

  /** The parameter string handed to ShellExecuteW: `f'"{script_path}" {params}'`, which
      keeps its separating space even when there are no arguments. */
  function ShellParameters(scriptPath: string, argv: seq<string>): (r: string)
    ensures |r| >= |scriptPath| + 3 && r[0] == '"' && r[|scriptPath| + 1] == '"' && r[|scriptPath| + 2] == ' '
    ensures r[1..|scriptPath| + 1] == scriptPath && r[|scriptPath| + 3..] == ElevationParams(argv)
    ensures |argv| <= 1 ==> r == Quote(scriptPath) + " "
  {
    Quote(scriptPath) + " " + ElevationParams(argv)
  }

  predicate HasQuote(s: string) {
    exists k :: 0 <= k < |s| && s[k] == '"'
  }

  /** The position of the first double quote in `s`. */
  function IndexOfQuote(s: string): (r: Option<nat>)
    ensures r.Some? ==> r.value < |s| && s[r.value] == '"' && !HasQuote(s[..r.value])
    ensures r.None? ==> !HasQuote(s)
  {
    if s == [] then None
    else if s[0] == '"' then Some(0)
    else
      match IndexOfQuote(s[1..])
      case None => None
      case Some(k) =>
        assert s[1..][..k] == s[1..k + 1];
        Some(k + 1)
  }

  /** A reader of parameter strings of the plain shape `"a" "b" "c"` only: double-quoted
      items separated by single spaces, with no escapes; spaces after the last item are
      skipped, as the Windows command-line parser skips them. It is not the Windows command-line
      parser, which also gives meaning to backslashes before a double quote, so it stands
      for what the elevated instance reads back only for arguments with no double quote
      and no trailing backslash. */
  function ParseQuotedList(s: string): Option<seq<string>> {
    if s == [] then Some([]) else ParseQuotedItems(s)
  }

  function ParseQuotedItems(s: string): Option<seq<string>>
    decreases |s|
  {
    if |s| < 2 || s[0] != '"' then None
    else
      match IndexOfQuote(s[1..])
      case None => None
      case Some(k) =>
        var item := s[1..k + 1];
        var rest := s[k + 2..];
        if AllSpaces(rest) then Some([item])
        else if rest[0] != ' ' then None
        else
          match ParseQuotedItems(rest[1..])
          case None => None
          case Some(items) => Some([item] + items)
  }

  predicate AllSpaces(s: string) {
    forall k :: 0 <= k < |s| ==> s[k] == ' '
  }

  lemma {:induction false} IndexOfQuoteAfter(a: string, tail: string)
    requires !HasQuote(a)
    ensures IndexOfQuote(a + "\"" + tail) == Some(|a|)
  {
    if a != [] {
      assert a[0] != '"';
      assert !HasQuote(a[1..]) by {
        forall k | 0 <= k < |a| - 1 ensures a[1..][k] != '"' {
          assert a[1..][k] == a[k + 1];
        }
      }
      IndexOfQuoteAfter(a[1..], tail);
      assert (a + "\"" + tail)[1..] == a[1..] + "\"" + tail;
    }
  }

  lemma {:induction false} ParseQuotedItemsJoin(args: seq<string>)
    requires args != []
    requires forall i :: 0 <= i < |args| ==> !HasQuote(args[i])
    ensures ParseQuotedItems(JoinSpaces(QuoteAll(args))) == Some(args)
  {
    var a := args[0];
    var tail := if |args| == 1 then "" else " " + JoinSpaces(QuoteAll(args[1..]));
    JoinHead(args);
    QuotedHead(a, tail);
    if |args| > 1 {
      assert tail[0] == ' ' && tail[1..] == JoinSpaces(QuoteAll(args[1..]));
      JoinHead(args[1..]);
      assert tail[1] == '"';
      ParseQuotedItemsJoin(args[1..]);
      assert [a] + args[1..] == args;
    } else {
      assert [a] == args;
    }
  }

  /** The joined string is the first quoted argument followed by the rest, if any, after a space. */
  lemma JoinHead(args: seq<string>)
    requires args != []
    ensures JoinSpaces(QuoteAll(args))
            == "\"" + args[0] + "\"" + (if |args| == 1 then "" else " " + JoinSpaces(QuoteAll(args[1..])))
  {
    var q := QuoteAll(args);
    if |args| > 1 {
      assert q[1..] == QuoteAll(args[1..]);
      assert JoinSpaces(q) == Quote(args[0]) + " " + JoinSpaces(q[1..]);
      Regroup3(Quote(args[0]), " ", JoinSpaces(q[1..]));
    }
  }

  lemma Regroup3(a: string, b: string, c: string)
    ensures a + b + c == a + (b + c)
  {
  }

  /** Reading a quoted item that holds no quote finds its closing quote and the text after it. */
  lemma QuotedHead(a: string, tail: string)
    requires !HasQuote(a)
    ensures var s := "\"" + a + "\"" + tail;
            && |s| >= 2 && s[0] == '"'
            && IndexOfQuote(s[1..]) == Some(|a|)
            && s[1..|a| + 1] == a && s[|a| + 2..] == tail
  {
    var s := "\"" + a + "\"" + tail;
    assert s[1..] == a + "\"" + tail;
    IndexOfQuoteAfter(a, tail);
  }

  /** When no argument holds a double quote, the plain reader splits the parameter string
      back into exactly the original `sys.argv[1:]`, in order. */
  lemma ElevationParamsRoundTrip(argv: seq<string>)
    requires forall i :: 1 <= i < |argv| ==> !HasQuote(argv[i])
    ensures ParseQuotedList(ElevationParams(argv)) == Some(Arguments(argv))
  {
    var args := Arguments(argv);
    if args != [] {
      assert forall i :: 0 <= i < |args| ==> args[i] == argv[i + 1];
      ParseQuotedItemsJoin(args);
      assert JoinSpaces(QuoteAll(args)) != [];
    }
  }

  /** The whole string handed to ShellExecuteW, read by the plain reader: the script path,
      then the original `sys.argv[1:]`. Run from source, `sys.executable` is the interpreter
      and the script path becomes the elevated instance's `sys.argv[0]`; in a frozen build
      `sys.executable` is the bundle itself, so the elevated copy receives the script path
      as an extra first argument. With no arguments the string ends in its separating
      space, which the reader skips. */
  lemma ElevatedCommandLine(scriptPath: string, argv: seq<string>)
    requires !HasQuote(scriptPath)
    requires forall i :: 1 <= i < |argv| ==> !HasQuote(argv[i])
    ensures ParseQuotedList(ShellParameters(scriptPath, argv)) == Some([scriptPath] + Arguments(argv))
  {
    if |argv| <= 1 {
      QuotedHead(scriptPath, " ");
      assert AllSpaces(" ");
      var p := ShellParameters(scriptPath, argv);
      assert p == "\"" + scriptPath + "\"" + " ";
      assert ParseQuotedItems(p) == Some([scriptPath]);
      assert Arguments(argv) == [] && [scriptPath] + Arguments(argv) == [scriptPath];
    } else {
      var all := [scriptPath] + Arguments(argv);
      assert forall i :: 0 <= i < |all| ==> !HasQuote(all[i]) by {
        forall i | 0 <= i < |all| ensures !HasQuote(all[i]) {
          if i > 0 {
            assert all[i] == argv[i];
          }
        }
      }
      ParseQuotedItemsJoin(all);
      JoinHead(all);
      assert all[1..] == Arguments(argv);
    }
  }

  /** Quoting without escaping is not injective: one argument with embedded quotes and two
      plain arguments produce the same parameter string. */
  lemma QuotingIsAmbiguous()
    ensures ElevationParams(["app", "a\" \"b"]) == ElevationParams(["app", "a", "b"])
    ensures ["app", "a\" \"b"] != ["app", "a", "b"]
  {
    assert ["app", "a\" \"b"][1..] == ["a\" \"b"];
    assert ["app", "a", "b"][1..] == ["a", "b"];
  }

  /** What `ShellExecuteW(None, "runas", sys.executable, params, None, 1)` did. The whole
      `try` block is guarded, so an exception from `os.path.abspath` counts as raised too. */
  datatype ShellResult = ShellReturned(code: int) | ShellRaised(message: string)

  /** How `elevate_privileges` ends: the code passed to `sys.exit`, and the message box
      shown before it, if any. */
  datatype ElevationExit = ElevationExit(exitCode: int, dialog: Option<Notice>)

  function ElevationFailedNotice(code: int): Notice {
    Notice(Error, "Elevation Failed", "Could not elevate privileges. Error code: " + IntToString(code))
  }

  function ElevationErrorNotice(message: string): Notice {
    Notice(Error, "Elevation Error", "Failed to elevate: " + message)
  }

  /** A return value above 32 means the elevated instance was spawned: exit 0 silently.
      Any other value, or an exception, shows one error box and exits 1. `sys.exit(0)`
      raises SystemExit, which `except Exception` does not catch, so success stays 0. */
  function Elevate(r: ShellResult): (e: ElevationExit)
    ensures e.exitCode == 0 <==> (r.ShellReturned? && r.code > 32)
    ensures e.exitCode == 0 || e.exitCode == 1
    ensures e.dialog.None? <==> e.exitCode == 0
    ensures r.ShellReturned? && r.code <= 32 ==> e.dialog == Some(ElevationFailedNotice(r.code))
    ensures r.ShellRaised? ==> e.dialog == Some(ElevationErrorNotice(r.message))
  {
    match r
    case ShellReturned(code) =>
      if code > 32 then ElevationExit(0, None) else ElevationExit(1, Some(ElevationFailedNotice(code)))
    case ShellRaised(message) => ElevationExit(1, Some(ElevationErrorNotice(message)))
  }

  /** The failure box names the code ShellExecuteW returned, and different codes read
      differently. */
  lemma FailureCodeIsReported(c1: int, c2: int)
    requires c1 <= 32 && c2 <= 32 && c1 != c2
    ensures Elevate(ShellReturned(c1)).dialog != Elevate(ShellReturned(c2)).dialog
  {
    var prefix := "Could not elevate privileges. Error code: ";
    if ElevationFailedNotice(c1).message == ElevationFailedNotice(c2).message {
      assert IntToString(c1) == ElevationFailedNotice(c1).message[|prefix|..];
      assert IntToString(c2) == ElevationFailedNotice(c2).message[|prefix|..];
      IntToStringRoundTrip(c1);
      IntToStringRoundTrip(c2);
    }
  }
}
