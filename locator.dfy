/** The tool locator of the subprocess variant, `find_ytdlp_exe(cwd)`: a prioritised list of
    candidate paths, then a walk of the working directory tree. The filesystem is given as
    the set of paths that exist and the sequence `os.walk(cwd)` yields. */
module Locator {
  import opened Wrappers
  import opened Text

  const ToolName := "yt-dlp.exe"
  const InternalDir := "_internal"

  /** `os.path.join(dir, name)` for a relative `name`, with the Windows separator. */
  function Join(dir: string, name: string): string {
    dir + "\\" + name
  }

  /** One `(root, dirs, files)` triple of `os.walk`; `dirs` plays no part in the search. */
  datatype WalkStep = WalkStep(root: string, files: seq<string>)

  /** `ytdlp_locations`: the bundle directory and its `_internal` folder, only when running
      frozen, then the working directory and its `_internal` folder. */
  function Candidates(frozen: bool, bundleDir: string, cwd: string): (r: seq<string>)
    ensures |r| == if frozen then 4 else 2
    ensures r[|r| - 2..] == [Join(cwd, ToolName), Join(Join(cwd, InternalDir), ToolName)]
    ensures frozen ==> r[..2] == [Join(bundleDir, ToolName), Join(Join(bundleDir, InternalDir), ToolName)]
  {
    (if frozen then [Join(bundleDir, ToolName), Join(Join(bundleDir, InternalDir), ToolName)] else [])
    + [Join(cwd, ToolName), Join(Join(cwd, InternalDir), ToolName)]
  }

  /** The index of the first candidate that exists. */
  function FirstExisting(candidates: seq<string>, existing: set<string>): (r: Option<nat>)
    ensures r.Some? ==> r.value < |candidates| && candidates[r.value] in existing
    ensures r.Some? ==> forall k :: 0 <= k < r.value ==> candidates[k] !in existing
    ensures r.None? ==> forall k :: 0 <= k < |candidates| ==> candidates[k] !in existing
  {
    if candidates == [] then None
    else if candidates[0] in existing then Some(0)
    else
      match FirstExisting(candidates[1..], existing)
      case None => None
      case Some(k) => Some(k + 1)
  }

  /** `file.lower() == "yt-dlp.exe"`. */
  predicate IsToolName(file: string) {
    Lower(file) == ToolName
  }

  /** The walk matches file names case-insensitively: exactly the spellings of `yt-dlp.exe`
      with any mix of upper- and lower-case letters. */
  lemma ToolNameMatchesAnyCase(file: string)
    ensures IsToolName(file) <==>
              (|file| == |ToolName| &&
               forall k :: 0 <= k < |file| ==> file[k] == ToolName[k] || file[k] == UpperChar(ToolName[k]))
  {
    assert forall k :: 0 <= k < |ToolName| ==> !('A' <= ToolName[k] <= 'Z');
    LowerMatchesCaseVariants(file, ToolName);
  }

  /** The index of the first file of one directory whose name matches. */
  function FirstToolFile(files: seq<string>): (r: Option<nat>)
    ensures r.Some? ==> r.value < |files| && IsToolName(files[r.value])
    ensures r.Some? ==> forall k :: 0 <= k < r.value ==> !IsToolName(files[k])
    ensures r.None? ==> forall k :: 0 <= k < |files| ==> !IsToolName(files[k])
  {
    if files == [] then None
    else if IsToolName(files[0]) then Some(0)
    else
      match FirstToolFile(files[1..])
      case None => None
      case Some(k) => Some(k + 1)
  }

  /** The walk fallback: the first matching file in walk order, joined to its root. */
  function WalkSearch(walk: seq<WalkStep>): Option<string> {
    if walk == [] then None
    else
      match FirstToolFile(walk[0].files)
      case Some(k) => Some(Join(walk[0].root, walk[0].files[k]))
      case None => WalkSearch(walk[1..])
  }

  /** No directory of the walk holds a matching file. */
  predicate NoToolIn(walk: seq<WalkStep>) {
    forall i, k :: 0 <= i < |walk| && 0 <= k < |walk[i].files| ==> !IsToolName(walk[i].files[k])
  }

  /** File `k` of step `i` matches, and no file before it in walk order does. */
  predicate FirstWalkMatch(walk: seq<WalkStep>, i: nat, k: nat) {
    && i < |walk| && k < |walk[i].files|
    && IsToolName(walk[i].files[k])
    && NoToolIn(walk[..i])
    && forall k' :: 0 <= k' < k ==> !IsToolName(walk[i].files[k'])
  }

  lemma {:induction false} WalkSearchAt(walk: seq<WalkStep>, i: nat, k: nat)
    requires FirstWalkMatch(walk, i, k)
    ensures WalkSearch(walk) == Some(Join(walk[i].root, walk[i].files[k]))
  {
    if i == 0 {
      var r := FirstToolFile(walk[0].files);
      assert r == Some(k);
    } else {
      assert walk[..i][0] == walk[0];
      assert forall k' :: 0 <= k' < |walk[0].files| ==> !IsToolName(walk[..i][0].files[k']);
      assert FirstToolFile(walk[0].files).None?;
      assert walk[1..][..i - 1] == walk[..i][1..];
      assert FirstWalkMatch(walk[1..], i - 1, k);
      WalkSearchAt(walk[1..], i - 1, k);
    }
  }

  lemma {:induction false} WalkSearchNone(walk: seq<WalkStep>)
    ensures WalkSearch(walk) == None <==> NoToolIn(walk)
  {
    if walk != [] {
      WalkSearchNone(walk[1..]);
      var r := FirstToolFile(walk[0].files);
      if r.None? {
        if NoToolIn(walk[1..]) {
          forall i, k | 0 <= i < |walk| && 0 <= k < |walk[i].files|
            ensures !IsToolName(walk[i].files[k])
          {
            if i > 0 {
              assert walk[i] == walk[1..][i - 1];
            }
          }
        } else {
          var i, k :| 0 <= i < |walk[1..]| && 0 <= k < |walk[1..][i].files| && IsToolName(walk[1..][i].files[k]);
          assert walk[1..][i] == walk[i + 1];
        }
      } else {
        assert IsToolName(walk[0].files[r.value]);
      }
    }
  }

  /** `find_ytdlp_exe` as a value: the first existing candidate, else the walk's first match. */
  function Locate(frozen: bool, bundleDir: string, cwd: string, existing: set<string>, walk: seq<WalkStep>): Option<string> {
    var candidates := Candidates(frozen, bundleDir, cwd);
    match FirstExisting(candidates, existing)
    case Some(i) => Some(candidates[i])
    case None => WalkSearch(walk)
  }

  /** The search itself: build the candidate list, return the first one that exists, else
      walk the tree and return the first file whose lower-cased name is `yt-dlp.exe`. */
  method FindYtdlpExe(frozen: bool, bundleDir: string, cwd: string, existing: set<string>, walk: seq<WalkStep>)
    returns (location: Option<string>)
    ensures location == Locate(frozen, bundleDir, cwd, existing, walk)
  {
    var locations: seq<string> := [];
    if frozen {
      locations := locations + [Join(bundleDir, ToolName), Join(Join(bundleDir, InternalDir), ToolName)];
    }
    locations := locations + [Join(cwd, ToolName), Join(Join(cwd, InternalDir), ToolName)];
    assert locations == Candidates(frozen, bundleDir, cwd);

    for i := 0 to |locations|
      invariant forall k :: 0 <= k < i ==> locations[k] !in existing
    {
      if locations[i] in existing {
        return Some(locations[i]);
      }
    }

    for i := 0 to |walk|
      invariant NoToolIn(walk[..i])
    {
      var files := walk[i].files;
      for j := 0 to |files|
        invariant forall k :: 0 <= k < j ==> !IsToolName(files[k])
      {
        if Lower(files[j]) == ToolName {
          WalkSearchAt(walk, i, j);
          return Some(Join(walk[i].root, files[j]));
        }
      }
      assert walk[..i + 1] == walk[..i] + [walk[i]];
    }
    assert walk[..|walk|] == walk;
    WalkSearchNone(walk);
    return None;
  }

  /** First match wins: a found candidate exists and every candidate before it does not;
      with no candidate, a found path is the walk's first match and no earlier walked file
      matches. */
  lemma LocateReturnsFirstMatch(frozen: bool, bundleDir: string, cwd: string, existing: set<string>, walk: seq<WalkStep>)
    ensures var candidates := Candidates(frozen, bundleDir, cwd);
            var r := Locate(frozen, bundleDir, cwd, existing, walk);
            && (forall i ::
                  (0 <= i < |candidates| && candidates[i] in existing &&
                   (forall k :: 0 <= k < i ==> candidates[k] !in existing))
                  ==> r == Some(candidates[i]))
            && ((forall i :: 0 <= i < |candidates| ==> candidates[i] !in existing) ==>
                  forall i: nat, k: nat :: FirstWalkMatch(walk, i, k) ==> r == Some(Join(walk[i].root, walk[i].files[k])))
  {
    forall i: nat, k: nat | FirstWalkMatch(walk, i, k)
      ensures WalkSearch(walk) == Some(Join(walk[i].root, walk[i].files[k]))
    {
      WalkSearchAt(walk, i, k);
    }
  }

  /** An existing candidate shadows everything the walk could find, however deep or early. */
  lemma CandidateBeatsWalk(frozen: bool, bundleDir: string, cwd: string, existing: set<string>, walk1: seq<WalkStep>, walk2: seq<WalkStep>)
    requires exists i :: 0 <= i < |Candidates(frozen, bundleDir, cwd)| && Candidates(frozen, bundleDir, cwd)[i] in existing
    ensures Locate(frozen, bundleDir, cwd, existing, walk1) == Locate(frozen, bundleDir, cwd, existing, walk2)
    ensures Locate(frozen, bundleDir, cwd, existing, walk1).Some?
  {
  }

  /** The scenario of a tool in `cwd\_internal` and another deeper in the tree: when the
      candidates before it are missing, the `_internal` copy is returned. */
  lemma InternalCopyShadowsNested(frozen: bool, bundleDir: string, cwd: string, existing: set<string>, walk: seq<WalkStep>)
    requires Join(Join(cwd, InternalDir), ToolName) in existing
    requires Join(cwd, ToolName) !in existing
    requires frozen ==> Join(bundleDir, ToolName) !in existing && Join(Join(bundleDir, InternalDir), ToolName) !in existing
    ensures Locate(frozen, bundleDir, cwd, existing, walk) == Some(Join(Join(cwd, InternalDir), ToolName))
  {
    var c := Candidates(frozen, bundleDir, cwd);
    assert c[|c| - 1] == Join(Join(cwd, InternalDir), ToolName);
    assert c[|c| - 2] == Join(cwd, ToolName);
  }

  /** Frozen: the bundle directory is tried first and wins whenever it holds the tool. */
  lemma FrozenBundleFirst(bundleDir: string, cwd: string, existing: set<string>, walk: seq<WalkStep>)
    requires Join(bundleDir, ToolName) in existing
    ensures Locate(true, bundleDir, cwd, existing, walk) == Some(Join(bundleDir, ToolName))
  {
    assert Candidates(true, bundleDir, cwd)[0] == Join(bundleDir, ToolName);
  }

  /** Not frozen: the bundle directory is never looked at. */
  lemma UnfrozenIgnoresBundle(bundle1: string, bundle2: string, cwd: string, existing: set<string>, walk: seq<WalkStep>)
    ensures Locate(false, bundle1, cwd, existing, walk) == Locate(false, bundle2, cwd, existing, walk)
  {
    assert Candidates(false, bundle1, cwd) == Candidates(false, bundle2, cwd);
  }

  /** None exactly when no candidate exists and no walked file matches. */
  lemma LocateNoneIff(frozen: bool, bundleDir: string, cwd: string, existing: set<string>, walk: seq<WalkStep>)
    ensures Locate(frozen, bundleDir, cwd, existing, walk).None? <==>
              (forall i :: 0 <= i < |Candidates(frozen, bundleDir, cwd)| ==> Candidates(frozen, bundleDir, cwd)[i] !in existing)
              && NoToolIn(walk)
  {
    WalkSearchNone(walk);
  }
}
