/** The `progress_hook` of the two library variants: yt-dlp calls it with a status record,
    and it turns the record into at most one line for the output widget. */
module Progress {
  import opened Wrappers

  /** The keys of the record `d` that the hook reads. An absent `_percent_str`, `_speed_str`
      or `_eta_str` is `None`. */
  datatype HookStatus = HookStatus(
    status: string,
    percent: Option<string>,
    speed: Option<string>,
    eta: Option<string>)

  const Missing := "N/A"
  const DownloadingPrefix := "Downloading: "
  const FinishedLine := "Download finished, now processing...\n"

  /** The line the hook inserts for one record, if any. */
  function ProgressLine(d: HookStatus): (r: Option<string>)
    ensures r.Some? <==> d.status == "downloading" || d.status == "finished"
    ensures r.Some? ==> |r.value| > 0 && r.value[|r.value| - 1] == '\n'
  {
    if d.status == "downloading" then
      Some(DownloadingPrefix + d.percent.GetOr(Missing) + " at " + d.speed.GetOr(Missing)
           + " ETA: " + d.eta.GetOr(Missing) + "\n")
    else if d.status == "finished" then
      Some(FinishedLine)
    else
      None
  }

  /** The lines a sequence of hook calls inserts, in call order. */
  function ProgressLines(ds: seq<HookStatus>): (r: seq<string>)
    ensures |r| <= |ds|
  {
    if ds == [] then []
    else
      match ProgressLine(ds[0])
      case Some(line) => [line] + ProgressLines(ds[1..])
      case None => ProgressLines(ds[1..])
  }

  lemma {:induction false} ProgressLinesAppend(a: seq<HookStatus>, b: seq<HookStatus>)
    ensures ProgressLines(a + b) == ProgressLines(a) + ProgressLines(b)
  {
    if a == [] {
      assert a + b == b;
    } else {
      assert (a + b)[0] == a[0];
      assert (a + b)[1..] == a[1..] + b;
      ProgressLinesAppend(a[1..], b);
    }
  }

  /** A `downloading` record prints its three fields in order, each replaced by `N/A` when
      the record lacks it. */
  lemma DownloadingLine(d: HookStatus)
    requires d.status == "downloading"
    ensures var p := if d.percent.Some? then d.percent.value else "N/A";
            var s := if d.speed.Some? then d.speed.value else "N/A";
            var e := if d.eta.Some? then d.eta.value else "N/A";
            ProgressLine(d) == Some("Downloading: " + p + " at " + s + " ETA: " + e + "\n")
  {
  }

  /** A `finished` record prints the fixed processing line whatever else it holds, and the
      line cannot be mistaken for a `downloading` line. */
  lemma FinishedIgnoresFields(d1: HookStatus, d2: HookStatus)
    requires d1.status == "finished" && d2.status == "finished"
    ensures ProgressLine(d1) == ProgressLine(d2) == Some(FinishedLine)
    ensures !(|FinishedLine| >= |DownloadingPrefix| && FinishedLine[..|DownloadingPrefix|] == DownloadingPrefix)
  {
    assert FinishedLine[8] == ' ' != DownloadingPrefix[8];
  }

  /** Every `downloading` line starts with `Downloading: `. */
  lemma DownloadingLinePrefix(d: HookStatus)
    requires d.status == "downloading"
    ensures var line := ProgressLine(d).value;
            |line| >= |DownloadingPrefix| && line[..|DownloadingPrefix|] == DownloadingPrefix
  {
  }

  /** The hook prints one line per `downloading` or `finished` record and nothing for any
      other status, so the printed lines are those records' lines, in order. */
  lemma {:induction false} ProgressLinesCount(ds: seq<HookStatus>)
    ensures |ProgressLines(ds)| == |Reported(ds)|
    ensures forall i :: 0 <= i < |ProgressLines(ds)| ==> Some(ProgressLines(ds)[i]) == ProgressLine(Reported(ds)[i])
  {
    if ds != [] {
      ProgressLinesCount(ds[1..]);
    }
  }

  /** The records the hook reacts to, in order. */
  function Reported(ds: seq<HookStatus>): (r: seq<HookStatus>)
    ensures forall i :: 0 <= i < |r| ==> r[i].status == "downloading" || r[i].status == "finished"
  {
    if ds == [] then []
    else if ds[0].status == "downloading" || ds[0].status == "finished" then [ds[0]] + Reported(ds[1..])
    else Reported(ds[1..])
  }
}
