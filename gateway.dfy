/** The frontend's calls to the backend: what each request carries, what its reply holds, the
    error text a failed call leaves, and the addresses the download buttons open. How a call
    travels is not modelled: the pages are given its outcome. */
module Gateway {
  import opened Wrappers
  import DataTable

  /** A file the user picked; a `File` object is always truthy. */
  datatype File = File(name: string)

  datatype Request =
    | GetSheets(file: File)
    | ExtractSchedule(file: File, sheet: string, channel: string, advertiser: string)
    | RunMonitoring(token: string, nilsonFile: File, roNumber: string)

  /** Why a call threw: a reply whose status is not OK (its body becomes the message of a new
      `Error`), or anything else thrown on the way, given as its own `String(e)`. */
  datatype Failure = Rejected(body: string) | Thrown(text: string)

  datatype Call<T> = Answered(value: T) | Failed(failure: Failure)

  /** The reply of `/api/schedule/sheets`; `None` when it has no `sheets` (or a null one). */
  datatype SheetsReply = SheetsReply(sheets: Option<seq<string>>)

  /** The reply of `/api/extract`; `None` for a null preview. */
  datatype ExtractReply = ExtractReply(token: string, preview: Option<DataTable.PreviewJson>)

  /** The `summary` object of a monitoring reply. */
  datatype SummaryJson = SummaryJson(
    totalScheduleSpots: DataTable.JsValue,
    totalUnmatched: DataTable.JsValue,
    totalMatchedInNilson: DataTable.JsValue)

  /** The reply of `/api/monitor`; `None` for a null member. */
  datatype MonitorReply = MonitorReply(
    jobId: string,
    summary: Option<SummaryJson>,
    unmatchedPreview: Option<DataTable.PreviewJson>,
    nilsonPreview: Option<DataTable.PreviewJson>)

  /** `String(e)` for what the call threw. An `Error` prints as its name, then ": " and its
      message when the message is not empty. */
  function ErrorText(f: Failure): (t: string)
    ensures f.Rejected? ==> |t| >= 5 && t[..5] == "Error"
    ensures f.Rejected? && f.body != "" ==> t == "Error: " + f.body
  {
    match f
    case Rejected(body) => if body == "" then "Error" else "Error: " + body
    case Thrown(text) => text
  }

  /** A rejected call's text gives its body back. */
  lemma RejectedBodyRecoverable(a: string, b: string)
    requires ErrorText(Rejected(a)) == ErrorText(Rejected(b))
    ensures a == b
  {
    var t := ErrorText(Rejected(a));
    if a != "" && b != "" {
      assert a == t[7..];
    }
  }

  /** What a button does: go to a route of the app, or open a backend address (below the API
      base) in a new tab. */
  datatype Action = Navigate(route: string) | Open(path: string)

  datatype Button = Button(caption: string, action: Action, enabled: bool)

  /** The address `downloadExtracted(token)` opens. */
  function ExtractDownloadPath(token: string): string {
    "/api/extract/download/" + token
  }

  /** The address `downloadMonitoring(jobId, which)` opens. */
  function MonitorDownloadPath(jobId: string, which: string): string {
    "/api/monitor/download/" + jobId + "/" + which
  }

  /** A download address names one token. */
  lemma ExtractDownloadPathInjective(a: string, b: string)
    requires ExtractDownloadPath(a) == ExtractDownloadPath(b)
    ensures a == b
  {
    var p := "/api/extract/download/";
    assert a == ExtractDownloadPath(a)[|p|..];
  }

  /** Where the parts of "job/which" sit. */
  lemma Joined(j: string, w: string)
    ensures (j + "/" + w)[|j|] == '/'
    ensures forall i :: 0 <= i < |j| ==> (j + "/" + w)[i] == j[i]
  {
  }

  /** For a job id without '/', as the backend issues them, the address names one job and one
      file: the backend's route reads both parts back. */
  lemma MonitorDownloadPathInjective(j1: string, w1: string, j2: string, w2: string)
    requires '/' !in j1 && '/' !in j2
    requires MonitorDownloadPath(j1, w1) == MonitorDownloadPath(j2, w2)
    ensures j1 == j2 && w1 == w2
  {
    var p := "/api/monitor/download/";
    var s1 := j1 + "/" + w1;
    var s2 := j2 + "/" + w2;
    assert s1 == MonitorDownloadPath(j1, w1)[|p|..];
    assert s2 == MonitorDownloadPath(j2, w2)[|p|..];
    assert s1 == s2;
    Joined(j1, w1);
    Joined(j2, w2);
    if |j1| < |j2| {
      assert false;
    } else if |j2| < |j1| {
      assert false;
    }
    assert j1 == s1[..|j1|] == s2[..|j2|] == j2;
    assert w1 == s1[|j1| + 1..] == s2[|j2| + 1..] == w2;
  }
}
