/** The page that shows a monitoring run: it reads the stored job id, summary and both
    previews once, and its downloads hang on the job id. */
module MonitorResultsPage {
  import opened Wrappers
  import opened Gateway
  import DataTable
  import Session
  import Text
  import Api

  const NOTICE: string := "No monitoring job found. Please process again."
  const BACK_ROUTE: string := "/monitor"
  const HOME_ROUTE: string := "/"

  datatype StatCard = StatCard(title: string, value: string)

  datatype View = View(
    notice: Option<string>,
    stats: Option<seq<StatCard>>,
    back: Button,
    downloadUnmatched: Button,
    downloadNilson: Button,
    home: Button,
    unmatched: Option<DataTable.Table>,
    nilson: Option<DataTable.Table>)

  /** The three cards of a summary. */
  function Cards(s: SummaryJson): (cards: seq<StatCard>)
    ensures |cards| == 3
  {
    [StatCard("Total Spots in Schedule", DataTable.ChildText(s.totalScheduleSpots)),
     StatCard("Total Unmatched Spots", DataTable.ChildText(s.totalUnmatched)),
     StatCard("Matched Spots in Nilson", DataTable.ChildText(s.totalMatchedInNilson))]
  }

  /** The page for what the store holds under "monitor_job", "monitor_summary",
      "monitor_unmatched" and "monitor_nilson". */
  function Show(job: Option<string>, summary: Option<Option<SummaryJson>>,
                unmatched: Option<Option<DataTable.PreviewJson>>,
                nilson: Option<Option<DataTable.PreviewJson>>,
                parse: string -> Option<real>): (v: View)
    ensures v.notice.Some? <==> job.GetOr("") == ""
    ensures v.stats.Some? <==> Session.Parsed(summary).Some?
    ensures v.downloadUnmatched.enabled <==> job.GetOr("") != ""
    ensures v.downloadNilson.enabled <==> job.GetOr("") != ""
    ensures v.downloadUnmatched.action == Open(MonitorDownloadPath(job.GetOr(""), "unmatched"))
    ensures v.downloadNilson.action == Open(MonitorDownloadPath(job.GetOr(""), "nilson"))
    ensures v.back.enabled && v.back.action == Navigate(BACK_ROUTE)
    ensures v.home.enabled && v.home.action == Navigate(HOME_ROUTE)
    ensures v.unmatched.Some? <==> Session.Parsed(unmatched).Some?
    ensures v.nilson.Some? <==> Session.Parsed(nilson).Some?
  {
    var j := job.GetOr("");
    View(
      if j == "" then Some(NOTICE) else None,
      match Session.Parsed(summary) case None => None case Some(s) => Some(Cards(s)),
      Button("Go Back", Navigate(BACK_ROUTE), true),
      Button("Download Unmatched CSV", Open(MonitorDownloadPath(j, "unmatched")), j != ""),
      Button("Download Nilson CSV", Open(MonitorDownloadPath(j, "nilson")), j != ""),
      Button("Go to Home", Navigate(HOME_ROUTE), true),
      DataTable.Render(Session.Parsed(unmatched), parse),
      DataTable.Render(Session.Parsed(nilson), parse))
  }

  /** Right after a monitoring run with a job id, the page shows no notice, and its two
      downloads fetch that job's two files, which differ. */
  lemma AfterMonitoring(reply: MonitorReply, parse: string -> Option<real>)
    requires reply.jobId != ""
    ensures var v := Show(Some(reply.jobId), Some(reply.summary), Some(reply.unmatchedPreview),
                          Some(reply.nilsonPreview), parse);
            && v.notice.None?
            && v.downloadUnmatched.enabled && v.downloadNilson.enabled
            && v.downloadUnmatched.action == Open(MonitorDownloadPath(reply.jobId, "unmatched"))
            && v.downloadNilson.action == Open(MonitorDownloadPath(reply.jobId, "nilson"))
            && v.downloadUnmatched.action != v.downloadNilson.action
            && (v.stats.Some? <==> reply.summary.Some?)
            && v.unmatched == DataTable.Render(reply.unmatchedPreview, parse)
            && v.nilson == DataTable.Render(reply.nilsonPreview, parse)
  {
    var p := "/api/monitor/download/" + reply.jobId + "/";
    assert MonitorDownloadPath(reply.jobId, "unmatched")[|p|] == 'u';
    assert MonitorDownloadPath(reply.jobId, "nilson")[|p|] == 'n';
  }

  /** The summary object the backend sends, as the browser parses it: whole numbers, which
      JavaScript writes in decimal. */
  function SummaryJsonOf(s: Api.Summary): SummaryJson {
    SummaryJson(
      DataTable.JNum(s.totalScheduleSpots as real, Text.NatText(s.totalScheduleSpots)),
      DataTable.JNum(s.totalUnmatched as real, Text.NatText(s.totalUnmatched)),
      DataTable.JNum(s.totalMatchedInNilson as real, Text.NatText(s.totalMatchedInNilson)))
  }

  /** The stat cards show the backend's three counts, in decimal, under their labels. */
  lemma CardsOfBackendSummary(job: Option<string>, s: Api.Summary,
                              unmatched: Option<Option<DataTable.PreviewJson>>,
                              nilson: Option<Option<DataTable.PreviewJson>>,
                              parse: string -> Option<real>)
    ensures Show(job, Some(Some(SummaryJsonOf(s))), unmatched, nilson, parse).stats
            == Some([StatCard("Total Spots in Schedule", Text.NatText(s.totalScheduleSpots)),
                     StatCard("Total Unmatched Spots", Text.NatText(s.totalUnmatched)),
                     StatCard("Matched Spots in Nilson", Text.NatText(s.totalMatchedInNilson))])
  {
  }

  /** With nothing stored the page shows the notice, no cards, no tables, and both downloads
      are disabled. */
  lemma NothingStored(parse: string -> Option<real>)
    ensures var v := Show(None, None, None, None, parse);
            && v.notice == Some(NOTICE) && v.stats.None?
            && !v.downloadUnmatched.enabled && !v.downloadNilson.enabled
            && v.unmatched.None? && v.nilson.None?
  {
  }
}
