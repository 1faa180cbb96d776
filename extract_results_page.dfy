/** The page that shows an extraction: it reads the stored token and preview once, and every
    action beyond going back hangs on the token. */
module ExtractResultsPage {
  import opened Wrappers
  import opened Gateway
  import DataTable
  import Session

  const NOTICE: string := "No extracted data found. Go back and extract again."
  const BACK_ROUTE: string := "/extract"
  const MONITOR_ROUTE: string := "/monitor"

  datatype View = View(
    notice: Option<string>,
    table: Option<DataTable.Table>,
    back: Button,
    download: Button,
    proceed: Button)

  /** The page for what the store holds under "extract_token" and "extract_preview". */
  function Show(token: Option<string>, preview: Option<Option<DataTable.PreviewJson>>,
                parse: string -> Option<real>): (v: View)
    ensures v.notice.Some? <==> token.GetOr("") == ""
    ensures v.download.enabled <==> token.GetOr("") != ""
    ensures v.proceed.enabled <==> token.GetOr("") != ""
    ensures v.back.enabled && v.back.action == Navigate(BACK_ROUTE)
    ensures v.download.action == Open(ExtractDownloadPath(token.GetOr("")))
    ensures v.proceed.action == Navigate(MONITOR_ROUTE)
    ensures v.table.Some? <==> preview.Some? && preview.value.Some?
  {
    var t := token.GetOr("");
    View(
      if t == "" then Some(NOTICE) else None,
      DataTable.Render(Session.Parsed(preview), parse),
      Button("Go Back", Navigate(BACK_ROUTE), true),
      Button("Download Extracted Excel", Open(ExtractDownloadPath(t)), t != ""),
      Button("Proceed to Monitoring", Navigate(MONITOR_ROUTE), t != ""))
  }

  /** Right after an extraction with a token, the page shows its preview, no notice, and
      downloads that very token. */
  lemma AfterExtraction(reply: ExtractReply, parse: string -> Option<real>)
    requires reply.token != ""
    ensures var v := Show(Some(reply.token), Some(reply.preview), parse);
            && v.notice.None?
            && v.download.enabled && v.download.action == Open(ExtractDownloadPath(reply.token))
            && v.proceed.enabled
            && v.table == DataTable.Render(reply.preview, parse)
  {
  }

  /** With nothing stored the page shows the notice, no table, and only "Go Back" works. */
  lemma NothingStored(parse: string -> Option<real>)
    ensures var v := Show(None, None, parse);
            v.notice == Some(NOTICE) && v.table.None? && !v.download.enabled && !v.proceed.enabled
  {
  }
}
