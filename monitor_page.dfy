/** The monitoring form: with a schedule already extracted, the user uploads the Nilson
    report, types the RO number and processes. As on the extraction form, the handler runs in
    two halves around its `await`. */
module MonitorPage {
  import opened Wrappers
  import opened Gateway
  import Text
  import Session

  const NO_TOKEN: string := "No extracted schedule found. Please extract schedule first."
  const NO_FILE: string := "Please upload Nilson report."
  const NO_RO: string := "Please enter RO Number."

  const PAGE_ROUTE: string := "/monitor"
  const RESULTS_ROUTE: string := "/monitor/results"
  const BACK_ROUTE: string := "/extract/results"

  /** Why `onProcess` stops before sending, if it does: the stored token, then the report,
      then the RO number are checked, and only the first failing check speaks. */
  function Guard(token: string, nilsonFile: Option<File>, roNumber: string): (m: Option<string>)
    ensures m == Some(NO_TOKEN) <==> token == ""
    ensures m == Some(NO_FILE) <==> token != "" && nilsonFile.None?
    ensures m == Some(NO_RO) <==> token != "" && nilsonFile.Some? && Text.Trim(roNumber) == ""
    ensures m.None? <==> token != "" && nilsonFile.Some? && Text.Trim(roNumber) != ""
  {
    if token == "" then Some(NO_TOKEN)
    else if nilsonFile.None? then Some(NO_FILE)
    else if Text.Trim(roNumber) == "" then Some(NO_RO)
    else None
  }

  /** An RO number of nothing but whitespace counts as missing, and any other passes. */
  lemma BlankRoNumber(token: string, nilsonFile: Option<File>, roNumber: string)
    requires token != "" && nilsonFile.Some?
    ensures Guard(token, nilsonFile, roNumber) == Some(NO_RO) <==> Text.AllSpace(roNumber)
    ensures Guard(token, nilsonFile, roNumber) == None <==> !Text.AllSpace(roNumber)
  {
    Text.TrimEmptyIffBlank(roNumber);
  }

  class Page {
    const store: Session.SessionStore

    var nilsonFile: Option<File>
    var roNumber: string
    /** The busy flag; "Process" is disabled while it is set. */
    var loading: bool
    /** The message shown above the form; nothing is shown while it is "". */
    var err: string
    /** The request awaiting its reply. */
    var pending: Option<Request>
    /** The route the app shows. */
    var route: string

    /** Busy exactly while a request is out, with the error cleared; the request carries a
        token and an RO number that is neither empty nor padded. */
    predicate Valid()
      reads this
    {
      && (loading <==> pending.Some?)
      && (pending.Some? ==>
            && pending.value.RunMonitoring? && err == ""
            && pending.value.token != ""
            && pending.value.roNumber != ""
            && !Text.IsSpace(pending.value.roNumber[0])
            && !Text.IsSpace(pending.value.roNumber[|pending.value.roNumber| - 1]))
    }

    constructor (store: Session.SessionStore)
      ensures this.store == store && Valid()
      ensures nilsonFile == None && roNumber == ""
      ensures !loading && err == "" && pending == None && route == PAGE_ROUTE
    {
      this.store := store;
      nilsonFile := None;
      roNumber := "";
      loading := false;
      err := "";
      pending := None;
      route := PAGE_ROUTE;
    }

    method ChooseFile(f: Option<File>)
      requires Valid()
      modifies this
      ensures Valid() && nilsonFile == f && roNumber == old(roNumber)
      ensures loading == old(loading) && err == old(err) && pending == old(pending) && route == old(route)
    {
      nilsonFile := f;
    }

    method EnterRoNumber(text: string)
      requires Valid()
      modifies this
      ensures Valid() && roNumber == text && nilsonFile == old(nilsonFile)
      ensures loading == old(loading) && err == old(err) && pending == old(pending) && route == old(route)
    {
      roNumber := text;
    }

    /** "Process" clicked: the checks run in order; when all pass, the stored token, the report
        and the trimmed RO number are sent. */
    method Process()
      requires Valid() && !loading
      modifies this
      ensures Valid() && nilsonFile == old(nilsonFile) && roNumber == old(roNumber) && route == old(route)
      ensures var m := Guard(store.Token(), nilsonFile, roNumber);
              && (m.Some? ==> err == m.value && !loading && pending == None)
              && (m.None? ==>
                    && err == "" && loading
                    && pending == Some(RunMonitoring(store.Token(), nilsonFile.value, Text.Trim(roNumber))))
    {
      var token := store.Token();
      var ro := Text.Trim(roNumber);
      var guard := Guard(token, nilsonFile, roNumber);
      err := "";
      if token == "" {
        err := NO_TOKEN;
        return;
      }
      if nilsonFile.None? {
        err := NO_FILE;
        return;
      }
      if ro == "" {
        err := NO_RO;
        return;
      }
      assert guard == None;
      loading := true;
      pending := Some(RunMonitoring(token, nilsonFile.value, ro));
    }

    /** The monitoring reply arrived, or the call failed. On success the job id, the summary
        and both previews are stored and the results page shown; on failure the error is shown,
        nothing is stored and the page stays. */
    method ProcessSettled(reply: Call<MonitorReply>)
      requires Valid() && pending.Some?
      modifies this, store
      ensures Valid() && !loading && pending == None
      ensures nilsonFile == old(nilsonFile) && roNumber == old(roNumber)
      ensures store.extractToken == old(store.extractToken) && store.extractPreview == old(store.extractPreview)
      ensures reply.Answered? ==>
                && store.monitorJob == Some(reply.value.jobId)
                && store.monitorSummary == Some(reply.value.summary)
                && store.monitorUnmatched == Some(reply.value.unmatchedPreview)
                && store.monitorNilson == Some(reply.value.nilsonPreview)
                && route == RESULTS_ROUTE && err == ""
      ensures reply.Failed? ==>
                && unchanged(store) && route == old(route)
                && err == ErrorText(reply.failure)
    {
      match reply {
        case Answered(res) =>
          store.monitorJob := Some(res.jobId);
          store.monitorSummary := Some(res.summary);
          store.monitorUnmatched := Some(res.unmatchedPreview);
          store.monitorNilson := Some(res.nilsonPreview);
          route := RESULTS_ROUTE;
        case Failed(failure) =>
          err := ErrorText(failure);
      }
      loading := false;
      pending := None;
    }

    /** "Go Back". */
    method GoBack()
      requires Valid()
      modifies this
      ensures Valid() && nilsonFile == old(nilsonFile) && roNumber == old(roNumber) && route == BACK_ROUTE
      ensures loading == old(loading) && err == old(err) && pending == old(pending)
    {
      route := BACK_ROUTE;
    }
  }
}
