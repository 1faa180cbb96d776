/** The extraction form: the user picks a schedule workbook, loads its sheet names, picks a
    sheet, a channel and an advertiser, and extracts. Each handler runs in two halves around
    its `await`: the click (clear the error, check the inputs, set the busy flag, send), and
    the settling of the call (store or report, clear the busy flag). */
module ExtractPage {
  import opened Wrappers
  import opened Gateway
  import Session

  const CHANNELS: seq<string> := ["Tv - Derana", "Tv - Swarnavahini", "Tv - Hiru TV"]
  const ADVERTISERS: seq<string> := ["Seylan Bank", "Singer", "cargills", "Lanka Lubricants Ltd"]

  const NO_FILE: string := "Please choose the schedule Excel file."
  const NO_SHEET: string := "Please select a sheet."

  const PAGE_ROUTE: string := "/extract"
  const RESULTS_ROUTE: string := "/extract/results"
  const START_ROUTE: string := "/start"

  /** Why `onLoadSheets` stops before sending, if it does. */
  function LoadGuard(file: Option<File>): (m: Option<string>)
    ensures m.None? <==> file.Some?
    ensures m.Some? ==> m.value == NO_FILE
  {
    if file.None? then Some(NO_FILE) else None
  }

  /** Why `onExtract` stops before sending, if it does: the file is checked before the
      sheet, and only the first failing check speaks. */
  function ExtractGuard(file: Option<File>, sheet: string): (m: Option<string>)
    ensures m == Some(NO_FILE) <==> file.None?
    ensures m == Some(NO_SHEET) <==> file.Some? && sheet == ""
    ensures m.None? <==> file.Some? && sheet != ""
  {
    if file.None? then Some(NO_FILE)
    else if sheet == "" then Some(NO_SHEET)
    else None
  }

  /** The inputs of the form. */
  datatype Selection = Selection(file: Option<File>, sheets: seq<string>, sheet: string,
                                 channel: string, advertiser: string)

  class Page {
    const store: Session.SessionStore

    var file: Option<File>
    var sheets: seq<string>
    var sheet: string
    var channel: string
    var advertiser: string
    /** The busy flag; both buttons are disabled while it is set. */
    var loading: bool
    /** The message shown above the form; nothing is shown while it is "". */
    var err: string
    /** The request awaiting its reply. */
    var pending: Option<Request>
    /** The route the app shows. */
    var route: string

    /** Busy exactly while a request is out, with the error cleared; every choice is one
        the form offers. */
    predicate Valid()
      reads this
    {
      && (loading <==> pending.Some?)
      && (pending.Some? ==> (pending.value.GetSheets? || pending.value.ExtractSchedule?) && err == "")
      && (sheet == "" || sheet in sheets)
      && channel in CHANNELS && advertiser in ADVERTISERS
    }

    function Inputs(): Selection
      reads this
    {
      Selection(file, sheets, sheet, channel, advertiser)
    }

    constructor (store: Session.SessionStore)
      ensures this.store == store && Valid()
      ensures file == None && sheets == [] && sheet == ""
      ensures channel == "Tv - Derana" && advertiser == "Seylan Bank"
      ensures !loading && err == "" && pending == None && route == PAGE_ROUTE
    {
      this.store := store;
      file := None;
      sheets := [];
      sheet := "";
      channel := CHANNELS[0];
      advertiser := ADVERTISERS[0];
      loading := false;
      err := "";
      pending := None;
      route := PAGE_ROUTE;
    }

    method ChooseFile(f: Option<File>)
      requires Valid()
      modifies this
      ensures Valid() && Inputs() == old(Inputs()).(file := f)
      ensures loading == old(loading) && err == old(err) && pending == old(pending) && route == old(route)
    {
      file := f;
    }

    /** The sheet list offers only the loaded names, and is disabled while there are none. */
    method ChooseSheet(s: string)
      requires Valid() && s in sheets
      modifies this
      ensures Valid() && Inputs() == old(Inputs()).(sheet := s)
      ensures loading == old(loading) && err == old(err) && pending == old(pending) && route == old(route)
    {
      sheet := s;
    }

    method ChooseChannel(c: string)
      requires Valid() && c in CHANNELS
      modifies this
      ensures Valid() && Inputs() == old(Inputs()).(channel := c)
      ensures loading == old(loading) && err == old(err) && pending == old(pending) && route == old(route)
    {
      channel := c;
    }

    method ChooseAdvertiser(a: string)
      requires Valid() && a in ADVERTISERS
      modifies this
      ensures Valid() && Inputs() == old(Inputs()).(advertiser := a)
      ensures loading == old(loading) && err == old(err) && pending == old(pending) && route == old(route)
    {
      advertiser := a;
    }

    /** "Load Sheets" clicked: without a file it only says so; otherwise it asks for the
        workbook's sheet names. */
    method LoadSheets()
      requires Valid() && !loading
      modifies this
      ensures Valid() && Inputs() == old(Inputs()) && route == old(route)
      ensures LoadGuard(file).Some? ==> err == LoadGuard(file).value && !loading && pending == None
      ensures LoadGuard(file).None? ==> err == "" && loading && pending == Some(GetSheets(file.value))
    {
      err := "";
      if file.None? {
        err := NO_FILE;
        return;
      }
      loading := true;
      pending := Some(GetSheets(file.value));
    }

    /** The sheet names arrived, or the call failed. On success the list is replaced and its
        first name selected ("" for none); on failure the error is shown and the list kept. */
    method SheetsSettled(reply: Call<SheetsReply>)
      requires Valid() && pending.Some? && pending.value.GetSheets?
      modifies this
      ensures Valid() && !loading && pending == None && route == old(route)
      ensures file == old(file) && channel == old(channel) && advertiser == old(advertiser)
      ensures reply.Answered? ==>
                && sheets == reply.value.sheets.GetOr([])
                && sheet == (if sheets == [] then "" else sheets[0])
                && err == ""
      ensures reply.Failed? ==>
                sheets == old(sheets) && sheet == old(sheet) && err == ErrorText(reply.failure)
    {
      match reply {
        case Answered(data) =>
          sheets := data.sheets.GetOr([]);
          sheet := if sheets == [] then "" else sheets[0];
        case Failed(failure) =>
          err := ErrorText(failure);
      }
      loading := false;
      pending := None;
    }

    /** "Extract" clicked: the file, then the sheet, is checked; otherwise the form is sent. */
    method Extract()
      requires Valid() && !loading
      modifies this
      ensures Valid() && Inputs() == old(Inputs()) && route == old(route)
      ensures ExtractGuard(file, sheet).Some? ==>
                err == ExtractGuard(file, sheet).value && !loading && pending == None
      ensures ExtractGuard(file, sheet).None? ==>
                && err == "" && loading
                && pending == Some(ExtractSchedule(file.value, sheet, channel, advertiser))
                && sheet in sheets
    {
      err := "";
      if file.None? {
        err := NO_FILE;
        return;
      }
      if sheet == "" {
        err := NO_SHEET;
        return;
      }
      loading := true;
      pending := Some(ExtractSchedule(file.value, sheet, channel, advertiser));
    }

    /** The extraction arrived, or the call failed. On success the token and the preview are
        stored and the results page shown; on failure the error is shown and nothing else
        changes. */
    method ExtractSettled(reply: Call<ExtractReply>)
      requires Valid() && pending.Some? && pending.value.ExtractSchedule?
      modifies this, store
      ensures Valid() && !loading && pending == None && Inputs() == old(Inputs())
      ensures store.monitorJob == old(store.monitorJob) && store.monitorSummary == old(store.monitorSummary)
      ensures store.monitorUnmatched == old(store.monitorUnmatched) && store.monitorNilson == old(store.monitorNilson)
      ensures reply.Answered? ==>
                && store.extractToken == Some(reply.value.token)
                && store.extractPreview == Some(reply.value.preview)
                && route == RESULTS_ROUTE && err == ""
      ensures reply.Failed? ==>
                && unchanged(store) && route == old(route)
                && err == ErrorText(reply.failure)
    {
      match reply {
        case Answered(res) =>
          store.extractToken := Some(res.token);
          store.extractPreview := Some(res.preview);
          route := RESULTS_ROUTE;
        case Failed(failure) =>
          err := ErrorText(failure);
      }
      loading := false;
      pending := None;
    }

    /** "Go Back". */
    method GoBack()
      requires Valid()
      modifies this
      ensures Valid() && Inputs() == old(Inputs()) && route == START_ROUTE
      ensures loading == old(loading) && err == old(err) && pending == old(pending)
    {
      route := START_ROUTE;
    }
  }
}
