/** The browser's `sessionStorage` as the pages use it, one field per key. A key that was
    never set is `None`; a key written with `JSON.stringify` holds the value it decodes back
    to, with `None` inside for JSON null. */
module Session {
  import opened Wrappers
  import DataTable
  import Gateway

  class SessionStore {
    /** "extract_token" */
    var extractToken: Option<string>
    /** "extract_preview" */
    var extractPreview: Option<Option<DataTable.PreviewJson>>
    /** "monitor_job" */
    var monitorJob: Option<string>
    /** "monitor_summary" */
    var monitorSummary: Option<Option<Gateway.SummaryJson>>
    /** "monitor_unmatched" */
    var monitorUnmatched: Option<Option<DataTable.PreviewJson>>
    /** "monitor_nilson" */
    var monitorNilson: Option<Option<DataTable.PreviewJson>>

    /** A new tab's empty store. */
    constructor ()
      ensures extractToken == None && extractPreview == None
      ensures monitorJob == None && monitorSummary == None
      ensures monitorUnmatched == None && monitorNilson == None
    {
      extractToken := None;
      extractPreview := None;
      monitorJob := None;
      monitorSummary := None;
      monitorUnmatched := None;
      monitorNilson := None;
    }

    /** `sessionStorage.getItem("extract_token") || ""`. */
    function Token(): (t: string)
      reads this
      ensures t == "" <==> extractToken.None? || extractToken.value == ""
    {
      extractToken.GetOr("")
    }
  }

  /** `raw ? JSON.parse(raw) : null` for a stored JSON value: null when the key is unset. */
  function Parsed<T>(stored: Option<Option<T>>): (v: Option<T>)
    ensures v.Some? <==> stored.Some? && stored.value.Some?
    ensures v.Some? ==> v.value == stored.value.value
  {
    match stored
    case None => None
    case Some(doc) => doc
  }
}
