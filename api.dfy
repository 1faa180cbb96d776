/** backend/app.py: the Flask routes and their helpers. The token store of storage.py is a
    pair of maps, the clock that names tokens is a parameter, and the parsing that happens
    between the uploaded files and the matcher is a parameter too. */
module Api {
  import opened Wrappers
  import opened Frames
  import Text
  import Extractor
  import Reconcile

  /** `df_preview`'s default row limit. */
  const PREVIEW_LIMIT: int := 200
  const RO_COLUMN: string := "RO Number"

  /** The JSON `{columns, rows, totalRows}` of `df_preview`; a row is a record by column. */
  datatype Preview = Preview(columns: seq<string>, rows: seq<map<string, Value>>, totalRows: nat)

  datatype Summary = Summary(totalScheduleSpots: nat, totalUnmatched: nat, totalMatchedInNilson: nat)

  /** What a route answers with. `Crash` is an exception Flask turns into status 500. */
  datatype Body =
    | ErrorBody(error: string)
    | SheetsBody(sheets: seq<string>)
    | ExtractBody(token: string, preview: Preview)
    | MonitorBody(jobId: string, summary: Summary, unmatchedPreview: Preview, nilsonPreview: Preview)
    | FileBody(name: string, frame: Frame)
    | Crash(reason: string)

  datatype Response = Response(status: int, body: Body)

  /** An uploaded file part; Werkzeug's FileStorage is falsy when it has no filename. */
  datatype Upload<T> = Upload(filename: string, content: T)

  predicate Given<T>(u: Option<Upload<T>>) {
    u.Some? && u.value.filename != ""
  }

  /** What storage.py keeps: extracted frames by token and monitoring results by job id. */
  datatype JobResult = JobResult(unmatched: WellFormedFrame, nilson: WellFormedFrame, summary: Summary)
  datatype Store = Store(extracts: map<string, WellFormedFrame>, results: map<string, JobResult>)

  /** The parsing between the uploaded tables and the matcher, and the two tables the
      matcher's outcome is written back into. */
  datatype Preparation = Preparation(
    schedule: Frame -> Reconcile.Schedule,
    nilson: Frame -> Reconcile.Nilson,
    tables: (Frame, Frame, Reconcile.Outcome) -> (WellFormedFrame, WellFormedFrame))

  /** The schedule parse keeps one spot per frame row. */
  ghost predicate RowPreserving(prep: Preparation) {
    forall f :: |prep.schedule(f).rows| == |f.rows|
  }

  // ---------------------------------------------------------------------------------------
  // make_json_safe and df_preview

  /** The per-cell conversion of `make_json_safe`: times and datetimes become text. */
  function JsonSafeValue(v: Value): (r: Value)
    ensures !r.Stamp? && !r.Clock?
    ensures !v.Stamp? && !v.Clock? ==> r == v
  {
    match v
    case Stamp(d, t) => Str(DateTimeText(d, t))
    case Clock(t) => Str(TimeRange.TimeText(t))
    case _ => v
  }

  function JsonSafeFrame(df: Frame): (out: Frame)
    requires WellFormed(df)
    ensures out.columns == df.columns && |out.rows| == |df.rows| && WellFormed(out)
    ensures forall r, c :: 0 <= r < |df.rows| && 0 <= c < |df.columns| ==> out.rows[r][c] == JsonSafeValue(df.rows[r][c])
  {
    Frame(df.columns, seq(|df.rows|, r requires 0 <= r < |df.rows| =>
      seq(|df.columns|, c requires 0 <= c < |df.columns| => JsonSafeValue(df.rows[r][c]))))
  }

  /** Converting twice changes nothing more. */
  lemma JsonSafeIdempotent(df: Frame)
    requires WellFormed(df)
    ensures JsonSafeFrame(JsonSafeFrame(df)) == JsonSafeFrame(df)
  {
    var once := JsonSafeFrame(df);
    var twice := JsonSafeFrame(once);
    forall r | 0 <= r < |df.rows|
      ensures twice.rows[r] == once.rows[r]
    {
    }
  }

  /** `make_json_safe`: a copy of the frame, converted column by column. */
  method MakeJsonSafe(df: Frame) returns (out: Frame)
    requires WellFormed(df)
    ensures out == JsonSafeFrame(df)
  {
    out := df;
    var c := 0;
    while c < |df.columns|
      invariant 0 <= c <= |df.columns|
      invariant out.columns == df.columns && |out.rows| == |df.rows|
      invariant forall r :: 0 <= r < |out.rows| ==> |out.rows[r]| == |df.columns|
      invariant forall r, k :: 0 <= r < |df.rows| && 0 <= k < |df.columns| ==>
                  out.rows[r][k] == if k < c then JsonSafeValue(df.rows[r][k]) else df.rows[r][k]
    {
      var rows := out.rows;
      out := out.(rows := seq(|rows|, r requires 0 <= r < |rows| => rows[r][c := JsonSafeValue(rows[r][c])]));
      c := c + 1;
    }
    forall r | 0 <= r < |df.rows|
      ensures out.rows[r] == JsonSafeFrame(df).rows[r]
    {
    }
  }

  /** pandas `head(n)`: the first n rows, or all but the last -n rows when n is negative. */
  function Head<T>(rows: seq<T>, n: int): (h: seq<T>)
    ensures |h| == if n >= 0 then (if n < |rows| then n else |rows|) else (if |rows| + n > 0 then |rows| + n else 0)
    ensures h <= rows
  {
    if n >= 0 then (if n < |rows| then rows[..n] else rows)
    else (if |rows| + n > 0 then rows[..|rows| + n] else [])
  }

  /** `fillna("")`: a missing value becomes the empty string. */
  function FillNa(v: Value): (r: Value)
    ensures r != Null
  {
    if v == Null then Str("") else v
  }

  /** `to_dict(orient="records")` of one row: each column name mapped to its cell (with a
      repeated name, the rightmost cell). */
  function Record(columns: seq<string>, row: seq<Value>): (m: map<string, Value>)
    requires |row| == |columns|
    ensures forall c :: c in m <==> c in columns
  {
    if columns == [] then map[]
    else Record(columns[..|columns| - 1], row[..|row| - 1])[columns[|columns| - 1] := row[|row| - 1]]
  }

  /** The value a record holds for a column is the cell of the column's rightmost position. */
  lemma {:induction false} RecordAt(columns: seq<string>, row: seq<Value>, k: nat)
    requires |row| == |columns| && k < |columns|
    requires forall q :: k < q < |columns| ==> columns[q] != columns[k]
    ensures Record(columns, row)[columns[k]] == row[k]
  {
    var n := |columns| - 1;
    if k < n {
      RecordAt(columns[..n], row[..n], k);
    }
  }

  /** `df_preview(df, limit)`. */
  function DfPreview(df: Frame, limit: int): Preview
    requires WellFormed(df)
  {
    var safe := JsonSafeFrame(df);
    var shown := Head(safe.rows, limit);
    Preview(safe.columns,
            seq(|shown|, r requires 0 <= r < |shown| =>
              Record(safe.columns, seq(|safe.columns|, c requires 0 <= c < |safe.columns| => FillNa(shown[r][c])))),
            |df.rows|)
  }

  /** The cells of row `r` as the preview writes them. */
  function PreviewCells(df: Frame, r: nat): (cells: seq<Value>)
    requires WellFormed(df) && r < |df.rows|
    ensures |cells| == |df.columns|
  {
    seq(|df.columns|, c requires 0 <= c < |df.columns| => FillNa(JsonSafeValue(df.rows[r][c])))
  }

  /** The preview keeps every column, shows the first min(limit, n) rows (never more than
      the total it reports), and its row `r` is the record of the frame's row `r`. */
  lemma PreviewShape(df: Frame, limit: int)
    requires WellFormed(df)
    ensures var p := DfPreview(df, limit);
      && p.columns == df.columns
      && p.totalRows == |df.rows|
      && |p.rows| <= p.totalRows
      && (limit >= 0 ==> |p.rows| == if limit < |df.rows| then limit else |df.rows|)
      && forall r :: 0 <= r < |p.rows| ==> p.rows[r] == Record(df.columns, PreviewCells(df, r))
  {
    var p := DfPreview(df, limit);
    var safe := JsonSafeFrame(df);
    var shown := Head(safe.rows, limit);
    forall r | 0 <= r < |p.rows|
      ensures p.rows[r] == Record(df.columns, PreviewCells(df, r))
    {
      assert shown[r] == safe.rows[r];
      assert seq(|safe.columns|, c requires 0 <= c < |safe.columns| => FillNa(shown[r][c])) == PreviewCells(df, r);
    }
  }

  /** Every shown cell is the frame's cell with missing values replaced by "" and dates and
      times turned into text, so no shown cell is missing or a date or time object. */
  lemma PreviewCellFacts(df: Frame, limit: int, r: nat, k: nat)
    requires WellFormed(df) && r < |DfPreview(df, limit).rows| && k < |df.columns|
    requires forall q :: k < q < |df.columns| ==> df.columns[q] != df.columns[k]
    ensures var v := DfPreview(df, limit).rows[r][df.columns[k]];
      v == FillNa(JsonSafeValue(df.rows[r][k])) && v != Null && !v.Stamp? && !v.Clock?
  {
    PreviewShape(df, limit);
    RecordAt(df.columns, PreviewCells(df, r), k);
  }

  // ---------------------------------------------------------------------------------------
  // to_excel_bytes_from_df

  /** The columns handed to the Excel writer: "Date" takes the values of "Date_dt" when the
      frame has one (a new "Date" column is appended if there was none), then every
      "Date_dt" column is dropped. */
  function ExportFrame(df: Frame): (out: Frame)
    requires WellFormed(df)
    ensures WellFormed(out)
    ensures "Date_dt" !in out.columns
    ensures |out.rows| == |df.rows|
  {
    DropColumn(DateFromStamp(df), "Date_dt")
  }

  /** `export_df["Date"] = export_df["Date_dt"]` when there is a Date_dt column. */
  function DateFromStamp(df: Frame): (out: Frame)
    requires WellFormed(df)
    ensures WellFormed(out) && |out.rows| == |df.rows|
  {
    match ColumnIndex(df.columns, "Date_dt")
    case None => df
    case Some(src) =>
      match ColumnIndex(df.columns, "Date")
      case Some(dst) => Frame(df.columns, seq(|df.rows|, r requires 0 <= r < |df.rows| => df.rows[r][dst := df.rows[r][src]]))
      case None => Frame(df.columns + ["Date"], seq(|df.rows|, r requires 0 <= r < |df.rows| => df.rows[r] + [df.rows[r][src]]))
  }

  /** `drop(columns=[name], errors="ignore")`. */
  function DropColumn(df: Frame, name: string): (out: Frame)
    requires WellFormed(df)
    ensures WellFormed(out) && |out.rows| == |df.rows|
    ensures forall c :: c in out.columns <==> c in df.columns && c != name
    decreases |df.columns|
  {
    if df.columns == [] then df
    else
      var n := |df.columns| - 1;
      var rest := DropColumn(Frame(df.columns[..n], seq(|df.rows|, r requires 0 <= r < |df.rows| => df.rows[r][..n])), name);
      if df.columns[n] == name then rest
      else Frame(rest.columns + [df.columns[n]], seq(|df.rows|, r requires 0 <= r < |df.rows| => rest.rows[r] + [df.rows[r][n]]))
  }

  /** An extracted frame is exported with exactly the ten OUTPUT_HEADERS, its Date column
      holding the parsed dates. */
  lemma ExportOfExtracted(df: Frame)
    requires WellFormed(df) && df.columns == Extractor.OUTPUT_COLUMNS
    ensures ExportFrame(df).columns == Extractor.OUTPUT_HEADERS
    ensures forall r :: 0 <= r < |df.rows| ==> ExportFrame(df).rows[r][6] == df.rows[r][10]
  {
    OutputColumnPositions();
    ExportWithStampLast(df, 6);
  }

  /** A frame whose last column is its only Date_dt and that has a Date column exports its
      other columns, Date holding the Date_dt values. */
  lemma ExportWithStampLast(df: Frame, dst: nat)
    requires WellFormed(df) && |df.columns| > 0
    requires ColumnIndex(df.columns, "Date_dt") == Some(|df.columns| - 1)
    requires ColumnIndex(df.columns, "Date") == Some(dst)
    ensures ExportFrame(df).columns == df.columns[..|df.columns| - 1]
    ensures forall r :: 0 <= r < |df.rows| ==> ExportFrame(df).rows[r][dst] == df.rows[r][|df.columns| - 1]
  {
    var n := |df.columns| - 1;
    var w := DateFromStamp(df);
    DateOverwritten(df, n, dst);
    DropLastColumn(w, "Date_dt");
    forall r | 0 <= r < |df.rows|
      ensures ExportFrame(df).rows[r][dst] == df.rows[r][n]
    {
      assert ExportFrame(df).rows[r] == w.rows[r][..n];
    }
  }

  /** Dropping a column that only the last position holds keeps the other columns in order. */
  lemma DropLastColumn(w: Frame, name: string)
    requires WellFormed(w) && |w.columns| > 0
    requires ColumnIndex(w.columns, name) == Some(|w.columns| - 1)
    ensures var n := |w.columns| - 1;
      DropColumn(w, name) == Frame(w.columns[..n], seq(|w.rows|, r requires 0 <= r < |w.rows| => w.rows[r][..n]))
  {
    var n := |w.columns| - 1;
    var prefix := Frame(w.columns[..n], seq(|w.rows|, r requires 0 <= r < |w.rows| => w.rows[r][..n]));
    DropAbsent(prefix, name);
  }

  /** With both columns present, Date takes Date_dt's value in every row. */
  lemma DateOverwritten(df: Frame, src: nat, dst: nat)
    requires WellFormed(df)
    requires ColumnIndex(df.columns, "Date_dt") == Some(src) && ColumnIndex(df.columns, "Date") == Some(dst)
    ensures DateFromStamp(df).columns == df.columns
    ensures forall r :: 0 <= r < |df.rows| ==> DateFromStamp(df).rows[r] == df.rows[r][dst := df.rows[r][src]]
  {
  }

  lemma OutputColumnPositions()
    ensures ColumnIndex(Extractor.OUTPUT_COLUMNS, "Date_dt") == Some(10)
    ensures ColumnIndex(Extractor.OUTPUT_COLUMNS, "Date") == Some(6)
    ensures Extractor.OUTPUT_COLUMNS[..10] == Extractor.OUTPUT_HEADERS
  {
    var cols := Extractor.OUTPUT_COLUMNS;
    assert cols[..10] == Extractor.OUTPUT_HEADERS;
    forall m | 0 <= m < 10
      ensures cols[m] != "Date_dt"
    {
      assert |cols[m]| != 7 || cols[m][0] != 'D';
    }
    forall m | 0 <= m < 6
      ensures cols[m] != "Date"
    {
      assert |cols[m]| != 4 || cols[m][0] != 'D';
    }
    ColumnIndexAt(cols, "Date_dt", 10);
    ColumnIndexAt(cols, "Date", 6);
  }

  lemma ColumnIndexAt(columns: seq<string>, name: string, k: nat)
    requires k < |columns| && columns[k] == name
    requires forall m :: 0 <= m < k ==> columns[m] != name
    ensures ColumnIndex(columns, name) == Some(k)
  {
  }

  /** Dropping a column the frame does not have returns it unchanged. */
  lemma {:induction false} DropAbsent(df: Frame, name: string)
    requires WellFormed(df) && name !in df.columns
    ensures DropColumn(df, name) == df
    decreases |df.columns|
  {
    if df.columns != [] {
      var n := |df.columns| - 1;
      var prefix := Frame(df.columns[..n], seq(|df.rows|, r requires 0 <= r < |df.rows| => df.rows[r][..n]));
      DropAbsent(prefix, name);
      assert df.columns[..n] + [df.columns[n]] == df.columns;
      forall r | 0 <= r < |df.rows|
        ensures prefix.rows[r] + [df.rows[r][n]] == df.rows[r]
      {
        assert df.rows[r][..n] + [df.rows[r][n]] == df.rows[r];
      }
    }
  }

  /** The worksheet rows (from 2, under the header) whose Date cell gets the "DD/MM/YYYY"
      number format: those holding a truthy value. */
  method DateFormattedRows(sheetFrame: Frame) returns (marked: seq<int>)
    requires WellFormed(sheetFrame)
    ensures forall q :: q in marked <==> "Date" in sheetFrame.columns && 2 <= q < |sheetFrame.rows| + 2
                                         && Truthy(sheetFrame.rows[q - 2][ColumnIndex(sheetFrame.columns, "Date").value])
    ensures forall i, j :: 0 <= i < j < |marked| ==> marked[i] < marked[j]
  {
    marked := [];
    var dateCol := ColumnIndex(sheetFrame.columns, "Date");
    if dateCol.None? {
      return;
    }
    var col := dateCol.value;
    var r := 2;
    while r < |sheetFrame.rows| + 2
      invariant 2 <= r <= |sheetFrame.rows| + 2
      invariant forall q :: q in marked <==> 2 <= q < r && Truthy(sheetFrame.rows[q - 2][col])
      invariant forall i, j :: 0 <= i < j < |marked| ==> marked[i] < marked[j]
      invariant forall i :: 0 <= i < |marked| ==> marked[i] < r
    {
      if Truthy(sheetFrame.rows[r - 2][col]) {
        marked := marked + [r];
      }
      r := r + 1;
    }
  }

  // ---------------------------------------------------------------------------------------
  // Routes

  /** POST /api/schedule/sheets. */
  function ScheduleSheets(file: Option<Upload<Extractor.Workbook>>): (resp: Response)
    ensures resp.status == 400 <==> !Given(file)
    ensures resp.status == 200 ==> resp.body == SheetsBody(Extractor.ValidSheets(file.value.content.sheetNames))
  {
    if !Given(file) then Response(400, ErrorBody("file is required"))
    else Response(200, SheetsBody(Extractor.ValidSheets(file.value.content.sheetNames)))
  }

  /** `put_extract`/`put_result`: the id is the prefix and the clock in milliseconds. */
  function TokenFor(prefix: string, millis: nat): string {
    prefix + Text.NatText(millis)
  }

  /** POST /api/extract. */
  function Extract(store: Store, file: Option<Upload<Extractor.Workbook>>, sheet: string, channel: string, advertiser: string,
                   strptime: string -> Option<Day>, millis: nat): (Response, Store)
  {
    if !Given(file) || sheet == "" then (Response(400, ErrorBody("file and sheet are required")), store)
    else
      match Extractor.Extraction(file.value.content, sheet, channel, advertiser, strptime)
      case Err(e) => (Response(500, Crash(e)), store)
      case Ok(df) =>
        var token := TokenFor("extract:", millis);
        (Response(200, ExtractBody(token, DfPreview(df, PREVIEW_LIMIT))), store.(extracts := store.extracts[token := df]))
  }

  /** The request is refused before any extraction when the file or the sheet is missing;
      a successful call stores the frame under the token it returns, whose preview reports
      every extracted row and shows at most 200. */
  lemma ExtractFacts(store: Store, file: Option<Upload<Extractor.Workbook>>, sheet: string, channel: string, advertiser: string,
                     strptime: string -> Option<Day>, millis: nat)
    ensures var (resp, after) := Extract(store, file, sheet, channel, advertiser, strptime, millis);
      && (resp.status == 400 <==> !Given(file) || sheet == "")
      && (resp.status == 400 ==> after == store)
      && (resp.status == 200 ==>
            && resp.body.ExtractBody?
            && resp.body.token == "extract:" + Text.NatText(millis)
            && resp.body.token in after.extracts
            && Extractor.Extraction(file.value.content, sheet, channel, advertiser, strptime) == Ok(after.extracts[resp.body.token])
            && resp.body.preview.columns == Extractor.OUTPUT_COLUMNS
            && resp.body.preview.totalRows == |after.extracts[resp.body.token].rows|
            && |resp.body.preview.rows| <= PREVIEW_LIMIT)
  {
    var (resp, after) := Extract(store, file, sheet, channel, advertiser, strptime, millis);
    if resp.status == 200 {
      var df := after.extracts[resp.body.token];
      Extractor.ExtractionFacts(file.value.content, sheet, channel, advertiser, strptime);
      PreviewShape(df, PREVIEW_LIMIT);
    }
  }

  /** GET /api/extract/download/<token>. */
  function DownloadExtracted(store: Store, token: string): (resp: Response)
    ensures resp.status == 404 <==> token !in store.extracts
    ensures resp.status != 404 ==> resp.body.FileBody? && resp.body.frame == ExportFrame(store.extracts[token])
  {
    if token !in store.extracts then Response(404, ErrorBody("invalid or expired token"))
    else
      Response(200, FileBody("extracted_schedule.xlsx", ExportFrame(store.extracts[token])))
  }

  /** The number of cells of the RO Number column equal to the RO number. */
  function CountEqual(col: seq<string>, ro: string): nat {
    if col == [] then 0 else CountEqual(col[..|col| - 1], ro) + (if col[|col| - 1] == ro then 1 else 0)
  }

  /** The summary of a finished match. */
  function SummaryOf(scheduleRows: nat, o: Reconcile.Outcome, ro: string): Summary {
    Summary(scheduleRows, |o.unmatched|, CountEqual(o.roColumn, ro))
  }

  /** POST /api/monitor. */
  function Monitor(store: Store, token: string, ro: string, nilson: Option<Upload<Frame>>, prep: Preparation, millis: nat): (Response, Store) {
    if token == "" || ro == "" || !Given(nilson) then (Response(400, ErrorBody("token, ro_number, nilson file are required")), store)
    else if token !in store.extracts then (Response(404, ErrorBody("invalid or expired token")), store)
    else RunMonitor(store, store.extracts[token], nilson.value.content, ro, prep, millis)
  }

  /** The monitor route past its guards: match, summarise, store the result, answer. */
  function RunMonitor(store: Store, scheduleDf: Frame, nilsonDf: Frame, ro: string, prep: Preparation, millis: nat): (out: (Response, Store))
    ensures out.0.status in {200, 500}
    ensures out.0.status == 500
            <==> Reconcile.Reconciliation(prep.schedule(scheduleDf), prep.nilson(nilsonDf), Reconcile.TAG_THEMES_AS_WRITTEN, ro).Err?
    ensures out.0.status == 500 ==> out.1 == store
  {
    match Reconcile.Reconciliation(prep.schedule(scheduleDf), prep.nilson(nilsonDf), Reconcile.TAG_THEMES_AS_WRITTEN, ro)
    case Err(e) => (Response(500, Crash(Reconcile.ErrorText(e))), store)
    case Ok(o) =>
      var (unmatchedDf, updatedDf) := prep.tables(scheduleDf, nilsonDf, o);
      var summary := SummaryOf(|scheduleDf.rows|, o, ro);
      var job := TokenFor("result:", millis);
      (Response(200, MonitorBody(job, summary, DfPreview(unmatchedDf, PREVIEW_LIMIT), DfPreview(updatedDf, PREVIEW_LIMIT))),
       store.(results := store.results[job := JobResult(unmatchedDf, updatedDf, summary)]))
  }

  /** The guards of the monitor route, in order: 400 when a field is missing, 404 when the
      token is not stored; neither touches the store. */
  lemma MonitorGuards(store: Store, token: string, ro: string, nilson: Option<Upload<Frame>>, prep: Preparation, millis: nat)
    ensures var (resp, after) := Monitor(store, token, ro, nilson, prep, millis);
      && (resp.status == 400 <==> token == "" || ro == "" || !Given(nilson))
      && (resp.status == 404 <==> token != "" && ro != "" && Given(nilson) && token !in store.extracts)
      && (resp.status == 400 || resp.status == 404 ==> after == store)
  {
  }

  /** On success the summary counts the schedule's spots, the unmatched records (never more
      than the spots) and exactly the Nilson rows that a spot matched. */
  lemma MonitorSummary(store: Store, scheduleDf: Frame, nilsonDf: Frame, ro: string, prep: Preparation, millis: nat)
    requires RowPreserving(prep) && ro != ""
    ensures var (resp, after) := RunMonitor(store, scheduleDf, nilsonDf, ro, prep, millis);
      resp.status == 200 ==>
        var sched := prep.schedule(scheduleDf);
        var nil := prep.nilson(nilsonDf);
        var s := resp.body.summary;
        && resp.body.MonitorBody?
        && resp.body.jobId == "result:" + Text.NatText(millis)
        && resp.body.jobId in after.results && after.results[resp.body.jobId].summary == s
        && s.totalScheduleSpots == |scheduleDf.rows|
        && s.totalUnmatched <= s.totalScheduleSpots
        && s.totalMatchedInNilson == |set j: nat | j < |nil.rows| && Reconcile.StampedBy(sched, nil, Reconcile.TAG_THEMES_AS_WRITTEN, |sched.rows|, j)|
  {
    var sched := prep.schedule(scheduleDf);
    var nil := prep.nilson(nilsonDf);
    if Reconcile.Reconciliation(sched, nil, Reconcile.TAG_THEMES_AS_WRITTEN, ro).Ok? {
      SummaryCounts(sched, nil, Reconcile.TAG_THEMES_AS_WRITTEN, ro);
    }
  }

  /** The two counts of the summary, in terms of the match, for either theme list. */
  lemma SummaryCounts(sched: Reconcile.Schedule, nil: Reconcile.Nilson, themes: seq<string>, ro: string)
    requires ro != "" && Reconcile.Reconciliation(sched, nil, themes, ro).Ok?
    ensures var o := Reconcile.Reconciliation(sched, nil, themes, ro).value;
      && |o.unmatched| <= |sched.rows|
      && CountEqual(o.roColumn, ro) == |set j: nat | j < |nil.rows| && Reconcile.StampedBy(sched, nil, themes, |sched.rows|, j)|
  {
    var o := Reconcile.Reconciliation(sched, nil, themes, ro).value;
    Reconcile.OutcomeFacts(sched, nil, themes, ro);
    CountEqualIsCard(o.roColumn, ro, |o.roColumn|);
    assert o.roColumn[..|o.roColumn|] == o.roColumn;
    assert (set j: nat | j < |o.roColumn| && o.roColumn[j] == ro)
        == (set j: nat | j < |nil.rows| && Reconcile.StampedBy(sched, nil, themes, |sched.rows|, j));
  }

  /** Counting cell by cell gives the size of the set of matching positions. */
  lemma {:induction false} CountEqualIsCard(col: seq<string>, ro: string, n: nat)
    requires n <= |col|
    ensures CountEqual(col[..n], ro) == |set j: nat | j < n && col[j] == ro|
  {
    if n > 0 {
      CountEqualIsCard(col, ro, n - 1);
      assert col[..n][..n - 1] == col[..n - 1];
      var prev := set j: nat | j < n - 1 && col[j] == ro;
      if col[n - 1] == ro {
        assert (set j: nat | j < n && col[j] == ro) == prev + {n - 1};
      } else {
        assert (set j: nat | j < n && col[j] == ro) == prev;
      }
    }
  }

  /** GET /api/monitor/download/<job_id>/<which>. */
  function DownloadMonitorFiles(store: Store, job: string, which: string): (resp: Response)
    ensures resp.status == 404 <==> job !in store.results
    ensures resp.status == 200 <==> job in store.results && (which == "unmatched" || which == "nilson")
    ensures resp.status == 200 && which == "unmatched" ==> resp.body == FileBody("unmatched_data.csv", store.results[job].unmatched)
    ensures resp.status == 200 && which == "nilson" ==> resp.body == FileBody("nilson.csv", store.results[job].nilson)
    ensures resp.status == 400 ==> resp.body == ErrorBody("which must be unmatched or nilson")
    ensures job in store.results && which != "unmatched" && which != "nilson"
            ==> resp == Response(400, ErrorBody("which must be unmatched or nilson"))
  {
    if job !in store.results then Response(404, ErrorBody("invalid or expired job"))
    else if which == "unmatched" then Response(200, FileBody("unmatched_data.csv", store.results[job].unmatched))
    else if which == "nilson" then Response(200, FileBody("nilson.csv", store.results[job].nilson))
    else Response(400, ErrorBody("which must be unmatched or nilson"))
  }

  /** A token handed out by a successful extraction downloads the stored frame for export. */
  lemma DownloadAfterExtract(store: Store, file: Option<Upload<Extractor.Workbook>>, sheet: string, channel: string, advertiser: string,
                             strptime: string -> Option<Day>, millis: nat)
    requires Extract(store, file, sheet, channel, advertiser, strptime, millis).0.status == 200
    ensures var (resp, after) := Extract(store, file, sheet, channel, advertiser, strptime, millis);
      DownloadExtracted(after, resp.body.token) == Response(200, FileBody("extracted_schedule.xlsx", ExportFrame(after.extracts[resp.body.token])))
  {
    ExtractFacts(store, file, sheet, channel, advertiser, strptime, millis);
  }

  /** ... and gets the monitor route past both of its guards once the RO number and the
      Nilson file are given. */
  lemma MonitorAfterExtract(store: Store, file: Option<Upload<Extractor.Workbook>>, sheet: string, channel: string, advertiser: string,
                            strptime: string -> Option<Day>, millis: nat, ro: string, nilson: Option<Upload<Frame>>, prep: Preparation, later: nat)
    requires Extract(store, file, sheet, channel, advertiser, strptime, millis).0.status == 200
    requires ro != "" && Given(nilson)
    ensures var (resp, after) := Extract(store, file, sheet, channel, advertiser, strptime, millis);
      Monitor(after, resp.body.token, ro, nilson, prep, later).0.status !in {400, 404}
  {
    ExtractFacts(store, file, sheet, channel, advertiser, strptime, millis);
    var (resp, after) := Extract(store, file, sheet, channel, advertiser, strptime, millis);
    MonitorGuards(after, resp.body.token, ro, nilson, prep, later);
  }
}
