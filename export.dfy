/** The CSV export route, src/app/api/export/route.ts: the session and type
    checks, the fixed CSV text for each export type, and the response
    headers. The request body is taken as already decoded. */
module Export {
  import opened Common

  /** `await request.json()`: `Unparsable` when it throws; `kind` is the
      `type` property, None when it is missing or not a string. */
  datatype ExportBody = Unparsable | Json(kind: Option<string>)

  datatype ExportResponse =
    | Unauthorized
    | InvalidType
    | Failed
    | Csv(content: string, contentType: string, disposition: string)

  function StatusCode(r: ExportResponse): int {
    match r
    case Unauthorized => 401
    case InvalidType => 400
    case Failed => 500
    case Csv(_, _, _) => 200
  }

  const ExportTypes: set<string> := {"invoices", "clients", "analytics"}

  // The header and the two rows of each export, field by field; each CSV
  // line of the route is these fields joined by commas.

  const InvoiceHeader := ["Invoice ID", "Client", "Invoice Number", "Total Amount", "Currency", "Status", "Processed By", "Created At"]
  const InvoiceRow1 := ["1", "Demo Client", "INV-001", "1000.00", "USD", "Processed", "Admin User", "2024-01-15"]
  const InvoiceRow2 := ["2", "Sample Company", "INV-002", "2500.00", "USD", "Processed", "Demo User", "2024-01-16"]

  const ClientHeader := ["Client ID", "Name", "Email", "Phone", "Total Revenue", "Invoice Count", "Last Invoice Date"]
  const ClientRow1 := ["1", "Demo Client", "demo@example.com", "+1234567890", "1000.00", "1", "2024-01-15"]
  const ClientRow2 := ["2", "Sample Company", "sample@example.com", "+0987654321", "2500.00", "1", "2024-01-16"]

  const AnalyticsHeader := ["Date", "Total Revenue", "Invoice Count", "Avg Processing Time", "Currency Breakdown"]
  const AnalyticsRow1 := ["2024-01-15", "1000.00", "1", "2.5", "\"USD: 1000.00\""]
  const AnalyticsRow2 := ["2024-01-16", "2500.00", "1", "3.2", "\"USD: 2500.00\""]

  function Table(kind: string): (rows: seq<seq<string>>)
    requires kind in ExportTypes
    ensures |rows| == 3
  {
    if kind == "invoices" then [InvoiceHeader, InvoiceRow1, InvoiceRow2]
    else if kind == "clients" then [ClientHeader, ClientRow1, ClientRow2]
    else [AnalyticsHeader, AnalyticsRow1, AnalyticsRow2]
  }

  /** The number of columns each export declares in its header. */
  function ColumnCount(kind: string): nat {
    if kind == "invoices" then 8 else if kind == "clients" then 7 else 5
  }

  /** One CSV line: the fields joined by commas. */
  function Line(fields: seq<string>): string {
    Join(fields, ",")
  }

  /** The CSV text: each line of the table followed by a newline. */
  function CsvText(kind: string): string
    requires kind in ExportTypes
  {
    var rows := Table(kind);
    Line(rows[0]) + "\n" + Line(rows[1]) + "\n" + Line(rows[2]) + "\n"
  }

  /** `attachment; filename="<type>-export-<date>.csv"`. */
  function Disposition(kind: string, iso: string): string {
    "attachment; filename=\"" + kind + "-export-" + DatePart(iso) + ".csv\""
  }

  /** The handler. `iso` is `new Date().toISOString()`. */
  method Post(session: Option<SessionUser>, body: ExportBody, iso: string) returns (resp: ExportResponse)
    ensures session.None? ==> resp == Unauthorized
    ensures session.Some? && body.Unparsable? ==> resp == Failed
    ensures session.Some? && body.Json? && !(StrTruthy(body.kind) && body.kind.value in ExportTypes) ==>
              resp == InvalidType
    ensures session.Some? && body.Json? && StrTruthy(body.kind) && body.kind.value in ExportTypes ==>
              resp == Csv(CsvText(body.kind.value), "text/csv", Disposition(body.kind.value, iso))
  {
    if session.None? {
      return Unauthorized;
    }
    if body.Unparsable? {
      return Failed;
    }
    var kind := body.kind;
    if !StrTruthy(kind) || kind.value !in ExportTypes {
      return InvalidType;
    }
    var csvContent := "";
    if kind.value == "invoices" {
      csvContent := Line(InvoiceHeader) + "\n";
      csvContent := csvContent + Line(InvoiceRow1) + "\n";
      csvContent := csvContent + Line(InvoiceRow2) + "\n";
    } else if kind.value == "clients" {
      csvContent := Line(ClientHeader) + "\n";
      csvContent := csvContent + Line(ClientRow1) + "\n";
      csvContent := csvContent + Line(ClientRow2) + "\n";
    } else {
      csvContent := Line(AnalyticsHeader) + "\n";
      csvContent := csvContent + Line(AnalyticsRow1) + "\n";
      csvContent := csvContent + Line(AnalyticsRow2) + "\n";
    }
    resp := Csv(csvContent, "text/csv", Disposition(kind.value, iso));
  }

  /** No field contains a comma or a newline. */
  predicate Clean(fields: seq<string>) {
    forall k :: 0 <= k < |fields| ==> ',' !in fields[k] && '\n' !in fields[k]
  }

  lemma InvoiceHeaderIsClean()
    ensures Clean(InvoiceHeader)
  {
  }

  lemma InvoiceRow1IsClean()
    ensures Clean(InvoiceRow1)
  {
  }

  lemma InvoiceRow2IsClean()
    ensures Clean(InvoiceRow2)
  {
  }

  lemma ClientHeaderIsClean()
    ensures Clean(ClientHeader)
  {
  }

  lemma ClientRow1IsClean()
    ensures Clean(ClientRow1)
  {
  }

  lemma ClientRow2IsClean()
    ensures Clean(ClientRow2)
  {
  }

  lemma AnalyticsHeaderIsClean()
    ensures Clean(AnalyticsHeader)
  {
  }

  lemma AnalyticsRow1IsClean()
    ensures Clean(AnalyticsRow1)
  {
  }

  lemma AnalyticsRow2IsClean()
    ensures Clean(AnalyticsRow2)
  {
  }

  /** No field of any export contains a comma or a newline; in particular
      the quoted currency breakdown holds no comma. */
  lemma FieldsAreClean(kind: string)
    requires kind in ExportTypes
    ensures forall r :: 0 <= r < 3 ==> Clean(Table(kind)[r])
  {
    InvoiceHeaderIsClean();
    InvoiceRow1IsClean();
    InvoiceRow2IsClean();
    ClientHeaderIsClean();
    ClientRow1IsClean();
    ClientRow2IsClean();
    AnalyticsHeaderIsClean();
    AnalyticsRow1IsClean();
    AnalyticsRow2IsClean();
  }

  /** Three newline-free lines, each followed by a newline, split back into
      the three lines and the empty remainder. */
  lemma ThreeLinesSplit(l0: string, l1: string, l2: string)
    requires '\n' !in l0 && '\n' !in l1 && '\n' !in l2
    ensures Split(l0 + "\n" + l1 + "\n" + l2 + "\n", '\n') == [l0, l1, l2, ""]
  {
    var lines := [l0, l1, l2, ""];
    assert lines[3..] == [""];
    assert lines[2..] == [l2, ""];
    assert lines[1..] == [l1, l2, ""];
    assert Join(lines[2..], "\n") == l2 + "\n";
    assert Join(lines[1..], "\n") == l1 + "\n" + l2 + "\n";
    assert Join(lines, "\n") == l0 + "\n" + l1 + "\n" + l2 + "\n";
    SplitJoin(lines, '\n');
  }

  /** Each export is its header line and exactly two data rows, each line
      ending in a newline: split on newlines, the text gives the three lines
      and the empty remainder after the last one. */
  lemma CsvHasHeaderAndTwoRows(kind: string)
    requires kind in ExportTypes
    ensures var rows := Table(kind);
            Split(CsvText(kind), '\n') == [Line(rows[0]), Line(rows[1]), Line(rows[2]), ""]
  {
    var rows := Table(kind);
    FieldsAreClean(kind);
    JoinAvoids(rows[0], ",", '\n');
    JoinAvoids(rows[1], ",", '\n');
    JoinAvoids(rows[2], ",", '\n');
    ThreeLinesSplit(Line(rows[0]), Line(rows[1]), Line(rows[2]));
  }

  /** Every line of an export has as many comma-separated fields as its
      header: 8 for invoices, 7 for clients, 5 for analytics. */
  lemma RowsMatchHeader(kind: string)
    requires kind in ExportTypes
    ensures forall r :: 0 <= r < 3 ==> |Split(Line(Table(kind)[r]), ',')| == ColumnCount(kind)
  {
    FieldsAreClean(kind);
    forall r | 0 <= r < 3
      ensures |Split(Line(Table(kind)[r]), ',')| == ColumnCount(kind)
    {
      SplitJoin(Table(kind)[r], ',');
    }
  }

  /** The attachment is named after the type and the day of the stamp. */
  lemma DispositionNamesTheDay(kind: string, day: string, time: string)
    requires 'T' !in day
    ensures Disposition(kind, day + "T" + time) == "attachment; filename=\"" + kind + "-export-" + day + ".csv\""
  {
    DatePartOfStamp(day, time);
  }
}
