/** The spreadsheet-store service of src/lib/airtable.ts: the field records
    it writes, the client upsert rule, the filter formulas it sends, and the
    factory that enables it. Each operation is modelled by the request it
    would send; the HTTP exchange itself is not modelled. */
module Airtable {
  import opened Common

  /** Table names; None is a table the configuration leaves undefined. */
  datatype Tables = Tables(invoices: Option<string>, clients: Option<string>, analytics: Option<string>)

  datatype Config = Config(apiKey: string, baseId: string, tables: Tables)

  /** `/${table}`: a template literal renders an undefined name as "undefined". */
  function TablePath(table: Option<string>): string {
    "/" + (if table.Some? then table.value else "undefined")
  }

  // ---------------------------------------------------------------------
  // Factory
  // ---------------------------------------------------------------------

  /** `createAirtableService` as written: the service is built with only the
      invoices table, so the clients and analytics tables are undefined. */
  function CreateServiceAsWritten(apiKey: Option<string>, baseId: Option<string>): (service: Option<Config>)
    ensures service.None? <==> !StrTruthy(apiKey) || !StrTruthy(baseId)
    ensures service.Some? ==> service.value.tables.clients.None? && service.value.tables.analytics.None?
  {
    if !StrTruthy(apiKey) || !StrTruthy(baseId) then None
    else Some(Config(apiKey.value, baseId.value, Tables(Some("Invoices"), None, None)))
  }

  /** `createAirtableService` with the three tables its own log line lists:
      None exactly when a credential is missing. */
  function CreateService(apiKey: Option<string>, baseId: Option<string>): (service: Option<Config>)
    ensures service.None? <==> !StrTruthy(apiKey) || !StrTruthy(baseId)
    ensures service.Some? ==>
              && service.value.apiKey == apiKey.value && service.value.baseId == baseId.value
              && service.value.tables == Tables(Some("Invoices"), Some("Clients"), Some("Analytics"))
  {
    if !StrTruthy(apiKey) || !StrTruthy(baseId) then None
    else Some(Config(apiKey.value, baseId.value, Tables(Some("Invoices"), Some("Clients"), Some("Analytics"))))
  }

  // ---------------------------------------------------------------------
  // Quote escaping in formula literals: `replace(/'/g, "\\'")`
  // ---------------------------------------------------------------------

  function EscapeQuotes(s: string): (r: string)
    ensures |r| >= |s|
  {
    if s == [] then []
    else (if s[0] == '\'' then "\\'" else [s[0]]) + EscapeQuotes(s[1..])
  }

  /** Reads an escaped literal back: a backslash directly before a quote is
      dropped, every other character is kept. This reader is the model's
      own choice; Airtable's formula parser is not part of this model, and a
      parser that also treats a backslash before any other character as an
      escape would read a name containing a backslash differently. */
  function Unescape(r: string): string
    decreases |r|
  {
    if r == [] then []
    else if |r| >= 2 && r[0] == '\\' && r[1] == '\'' then "'" + Unescape(r[2..])
    else [r[0]] + Unescape(r[1..])
  }

  lemma EscapeNeverStartsWithQuote(s: string)
    ensures EscapeQuotes(s) == [] || EscapeQuotes(s)[0] != '\''
  {
  }

  /** Escaping loses nothing: the escaped literal reads back as the name. */
  lemma {:induction false} UnescapeEscape(s: string)
    ensures Unescape(EscapeQuotes(s)) == s
  {
    if s != [] {
      var rest := EscapeQuotes(s[1..]);
      UnescapeEscape(s[1..]);
      if s[0] == '\'' {
        assert EscapeQuotes(s) == "\\'" + rest;
        assert (("\\'" + rest)[2..]) == rest;
      } else {
        var r := [s[0]] + rest;
        assert EscapeQuotes(s) == r;
        EscapeNeverStartsWithQuote(s[1..]);
        assert r[1..] == rest;
      }
      assert [s[0]] + s[1..] == s;
    }
  }

  /** Every quote in an escaped literal is preceded by a backslash. */
  lemma {:induction false} EscapedQuotesArePreceded(s: string)
    ensures forall i :: 0 <= i < |EscapeQuotes(s)| && EscapeQuotes(s)[i] == '\'' ==>
              i > 0 && EscapeQuotes(s)[i - 1] == '\\'
  {
    if s != [] {
      EscapedQuotesArePreceded(s[1..]);
      var head := if s[0] == '\'' then "\\'" else [s[0]];
      var rest := EscapeQuotes(s[1..]);
      assert EscapeQuotes(s) == head + rest;
      forall i | 0 <= i < |head + rest| && (head + rest)[i] == '\''
        ensures i > 0 && (head + rest)[i - 1] == '\\'
      {
        if i >= |head| {
          var j := i - |head|;
          assert rest[j] == '\'';
          assert (head + rest)[i - 1] == rest[j - 1];
        }
      }
    }
  }

  /** `'${v}'` with the value quoted as it stands. */
  function Quoted(v: string): string {
    "'" + v + "'"
  }

  // ---------------------------------------------------------------------
  // createInvoice
  // ---------------------------------------------------------------------

  datatype InvoiceInput = InvoiceInput(
    invoiceNumber: Option<string>,
    clientName: string,
    totalAmount: real,
    currency: string,
    status: string,
    processedBy: string,
    processingTime: Option<int>,
    originalFilename: Option<string>,
    lineItemsCount: int)

  const InvoiceKeys: set<string> :=
    {"Invoice Number", "Total Amount", "Currency", "Status", "Processed By",
     "Processing Time", "Original Filename", "Created At", "Updated At"}

  /** The record `createInvoice` writes. `stamp` is `Date.now()` and `date`
      today's ISO date, both read from the clock by the source. */
  function InvoiceFields(input: InvoiceInput, stamp: string, date: string): (fields: map<string, Value>)
    ensures fields.Keys == InvoiceKeys
    ensures "Client Name" !in fields && "Line Items Count" !in fields
    ensures fields["Invoice Number"] ==
              Str(if StrTruthy(input.invoiceNumber) then input.invoiceNumber.value else "INV-" + stamp)
    ensures fields["Total Amount"] == Num(input.totalAmount)
    ensures fields["Currency"] == Str(input.currency) && fields["Status"] == Str(input.status)
    ensures fields["Processed By"] == Str(input.processedBy)
    ensures fields["Processing Time"] ==
              Num(if input.processingTime.Some? then input.processingTime.value as real else 0.0)
    ensures fields["Original Filename"] == Str(StrOr(input.originalFilename, ""))
    ensures fields["Created At"] == Str(date) && fields["Updated At"] == Str(date)
  {
    map[
      "Invoice Number" := Str(StrOr(input.invoiceNumber, "INV-" + stamp)),
      "Total Amount" := Num(input.totalAmount),
      "Currency" := Str(input.currency),
      "Status" := Str(input.status),
      "Processed By" := Str(input.processedBy),
      "Processing Time" := Num(if input.processingTime.Some? && input.processingTime.value != 0
                               then input.processingTime.value as real else 0.0),
      "Original Filename" := Str(StrOr(input.originalFilename, "")),
      "Created At" := Str(date),
      "Updated At" := Str(date)
    ]
  }

  function CreateInvoiceRequest(config: Config, input: InvoiceInput, stamp: string, date: string): (req: Request)
    ensures req.verb == POST && req.path == TablePath(config.tables.invoices) && req.formula.None?
    ensures req.body == Records(InvoiceFields(input, stamp, date))
  {
    Request(POST, TablePath(config.tables.invoices), None, Records(InvoiceFields(input, stamp, date)))
  }

  // ---------------------------------------------------------------------
  // upsertClient
  // ---------------------------------------------------------------------

  datatype ClientInput = ClientInput(
    name: string,
    email: Option<string>,
    phone: Option<string>,
    address: Option<string>,
    totalRevenue: Option<real>,
    invoiceCount: Option<real>,
    lastInvoiceDate: Option<string>)

  /** A record as the store returns it. */
  datatype StoredRecord = StoredRecord(id: string, fields: map<string, Value>)

  /** `{Name} = '<name>'`, the lookup formula. */
  function NameFormula(name: string): string {
    "{Name} = " + Quoted(EscapeQuotes(name))
  }

  /** The quoted literal in the lookup formula reads back as the client name. */
  lemma NameFormulaQuotesName(name: string)
    ensures var f := NameFormula(name);
            && StartsWith(f, "{Name} = '") && f[|f| - 1] == '\''
            && Unescape(f[|"{Name} = '"| .. |f| - 1]) == name
  {
    var f := NameFormula(name);
    assert f == "{Name} = '" + EscapeQuotes(name) + "'";
    assert f[|"{Name} = '"| .. |f| - 1] == EscapeQuotes(name);
    UnescapeEscape(name);
  }

  /** The first request of `upsertClient`: look the client up by name. */
  function UpsertLookup(config: Config, client: ClientInput): (req: Request)
    ensures req.verb == GET && req.path == TablePath(config.tables.clients) && req.body == NoBody
    ensures req.formula == Some(NameFormula(client.name))
  {
    Request(GET, TablePath(config.tables.clients), Some(NameFormula(client.name)), NoBody)
  }

  const CounterKeys: set<string> := {"Total Revenue", "Invoice Count"}
  const ContactKeys: set<string> := {"Last Invoice Date", "Email", "Phone", "Address"}

  /** Counter fields the store returns are numbers when present. */
  predicate CountersNumeric(fields: map<string, Value>) {
    forall k :: k in CounterKeys && k in fields ==> fields[k].Num?
  }

  /** `existing[key] || 0` for a counter. */
  function Counter(fields: map<string, Value>, key: string): real {
    if key in fields && fields[key].Num? then fields[key].n else 0.0
  }

  /** `incoming || existing[key]`: the incoming value when non-empty;
      otherwise the existing entry stays, or no entry when there is none. */
  function Prefer(fields: map<string, Value>, key: string, incoming: Option<string>): map<string, Value>
  {
    if StrTruthy(incoming) then fields[key := Str(incoming.value)] else fields
  }

  /** The contact field of `client` that fills `key`. */
  function IncomingContact(client: ClientInput, key: string): Option<string> {
    if key == "Last Invoice Date" then client.lastInvoiceDate
    else if key == "Email" then client.email
    else if key == "Phone" then client.phone
    else if key == "Address" then client.address
    else None
  }

  /** `{...existing.fields, ...}` in `upsertClient`: the counters are
      rewritten, then each contact field prefers the incoming value. */
  function MergeClient(existing: map<string, Value>, client: ClientInput): map<string, Value>
    requires CountersNumeric(existing)
  {
    var counted := existing
      ["Total Revenue" := Num(Counter(existing, "Total Revenue") + NumOr(client.totalRevenue, 0.0))]
      ["Invoice Count" := Num(Counter(existing, "Invoice Count") + NumOr(client.invoiceCount, 0.0))];
    Prefer(Prefer(Prefer(Prefer(counted,
      "Last Invoice Date", client.lastInvoiceDate),
      "Email", client.email),
      "Phone", client.phone),
      "Address", client.address)
  }

  /** The four contact layers of the merge, innermost first. */
  lemma MergeClientLayers(existing: map<string, Value>, client: ClientInput)
    returns (counted: map<string, Value>, a: map<string, Value>, b: map<string, Value>, c: map<string, Value>)
    requires CountersNumeric(existing)
    ensures counted == existing
      ["Total Revenue" := Num(Counter(existing, "Total Revenue") + NumOr(client.totalRevenue, 0.0))]
      ["Invoice Count" := Num(Counter(existing, "Invoice Count") + NumOr(client.invoiceCount, 0.0))]
    ensures a == Prefer(counted, "Last Invoice Date", client.lastInvoiceDate)
    ensures b == Prefer(a, "Email", client.email)
    ensures c == Prefer(b, "Phone", client.phone)
    ensures MergeClient(existing, client) == Prefer(c, "Address", client.address)
  {
    counted := existing
      ["Total Revenue" := Num(Counter(existing, "Total Revenue") + NumOr(client.totalRevenue, 0.0))]
      ["Invoice Count" := Num(Counter(existing, "Invoice Count") + NumOr(client.invoiceCount, 0.0))];
    a := Prefer(counted, "Last Invoice Date", client.lastInvoiceDate);
    b := Prefer(a, "Email", client.email);
    c := Prefer(b, "Phone", client.phone);
  }

  /** The merge adds the incoming counters to the stored ones, reading a
      missing value on either side as 0. */
  lemma MergeClientCounters(existing: map<string, Value>, client: ClientInput)
    requires CountersNumeric(existing)
    ensures var r := MergeClient(existing, client);
      && "Total Revenue" in r && "Invoice Count" in r
      && r["Total Revenue"] == Num(Counter(existing, "Total Revenue") + NumOr(client.totalRevenue, 0.0))
      && r["Invoice Count"] == Num(Counter(existing, "Invoice Count") + NumOr(client.invoiceCount, 0.0))
  {
    var counted, a, b, c := MergeClientLayers(existing, client);
  }

  /** A contact field takes the incoming value when it is non-empty, and
      otherwise keeps what was stored, or stays absent when nothing was. */
  lemma MergeClientContact(existing: map<string, Value>, client: ClientInput, k: string)
    requires CountersNumeric(existing)
    requires k in ContactKeys
    ensures var r := MergeClient(existing, client);
      && (StrTruthy(IncomingContact(client, k)) ==> k in r && r[k] == Str(IncomingContact(client, k).value))
      && (!StrTruthy(IncomingContact(client, k)) ==>
            (k in r <==> k in existing) && (k in existing ==> r[k] == existing[k]))
  {
    var counted, a, b, c := MergeClientLayers(existing, client);
    assert k in counted <==> k in existing;
    assert k in counted ==> counted[k] == existing[k];
  }

  /** Every other stored field is kept as it was, and the merge adds no
      field outside the counters and the contact fields. */
  lemma MergeClientKeepsOthers(existing: map<string, Value>, client: ClientInput)
    requires CountersNumeric(existing)
    ensures var r := MergeClient(existing, client);
      && (forall k :: k in existing && k !in CounterKeys && k !in ContactKeys ==>
            k in r && r[k] == existing[k])
      && (forall k :: k in r ==> k in existing || k in CounterKeys || k in ContactKeys)
  {
    var counted, a, b, c := MergeClientLayers(existing, client);
  }

  /** The record created when no client matches: absent strings become ""
      and absent counters 0. `createdDate` is the clock's ISO timestamp. */
  function NewClientFields(client: ClientInput, createdDate: string): (fields: map<string, Value>)
    ensures fields.Keys == {"Name", "Created Date"} + CounterKeys + ContactKeys
    ensures fields["Name"] == Str(client.name) && fields["Created Date"] == Str(createdDate)
    ensures forall k :: k in ContactKeys ==> fields[k] == Str(StrOr(IncomingContact(client, k), ""))
    ensures fields["Total Revenue"] == Num(NumOr(client.totalRevenue, 0.0))
    ensures fields["Invoice Count"] == Num(NumOr(client.invoiceCount, 0.0))
    ensures !NumTruthy(client.totalRevenue) ==> fields["Total Revenue"] == Num(0.0)
  {
    map[
      "Name" := Str(client.name),
      "Email" := Str(StrOr(client.email, "")),
      "Phone" := Str(StrOr(client.phone, "")),
      "Address" := Str(StrOr(client.address, "")),
      "Total Revenue" := Num(NumOr(client.totalRevenue, 0.0)),
      "Invoice Count" := Num(NumOr(client.invoiceCount, 0.0)),
      "Last Invoice Date" := Str(StrOr(client.lastInvoiceDate, "")),
      "Created Date" := Str(createdDate)
    ]
  }

  /** The second request of `upsertClient`, given the records the lookup
      returned: a PATCH of the first match, or a POST of a new record. */
  function UpsertWrite(config: Config, client: ClientInput, found: seq<StoredRecord>, createdDate: string): (req: Request)
    requires |found| > 0 ==> CountersNumeric(found[0].fields)
    ensures |found| > 0 ==>
              req == Request(PATCH, TablePath(config.tables.clients) + "/" + found[0].id, None,
                             Fields(MergeClient(found[0].fields, client)))
    ensures |found| == 0 ==>
              req == Request(POST, TablePath(config.tables.clients), None,
                             Records(NewClientFields(client, createdDate)))
  {
    if |found| > 0 then
      Request(PATCH, TablePath(config.tables.clients) + "/" + found[0].id, None,
              Fields(MergeClient(found[0].fields, client)))
    else
      Request(POST, TablePath(config.tables.clients), None, Records(NewClientFields(client, createdDate)))
  }

  /** Upserting onto a record the store created for the same client adds the
      incoming counters to the stored ones. */
  lemma UpsertTwiceAddsCounters(client: ClientInput, createdDate: string)
    ensures var first := NewClientFields(client, createdDate);
            CountersNumeric(first)
            && "Total Revenue" in MergeClient(first, client)
            && "Invoice Count" in MergeClient(first, client)
            && MergeClient(first, client)["Total Revenue"] == Num(2.0 * NumOr(client.totalRevenue, 0.0))
            && MergeClient(first, client)["Invoice Count"] == Num(2.0 * NumOr(client.invoiceCount, 0.0))
  {
  }

  // ---------------------------------------------------------------------
  // Finding: with the factory as written, the client table is undefined
  // ---------------------------------------------------------------------

  /** With the service `createAirtableService` builds as written, every
      client lookup and client write goes to the table "undefined". */
  lemma AsWrittenClientRequestsHitUndefinedTable(apiKey: string, baseId: string, client: ClientInput, createdDate: string)
    requires apiKey != "" && baseId != ""
    ensures var service := CreateServiceAsWritten(Some(apiKey), Some(baseId));
            && service.Some?
            && UpsertLookup(service.value, client).path == "/undefined"
            && UpsertWrite(service.value, client, [], createdDate).path == "/undefined"
  {
  }

  /** With the corrected factory, client requests go to the Clients table and
      analytics requests to the Analytics table. */
  lemma CorrectedServiceUsesItsTables(apiKey: string, baseId: string, client: ClientInput)
    requires apiKey != "" && baseId != ""
    ensures var service := CreateService(Some(apiKey), Some(baseId));
            && service.Some?
            && UpsertLookup(service.value, client).path == "/Clients"
            && TablePath(service.value.tables.analytics) == "/Analytics"
  {
  }

  /** The missing tables do not touch invoice creation: both factories
      return a service for the same credentials, and it sends the same
      invoice request. */
  lemma FactoriesAgreeOnInvoices(apiKey: Option<string>, baseId: Option<string>, input: InvoiceInput,
                                 stamp: string, date: string)
    ensures CreateServiceAsWritten(apiKey, baseId).Some? <==> CreateService(apiKey, baseId).Some?
    ensures CreateService(apiKey, baseId).Some? ==>
              CreateInvoiceRequest(CreateServiceAsWritten(apiKey, baseId).value, input, stamp, date)
              == CreateInvoiceRequest(CreateService(apiKey, baseId).value, input, stamp, date)
  {
  }

  // ---------------------------------------------------------------------
  // getInvoices
  // ---------------------------------------------------------------------

  datatype InvoiceFilter = InvoiceFilter(
    status: Option<string>,
    clientName: Option<string>,
    dateFrom: Option<string>,
    dateTo: Option<string>)

  function StatusClause(status: string): string { "{Status} = " + Quoted(status) }
  function ClientClause(name: string): string { "{Client Name} = " + Quoted(EscapeQuotes(name)) }
  function FromClause(date: string): string { "{Created Date} >= " + Quoted(date) }
  function ToClause(date: string): string { "{Created Date} <= " + Quoted(date) }

  function Count(b: bool): nat { if b then 1 else 0 }

  /** The conditions `getInvoices` collects, one per non-empty filter, in the
      fixed order status, client name, from-date, to-date. */
  function InvoiceConditions(f: InvoiceFilter): (conds: seq<string>)
    ensures |conds| == Count(StrTruthy(f.status)) + Count(StrTruthy(f.clientName))
                       + Count(StrTruthy(f.dateFrom)) + Count(StrTruthy(f.dateTo))
    ensures StrTruthy(f.status) ==> conds[0] == StatusClause(f.status.value)
    ensures StrTruthy(f.dateTo) ==> conds[|conds| - 1] == ToClause(f.dateTo.value)
    ensures (StrTruthy(f.clientName) && !StrTruthy(f.status)) ==> conds[0] == ClientClause(f.clientName.value)
  {
    (if StrTruthy(f.status) then [StatusClause(f.status.value)] else [])
    + (if StrTruthy(f.clientName) then [ClientClause(f.clientName.value)] else [])
    + (if StrTruthy(f.dateFrom) then [FromClause(f.dateFrom.value)] else [])
    + (if StrTruthy(f.dateTo) then [ToClause(f.dateTo.value)] else [])
  }

  function AndFormula(conds: seq<string>): string {
    "AND(" + Join(conds, ", ") + ")"
  }

  /** `getInvoices`: collects the conditions, wraps them in `AND(...)`, and
      adds a `filterByFormula` query only when there is at least one. */
  method GetInvoices(config: Config, filter: Option<InvoiceFilter>) returns (req: Request)
    ensures req.verb == GET && req.path == TablePath(config.tables.invoices) && req.body == NoBody
    ensures filter.None? ==> req.formula.None?
    ensures filter.Some? && InvoiceConditions(filter.value) == [] ==> req.formula.None?
    ensures filter.Some? && InvoiceConditions(filter.value) != [] ==>
              req.formula == Some(AndFormula(InvoiceConditions(filter.value)))
  {
    var filterFormula := "";
    if filter.Some? {
      var f := filter.value;
      var conditions: seq<string> := [];
      if StrTruthy(f.status) {
        conditions := conditions + [StatusClause(f.status.value)];
      }
      if StrTruthy(f.clientName) {
        conditions := conditions + [ClientClause(f.clientName.value)];
      }
      if StrTruthy(f.dateFrom) {
        conditions := conditions + [FromClause(f.dateFrom.value)];
      }
      if StrTruthy(f.dateTo) {
        conditions := conditions + [ToClause(f.dateTo.value)];
      }
      assert conditions == InvoiceConditions(f);
      if |conditions| > 0 {
        filterFormula := AndFormula(conditions);
      }
    }
    req := Request(GET, TablePath(config.tables.invoices),
                   if filterFormula != "" then Some(filterFormula) else None, NoBody);
  }

  /** A client-name condition carries the name escaped, so the name reads
      back out of it. */
  lemma ClientClauseReadsBack(name: string)
    ensures var c := ClientClause(name);
            StartsWith(c, "{Client Name} = '") && Unescape(c[|"{Client Name} = '"| .. |c| - 1]) == name
  {
    var c := ClientClause(name);
    assert c[|"{Client Name} = '"| .. |c| - 1] == EscapeQuotes(name);
    UnescapeEscape(name);
  }

  // ---------------------------------------------------------------------
  // getAnalytics
  // ---------------------------------------------------------------------

  function DateAtLeast(date: string): string { "{Date} >= " + Quoted(date) }
  function DateAtMost(date: string): string { "{Date} <= " + Quoted(date) }

  /** `getAnalytics`: both bounds give their conjunction, one bound alone
      gives that comparison, and no bound leaves the query off. */
  method GetAnalytics(config: Config, dateFrom: Option<string>, dateTo: Option<string>) returns (req: Request)
    ensures req.verb == GET && req.path == TablePath(config.tables.analytics) && req.body == NoBody
    ensures StrTruthy(dateFrom) && StrTruthy(dateTo) ==>
              req.formula == Some(AndFormula([DateAtLeast(dateFrom.value), DateAtMost(dateTo.value)]))
    ensures StrTruthy(dateFrom) && !StrTruthy(dateTo) ==> req.formula == Some(DateAtLeast(dateFrom.value))
    ensures !StrTruthy(dateFrom) && StrTruthy(dateTo) ==> req.formula == Some(DateAtMost(dateTo.value))
    ensures !StrTruthy(dateFrom) && !StrTruthy(dateTo) ==> req.formula.None?
  {
    var filterFormula := "";
    if StrTruthy(dateFrom) && StrTruthy(dateTo) {
      filterFormula := "AND(" + DateAtLeast(dateFrom.value) + ", " + DateAtMost(dateTo.value) + ")";
      var pair := [DateAtLeast(dateFrom.value), DateAtMost(dateTo.value)];
      assert pair[1..] == [DateAtMost(dateTo.value)];
      assert Join(pair, ", ") == DateAtLeast(dateFrom.value) + ", " + DateAtMost(dateTo.value);
      assert filterFormula == AndFormula(pair);
    } else if StrTruthy(dateFrom) {
      filterFormula := DateAtLeast(dateFrom.value);
    } else if StrTruthy(dateTo) {
      filterFormula := DateAtMost(dateTo.value);
    }
    req := Request(GET, TablePath(config.tables.analytics),
                   if filterFormula != "" then Some(filterFormula) else None, NoBody);
  }
}
