/** The second spreadsheet-store service, src/lib/airtable/index.ts: field
    dictionaries built by conditional insertion, the filter formulas, the
    factory that falls back to a development mock, and the mock's echoing
    replies. A live call is modelled by the request it would send; the mock
    answers without any request. */
module AirtableIndex {
  import opened Common
  import Airtable

  datatype Tables = Tables(invoices: string, clients: string, analytics: string)

  datatype Config = Config(apiKey: string, baseId: string, tables: Tables)

  /** The live service over a configuration, or `MockAirtableService`. */
  datatype Service = Live(config: Config) | Mock

  const LiveTables := Tables("Invoices", "Clients", "Analytics")

  /** A record as a reply carries it. */
  datatype AirRecord = AirRecord(id: string, fields: map<string, Value>, createdTime: string)

  /** What one service call amounts to: the request a live service sends, or
      the record or list the mock hands back at once. */
  datatype Outcome = Send(req: Request) | Returned(record: AirRecord) | Listed(records: seq<AirRecord>)

  /** The clock as the mock reads it: `Date.now()` and `toISOString()`. */
  datatype Clock = Clock(stamp: string, iso: string)

  /** `mock-${Date.now()}`. */
  function MockId(clock: Clock): string {
    "mock-" + clock.stamp
  }

  // ---------------------------------------------------------------------
  // Factory
  // ---------------------------------------------------------------------

  /** `createAirtableService`: the credentials default to "", and the mock is
      chosen when either is empty. */
  function CreateService(apiKey: Option<string>, baseId: Option<string>): (service: Service)
    ensures service.Mock? <==> !StrTruthy(apiKey) || !StrTruthy(baseId)
    ensures service.Live? ==> service.config == Config(apiKey.value, baseId.value, LiveTables)
  {
    var key := StrOr(apiKey, "");
    var base := StrOr(baseId, "");
    if key == "" || base == "" then Mock else Live(Config(key, base, LiveTables))
  }

  /** The two factories agree on when the store is unavailable: this one
      picks the mock exactly when the other returns no service. */
  lemma FactoriesAgree(apiKey: Option<string>, baseId: Option<string>)
    ensures CreateService(apiKey, baseId).Mock? <==> Airtable.CreateService(apiKey, baseId).None?
  {
  }

  // ---------------------------------------------------------------------
  // Conditional insertion
  // ---------------------------------------------------------------------

  /** `if (o) fields[key] = o`: present exactly for a non-empty string. */
  predicate StrWhenTruthy(fields: map<string, Value>, key: string, o: Option<string>) {
    (key in fields <==> StrTruthy(o)) && (key in fields ==> fields[key] == Str(o.value))
  }

  /** `if (o) fields[key] = o`: present exactly for a non-zero number. */
  predicate NumWhenTruthy(fields: map<string, Value>, key: string, o: Option<real>) {
    (key in fields <==> NumTruthy(o)) && (key in fields ==> fields[key] == Num(o.value))
  }

  /** `if (o !== undefined) fields[key] = o`: present whenever given, 0 included. */
  predicate NumWhenDefined(fields: map<string, Value>, key: string, o: Option<real>) {
    (key in fields <==> o.Some?) && (key in fields ==> fields[key] == Num(o.value))
  }

  // ---------------------------------------------------------------------
  // createInvoice
  // ---------------------------------------------------------------------

  datatype LineItem = LineItem(description: string, quantity: real, unitPrice: real, amount: real)

  datatype InvoiceData = InvoiceData(
    invoiceNumber: Option<string>,
    clientId: Option<string>,
    company: Option<string>,
    totalAmount: real,
    currency: string,
    status: string,
    processingTime: Option<real>,
    originalFilename: Option<string>,
    processedBy: string,
    lineItems: Option<seq<LineItem>>)

  /** `items.map(item => item.description)`. */
  function Descriptions(items: seq<LineItem>): (ds: seq<string>)
    ensures |ds| == |items| && forall i :: 0 <= i < |items| ==> ds[i] == items[i].description
  {
    seq(|items|, i requires 0 <= i < |items| => items[i].description)
  }

  /** The quantities, in item order. */
  function Quantities(items: seq<LineItem>): (qs: seq<real>)
    ensures |qs| == |items| && forall i :: 0 <= i < |items| ==> qs[i] == items[i].quantity
  {
    seq(|items|, i requires 0 <= i < |items| => items[i].quantity)
  }

  /** `lineItems.map(item => item.description).join(', ')`. */
  function DescriptionOf(items: seq<LineItem>): string {
    Join(Descriptions(items), ", ")
  }

  /** `lineItems.reduce((sum, item) => sum + item.quantity, 0)`. */
  function QuantityOf(items: seq<LineItem>): real {
    Sum(Quantities(items))
  }

  /** `lineItems && lineItems.length > 0`. */
  predicate HasItems(data: InvoiceData) {
    data.lineItems.Some? && |data.lineItems.value| > 0
  }

  const InvoiceFieldKeys: set<string> :=
    {"Total Amount", "Currency", "Status", "Processed By", "Invoice Number", "Client ID",
     "Company", "Processing Time", "Original Filename", "Description", "Quantity", "Unit Price"}

  /** The four fields `createInvoice` always sends, and no key outside its own. */
  ghost predicate AlwaysSet(fields: map<string, Value>, data: InvoiceData) {
    && fields.Keys <= InvoiceFieldKeys
    && "Total Amount" in fields && fields["Total Amount"] == Num(data.totalAmount)
    && "Currency" in fields && fields["Currency"] == Str(data.currency)
    && "Status" in fields && fields["Status"] == Str(data.status)
    && "Processed By" in fields && fields["Processed By"] == Str(data.processedBy)
  }

  /** The dictionary `createInvoice` sends: four fields always, each optional
      field only when truthy (so a processing time of 0 is left out), and the
      three line-item aggregates only for a non-empty item list. */
  ghost predicate IsInvoiceFields(fields: map<string, Value>, data: InvoiceData) {
    && AlwaysSet(fields, data)
    && StrWhenTruthy(fields, "Invoice Number", data.invoiceNumber)
    && StrWhenTruthy(fields, "Client ID", data.clientId)
    && StrWhenTruthy(fields, "Company", data.company)
    && NumWhenTruthy(fields, "Processing Time", data.processingTime)
    && StrWhenTruthy(fields, "Original Filename", data.originalFilename)
    && ("Description" in fields <==> HasItems(data))
    && ("Quantity" in fields <==> HasItems(data))
    && ("Unit Price" in fields <==> HasItems(data))
    && (HasItems(data) ==>
          && fields["Description"] == Str(DescriptionOf(data.lineItems.value))
          && fields["Quantity"] == Num(QuantityOf(data.lineItems.value))
          && fields["Unit Price"] == Num(data.lineItems.value[0].unitPrice))
  }

  /** `if (o) fields[key] = o` on a string. */
  function PutStr(fields: map<string, Value>, key: string, o: Option<string>): map<string, Value> {
    if StrTruthy(o) then fields[key := Str(o.value)] else fields
  }

  /** `if (o) fields[key] = o` on a number. */
  function PutNum(fields: map<string, Value>, key: string, o: Option<real>): map<string, Value> {
    if NumTruthy(o) then fields[key := Num(o.value)] else fields
  }

  /** The dictionary after the four required fields and the five optional
      ones. */
  function ScalarDict(data: InvoiceData): map<string, Value> {
    var required := map[
      "Total Amount" := Num(data.totalAmount),
      "Currency" := Str(data.currency),
      "Status" := Str(data.status),
      "Processed By" := Str(data.processedBy)
    ];
    PutStr(PutNum(PutStr(PutStr(PutStr(required,
      "Invoice Number", data.invoiceNumber),
      "Client ID", data.clientId),
      "Company", data.company),
      "Processing Time", data.processingTime),
      "Original Filename", data.originalFilename)
  }

  /** The whole sequence of insertions of `createInvoice`. */
  function InvoiceDict(data: InvoiceData): map<string, Value> {
    var fields := ScalarDict(data);
    if HasItems(data) then
      fields["Description" := Str(DescriptionOf(data.lineItems.value))]
            ["Quantity" := Num(QuantityOf(data.lineItems.value))]
            ["Unit Price" := Num(data.lineItems.value[0].unitPrice)]
    else fields
  }

  lemma ScalarDictRequired(data: InvoiceData)
    ensures AlwaysSet(ScalarDict(data), data)
  {
  }

  lemma ScalarDictOptional(data: InvoiceData)
    ensures var d := ScalarDict(data);
      && StrWhenTruthy(d, "Invoice Number", data.invoiceNumber)
      && StrWhenTruthy(d, "Client ID", data.clientId)
      && StrWhenTruthy(d, "Company", data.company)
      && NumWhenTruthy(d, "Processing Time", data.processingTime)
      && StrWhenTruthy(d, "Original Filename", data.originalFilename)
      && "Description" !in d && "Quantity" !in d && "Unit Price" !in d
  {
  }

  /** The insertions of `createInvoice` meet the description of its
      dictionary. */
  lemma InvoiceDictMeetsSpec(data: InvoiceData)
    ensures IsInvoiceFields(InvoiceDict(data), data)
  {
    ScalarDictRequired(data);
    ScalarDictOptional(data);
  }

  /** The `fields` dictionary of `createInvoice`, built by insertion. */
  method InvoiceFields(data: InvoiceData) returns (fields: map<string, Value>)
    ensures IsInvoiceFields(fields, data)
  {
    fields := map[
      "Total Amount" := Num(data.totalAmount),
      "Currency" := Str(data.currency),
      "Status" := Str(data.status),
      "Processed By" := Str(data.processedBy)
    ];
    if StrTruthy(data.invoiceNumber) {
      fields := fields["Invoice Number" := Str(data.invoiceNumber.value)];
    }
    if StrTruthy(data.clientId) {
      fields := fields["Client ID" := Str(data.clientId.value)];
    }
    if StrTruthy(data.company) {
      fields := fields["Company" := Str(data.company.value)];
    }
    if NumTruthy(data.processingTime) {
      fields := fields["Processing Time" := Num(data.processingTime.value)];
    }
    if StrTruthy(data.originalFilename) {
      fields := fields["Original Filename" := Str(data.originalFilename.value)];
    }
    assert fields == ScalarDict(data);
    if HasItems(data) {
      var items := data.lineItems.value;
      fields := fields["Description" := Str(DescriptionOf(items))];
      fields := fields["Quantity" := Num(QuantityOf(items))];
      fields := fields["Unit Price" := Num(items[0].unitPrice)];
    }
    assert fields == InvoiceDict(data);
    InvoiceDictMeetsSpec(data);
  }

  /** The description of the dictionary leaves no freedom: two dictionaries
      that both meet it for the same input are the same dictionary. */
  lemma InvoiceFieldsDetermined(f1: map<string, Value>, f2: map<string, Value>, data: InvoiceData)
    requires IsInvoiceFields(f1, data) && IsInvoiceFields(f2, data)
    ensures f1 == f2
  {
    assert f1.Keys == f2.Keys;
  }

  /** The aggregates over a longer item list extend those over its prefix:
      the description gains ", " and the new description, the quantity the
      new quantity, and the unit price stays the first item's. */
  lemma {:induction false} LineItemAggregatesExtend(items: seq<LineItem>, item: LineItem)
    requires |items| > 0
    ensures Join(Descriptions(items + [item]), ", ") == Join(Descriptions(items), ", ") + ", " + item.description
    ensures Sum(Quantities(items + [item])) == Sum(Quantities(items)) + item.quantity
    ensures (items + [item])[0].unitPrice == items[0].unitPrice
  {
    assert Descriptions(items + [item]) == Descriptions(items) + [item.description];
    JoinAppend(Descriptions(items), item.description, ", ");
    assert Quantities(items + [item]) == Quantities(items) + [item.quantity];
    SumConcat(Quantities(items), [item.quantity]);
    assert Sum([item.quantity]) == Sum([]) + item.quantity;
  }

  /** A property of the caller's object: present when it was passed. */
  function WithStr(obj: map<string, Value>, key: string, o: Option<string>): map<string, Value> {
    if o.Some? then obj[key := Str(o.value)] else obj
  }

  function WithNum(obj: map<string, Value>, key: string, o: Option<real>): map<string, Value> {
    if o.Some? then obj[key := Num(o.value)] else obj
  }

  /** The object the mock echoes: the caller's own property names, with
      each optional property present only when it was passed. */
  function InvoiceObject(data: InvoiceData): (obj: map<string, Value>)
    ensures "totalAmount" in obj && obj["totalAmount"] == Num(data.totalAmount)
    ensures "lineItems" in obj <==> data.lineItems.Some?
    ensures "Total Amount" !in obj
  {
    var required := map["totalAmount" := Num(data.totalAmount), "currency" := Str(data.currency),
                        "status" := Str(data.status), "processedBy" := Str(data.processedBy)];
    var scalars := WithStr(WithNum(WithStr(WithStr(WithStr(required,
      "invoiceNumber", data.invoiceNumber),
      "clientId", data.clientId),
      "company", data.company),
      "processingTime", data.processingTime),
      "originalFilename", data.originalFilename);
    if data.lineItems.Some? then scalars["lineItems" := Arr(ItemObjects(data.lineItems.value))] else scalars
  }

  function ItemObjects(items: seq<LineItem>): (objs: seq<Value>)
    ensures |objs| == |items|
  {
    seq(|items|, i requires 0 <= i < |items| =>
      Obj(map["description" := Str(items[i].description), "quantity" := Num(items[i].quantity),
              "unitPrice" := Num(items[i].unitPrice), "amount" := Num(items[i].amount)]))
  }

  /** `createInvoice`: a live service POSTs the dictionary to the invoices
      table; the mock returns the input itself as the record's fields. */
  method CreateInvoice(service: Service, data: InvoiceData, clock: Clock) returns (out: Outcome)
    ensures service.Live? ==>
              && out.Send? && out.req.verb == POST && out.req.formula.None?
              && out.req.path == "/" + service.config.tables.invoices
              && out.req.body.Records? && IsInvoiceFields(out.req.body.fields, data)
    ensures service.Mock? ==> out == Returned(AirRecord(MockId(clock), InvoiceObject(data), clock.iso))
  {
    if service.Mock? {
      out := Returned(AirRecord(MockId(clock), InvoiceObject(data), clock.iso));
    } else {
      var fields := InvoiceFields(data);
      out := Send(Request(POST, "/" + service.config.tables.invoices, None, Records(fields)));
    }
  }

  /** `updateInvoice`: the updates go out unchanged as `fields`. */
  method UpdateInvoice(service: Service, id: string, updates: map<string, Value>, clock: Clock) returns (out: Outcome)
    ensures service.Live? ==>
              out == Send(Request(PATCH, "/" + service.config.tables.invoices + "/" + id, None, Fields(updates)))
    ensures service.Mock? ==> out == Returned(AirRecord(id, updates, clock.iso))
  {
    if service.Mock? {
      out := Returned(AirRecord(id, updates, clock.iso));
    } else {
      out := Send(Request(PATCH, "/" + service.config.tables.invoices + "/" + id, None, Fields(updates)));
    }
  }

  // ---------------------------------------------------------------------
  // getInvoices
  // ---------------------------------------------------------------------

  /** `{key} = 'value'`, with the value as it stands (no escaping). */
  function EqualsClause(entry: (string, string)): string {
    "{" + entry.0 + "} = '" + entry.1 + "'"
  }

  /** `Object.entries(filter).map(...)`: one clause per entry, in order. */
  function Clauses(entries: seq<(string, string)>): (cs: seq<string>)
    ensures |cs| == |entries| && forall i :: 0 <= i < |entries| ==> cs[i] == EqualsClause(entries[i])
  {
    seq(|entries|, i requires 0 <= i < |entries| => EqualsClause(entries[i]))
  }

  function FilterFormula(entries: seq<(string, string)>): string {
    Join(Clauses(entries), " AND ")
  }

  /** The formula lists the clauses in entry order: an empty filter object
      gives the empty formula, one entry gives its clause alone, and each
      further entry appends " AND " and its clause. */
  lemma {:induction false} FilterFormulaInEntryOrder(entries: seq<(string, string)>, e: (string, string))
    ensures FilterFormula([]) == ""
    ensures FilterFormula([e]) == EqualsClause(e)
    ensures |entries| > 0 ==> FilterFormula(entries + [e]) == FilterFormula(entries) + " AND " + EqualsClause(e)
  {
    assert Clauses([e]) == [EqualsClause(e)];
    if |entries| > 0 {
      assert Clauses(entries + [e]) == Clauses(entries) + [EqualsClause(e)];
      JoinAppend(Clauses(entries), EqualsClause(e), " AND ");
    }
  }

  /** `getInvoices`: a filter object, even an empty one, adds the query. */
  method GetInvoices(service: Service, filter: Option<seq<(string, string)>>) returns (out: Outcome)
    ensures service.Mock? ==> out == Listed([])
    ensures service.Live? ==>
              && out.Send? && out.req.verb == GET && out.req.body == NoBody
              && out.req.path == "/" + service.config.tables.invoices
              && (filter.None? ==> out.req.formula.None?)
              && (filter.Some? ==> out.req.formula == Some(FilterFormula(filter.value)))
  {
    if service.Mock? {
      out := Listed([]);
    } else {
      var endpoint := "/" + service.config.tables.invoices;
      var query: Option<string> := None;
      if filter.Some? {
        var filterFormula := Join(Clauses(filter.value), " AND ");
        query := Some(filterFormula);
      }
      out := Send(Request(GET, endpoint, query, NoBody));
    }
  }

  // ---------------------------------------------------------------------
  // Clients
  // ---------------------------------------------------------------------

  datatype ClientData = ClientData(name: string, email: Option<string>, phone: Option<string>, address: Option<string>)

  const ClientFieldKeys: set<string> := {"Name", "Total Revenue", "Invoice Count", "Email", "Phone", "Address"}

  /** The dictionary `createClient` sends: the name and zero counters always,
      each contact field only when given and non-empty. */
  ghost predicate IsClientFields(fields: map<string, Value>, data: ClientData) {
    && fields.Keys <= ClientFieldKeys
    && "Name" in fields && fields["Name"] == Str(data.name)
    && "Total Revenue" in fields && fields["Total Revenue"] == Num(0.0)
    && "Invoice Count" in fields && fields["Invoice Count"] == Num(0.0)
    && StrWhenTruthy(fields, "Email", data.email)
    && StrWhenTruthy(fields, "Phone", data.phone)
    && StrWhenTruthy(fields, "Address", data.address)
  }

  method ClientFields(data: ClientData) returns (fields: map<string, Value>)
    ensures IsClientFields(fields, data)
  {
    fields := map["Name" := Str(data.name), "Total Revenue" := Num(0.0), "Invoice Count" := Num(0.0)];
    if StrTruthy(data.email) {
      fields := fields["Email" := Str(data.email.value)];
    }
    if StrTruthy(data.phone) {
      fields := fields["Phone" := Str(data.phone.value)];
    }
    if StrTruthy(data.address) {
      fields := fields["Address" := Str(data.address.value)];
    }
  }

  lemma ClientFieldsDetermined(f1: map<string, Value>, f2: map<string, Value>, data: ClientData)
    requires IsClientFields(f1, data) && IsClientFields(f2, data)
    ensures f1 == f2
  {
    assert f1.Keys == f2.Keys;
  }

  function ClientObject(data: ClientData): (obj: map<string, Value>)
    ensures "name" in obj && obj["name"] == Str(data.name)
    ensures "email" in obj <==> data.email.Some?
    ensures "Name" !in obj && "Total Revenue" !in obj
  {
    WithStr(WithStr(WithStr(map["name" := Str(data.name)],
      "email", data.email), "phone", data.phone), "address", data.address)
  }

  method CreateClient(service: Service, data: ClientData, clock: Clock) returns (out: Outcome)
    ensures service.Live? ==>
              && out.Send? && out.req.verb == POST && out.req.formula.None?
              && out.req.path == "/" + service.config.tables.clients
              && out.req.body.Records? && IsClientFields(out.req.body.fields, data)
    ensures service.Mock? ==> out == Returned(AirRecord(MockId(clock), ClientObject(data), clock.iso))
  {
    if service.Mock? {
      out := Returned(AirRecord(MockId(clock), ClientObject(data), clock.iso));
    } else {
      var fields := ClientFields(data);
      out := Send(Request(POST, "/" + service.config.tables.clients, None, Records(fields)));
    }
  }

  datatype ClientUpdate = ClientUpdate(totalRevenue: Option<real>, invoiceCount: Option<real>, lastInvoiceDate: Option<string>)

  /** The dictionary `updateClient` sends: each counter exactly when it is
      defined (0 included), the last invoice date only when non-empty, and
      nothing else. */
  ghost predicate IsUpdateFields(fields: map<string, Value>, u: ClientUpdate) {
    && fields.Keys <= {"Total Revenue", "Invoice Count", "Last Invoice Date"}
    && NumWhenDefined(fields, "Total Revenue", u.totalRevenue)
    && NumWhenDefined(fields, "Invoice Count", u.invoiceCount)
    && StrWhenTruthy(fields, "Last Invoice Date", u.lastInvoiceDate)
  }

  method UpdateFields(u: ClientUpdate) returns (fields: map<string, Value>)
    ensures IsUpdateFields(fields, u)
  {
    fields := map[];
    if u.totalRevenue.Some? {
      fields := fields["Total Revenue" := Num(u.totalRevenue.value)];
    }
    if u.invoiceCount.Some? {
      fields := fields["Invoice Count" := Num(u.invoiceCount.value)];
    }
    if StrTruthy(u.lastInvoiceDate) {
      fields := fields["Last Invoice Date" := Str(u.lastInvoiceDate.value)];
    }
  }

  lemma UpdateFieldsDetermined(f1: map<string, Value>, f2: map<string, Value>, u: ClientUpdate)
    requires IsUpdateFields(f1, u) && IsUpdateFields(f2, u)
    ensures f1 == f2
  {
    assert f1.Keys == f2.Keys;
  }

  function UpdateObject(u: ClientUpdate): (obj: map<string, Value>)
    ensures "totalRevenue" in obj <==> u.totalRevenue.Some?
    ensures "lastInvoiceDate" in obj <==> u.lastInvoiceDate.Some?
    ensures "Total Revenue" !in obj
  {
    WithStr(WithNum(WithNum(map[],
      "totalRevenue", u.totalRevenue), "invoiceCount", u.invoiceCount), "lastInvoiceDate", u.lastInvoiceDate)
  }

  method UpdateClient(service: Service, id: string, u: ClientUpdate, clock: Clock) returns (out: Outcome)
    ensures service.Live? ==>
              && out.Send? && out.req.verb == PATCH && out.req.formula.None?
              && out.req.path == "/" + service.config.tables.clients + "/" + id
              && out.req.body.Fields? && IsUpdateFields(out.req.body.fields, u)
    ensures service.Mock? ==> out == Returned(AirRecord(id, UpdateObject(u), clock.iso))
  {
    if service.Mock? {
      out := Returned(AirRecord(id, UpdateObject(u), clock.iso));
    } else {
      var fields := UpdateFields(u);
      out := Send(Request(PATCH, "/" + service.config.tables.clients + "/" + id, None, Fields(fields)));
    }
  }

  method GetClients(service: Service) returns (out: Outcome)
    ensures service.Mock? ==> out == Listed([])
    ensures service.Live? ==> out == Send(Request(GET, "/" + service.config.tables.clients, None, NoBody))
  {
    if service.Mock? {
      out := Listed([]);
    } else {
      out := Send(Request(GET, "/" + service.config.tables.clients, None, NoBody));
    }
  }

  // ---------------------------------------------------------------------
  // Analytics
  // ---------------------------------------------------------------------

  datatype AnalyticsData = AnalyticsData(
    totalRevenue: real, invoiceCount: real, avgProcessingTime: real, currencyBreakdown: Option<string>)

  ghost predicate IsAnalyticsFields(fields: map<string, Value>, data: AnalyticsData, iso: string) {
    && fields.Keys <= {"Total Revenue", "Invoice Count", "Average Processing Time", "Date", "Currency Breakdown"}
    && "Total Revenue" in fields && fields["Total Revenue"] == Num(data.totalRevenue)
    && "Invoice Count" in fields && fields["Invoice Count"] == Num(data.invoiceCount)
    && "Average Processing Time" in fields && fields["Average Processing Time"] == Num(data.avgProcessingTime)
    && "Date" in fields && fields["Date"] == Str(DatePart(iso))
    && StrWhenTruthy(fields, "Currency Breakdown", data.currencyBreakdown)
  }

  method AnalyticsFields(data: AnalyticsData, iso: string) returns (fields: map<string, Value>)
    ensures IsAnalyticsFields(fields, data, iso)
  {
    fields := map[
      "Total Revenue" := Num(data.totalRevenue),
      "Invoice Count" := Num(data.invoiceCount),
      "Average Processing Time" := Num(data.avgProcessingTime),
      "Date" := Str(DatePart(iso))
    ];
    if StrTruthy(data.currencyBreakdown) {
      fields := fields["Currency Breakdown" := Str(data.currencyBreakdown.value)];
    }
  }

  function AnalyticsObject(data: AnalyticsData): (obj: map<string, Value>)
    ensures "totalRevenue" in obj && obj["totalRevenue"] == Num(data.totalRevenue)
    ensures "Date" !in obj && "Total Revenue" !in obj
  {
    WithStr(map["totalRevenue" := Num(data.totalRevenue), "invoiceCount" := Num(data.invoiceCount),
                "avgProcessingTime" := Num(data.avgProcessingTime)],
      "currencyBreakdown", data.currencyBreakdown)
  }

  method CreateAnalytics(service: Service, data: AnalyticsData, clock: Clock) returns (out: Outcome)
    ensures service.Live? ==>
              && out.Send? && out.req.verb == POST && out.req.formula.None?
              && out.req.path == "/" + service.config.tables.analytics
              && out.req.body.Records? && IsAnalyticsFields(out.req.body.fields, data, clock.iso)
    ensures service.Mock? ==> out == Returned(AirRecord(MockId(clock), AnalyticsObject(data), clock.iso))
  {
    if service.Mock? {
      out := Returned(AirRecord(MockId(clock), AnalyticsObject(data), clock.iso));
    } else {
      var fields := AnalyticsFields(data, clock.iso);
      out := Send(Request(POST, "/" + service.config.tables.analytics, None, Records(fields)));
    }
  }

  /** `AND(IS_AFTER({Date}, 'start'), IS_BEFORE({Date}, 'end'))`. */
  function RangeFormula(start: string, end: string): string {
    "AND(IS_AFTER({Date}, '" + start + "'), IS_BEFORE({Date}, '" + end + "'))"
  }

  method GetAnalytics(service: Service, dateRange: Option<(string, string)>) returns (out: Outcome)
    ensures service.Mock? ==> out == Listed([])
    ensures service.Live? ==>
              && out.Send? && out.req.verb == GET && out.req.body == NoBody
              && out.req.path == "/" + service.config.tables.analytics
              && (dateRange.None? ==> out.req.formula.None?)
              && (dateRange.Some? ==> out.req.formula == Some(RangeFormula(dateRange.value.0, dateRange.value.1)))
  {
    if service.Mock? {
      out := Listed([]);
    } else {
      var endpoint := "/" + service.config.tables.analytics;
      var query: Option<string> := None;
      if dateRange.Some? {
        query := Some(RangeFormula(dateRange.value.0, dateRange.value.1));
      }
      out := Send(Request(GET, endpoint, query, NoBody));
    }
  }
}
