/** The invoice upload route, src/app/api/process-invoice/route.ts: the
    guards, the handling of the language model's reply (the JSON span, the
    demo fallback, the total, the defaults and the line-item renaming), the
    success and failure responses, the record synced to the store and the
    real-time events. The two model calls, `JSON.parse`, the session, the
    form, the environment and the clock are inputs. */
module ProcessInvoice {
  import opened Common
  import Airtable

  // ---------------------------------------------------------------------
  // The structured record the model returns
  // ---------------------------------------------------------------------

  /** One entry of `line_items`; `unitPrice` holds its `unit_price`. */
  datatype Item = Item(description: string, quantity: real, unitPrice: real, amount: real, currency: Option<string>)

  /** The parsed record; `lineItems` is None when the parsed value has no
      `line_items` list. */
  datatype Structured = Structured(
    clientId: Option<string>,
    company: Option<string>,
    invoiceNumber: Option<string>,
    lineItems: Option<seq<Item>>)

  /** The record used when the reply does not parse. */
  const Demo := Structured(Some("DEMO-001"), Some("Demo Company Inc."), None,
                           Some([Item("Demo Service Item", 1.0, 100.0, 100.0, Some("USD"))]))

  // ---------------------------------------------------------------------
  // The JSON span: `text.match(/\{[\s\S]*\}/)`
  // ---------------------------------------------------------------------

  /** The position of the first `c` in `s`, or -1. */
  function FirstIndexOf(s: string, c: char): (i: int)
    ensures -1 <= i < |s|
    ensures i == -1 <==> c !in s
    ensures i >= 0 ==> s[i] == c && forall k :: 0 <= k < i ==> s[k] != c
  {
    if s == [] then -1
    else if s[0] == c then 0
    else
      var j := FirstIndexOf(s[1..], c);
      assert c in s[1..] ==> c in s;
      if j == -1 then -1 else j + 1
  }

  /** The position of the last `c` in `s`, or -1. */
  function LastIndexOf(s: string, c: char): (i: int)
    ensures -1 <= i < |s|
    ensures i == -1 <==> c !in s
    ensures i >= 0 ==> s[i] == c && forall k :: i < k < |s| ==> s[k] != c
  {
    if s == [] then -1
    else if s[|s| - 1] == c then |s| - 1
    else
      var j := LastIndexOf(s[..|s| - 1], c);
      assert s == s[..|s| - 1] + [s[|s| - 1]];
      j
  }

  /** Some `{` in `text` is followed later by a `}`. */
  predicate HasBracedSpan(text: string) {
    exists i, j :: 0 <= i < j < |text| && text[i] == '{' && text[j] == '}'
  }

  /** The text handed to `JSON.parse`: the greedy match runs from the first
      `{` to the last `}` when a `}` follows some `{`, and the whole reply
      is parsed otherwise. */
  function JsonCandidate(text: string): (cand: string)
    ensures HasBracedSpan(text) ==>
              exists i, j :: && 0 <= i < j < |text| && cand == text[i..j + 1]
                             && text[i] == '{' && (forall k :: 0 <= k < i ==> text[k] != '{')
                             && text[j] == '}' && (forall k :: j < k < |text| ==> text[k] != '}')
    ensures !HasBracedSpan(text) ==> cand == text
  {
    var i := FirstIndexOf(text, '{');
    var j := LastIndexOf(text, '}');
    if i >= 0 && j > i then
      text[i..j + 1]
    else
      text
  }

  /** Extracting the span twice changes nothing. */
  lemma JsonCandidateIdempotent(text: string)
    ensures JsonCandidate(JsonCandidate(text)) == JsonCandidate(text)
  {
    var i := FirstIndexOf(text, '{');
    var j := LastIndexOf(text, '}');
    if i >= 0 && j > i {
      var cand := text[i..j + 1];
      assert cand[0] == '{' && cand[|cand| - 1] == '}';
      assert FirstIndexOf(cand, '{') == 0;
      assert LastIndexOf(cand, '}') == |cand| - 1;
      assert cand[0..|cand|] == cand;
    }
  }

  /** The parsed record: `JSON.parse` of the candidate, or the demo record
      when it fails. */
  function StructuredData(text: string, parse: string -> Option<Structured>): (sd: Structured)
    ensures parse(JsonCandidate(text)).None? ==> sd == Demo
    ensures parse(JsonCandidate(text)).Some? ==> sd == parse(JsonCandidate(text)).value
  {
    match parse(JsonCandidate(text))
    case None => Demo
    case Some(s) => s
  }

  // ---------------------------------------------------------------------
  // Totals and defaults
  // ---------------------------------------------------------------------

  function Amounts(items: seq<Item>): (xs: seq<real>)
    ensures |xs| == |items| && forall k :: 0 <= k < |items| ==> xs[k] == items[k].amount
  {
    seq(|items|, k requires 0 <= k < |items| => items[k].amount)
  }

  /** `line_items.reduce((sum, item) => sum + item.amount, 0)`. */
  function TotalAmount(items: seq<Item>): real {
    Sum(Amounts(items))
  }

  /** The total over two item lists is the sum of their totals. */
  lemma TotalAmountConcat(xs: seq<Item>, ys: seq<Item>)
    ensures TotalAmount(xs + ys) == TotalAmount(xs) + TotalAmount(ys)
  {
    assert Amounts(xs + ys) == Amounts(xs) + Amounts(ys);
    SumConcat(Amounts(xs), Amounts(ys));
  }

  /** A reply that does not parse yields one line item worth 100 USD. */
  lemma ParseFailureGivesDemoTotal(text: string, parse: string -> Option<Structured>)
    requires parse(JsonCandidate(text)).None?
    ensures var sd := StructuredData(text, parse);
            && sd.lineItems.Some? && |sd.lineItems.value| == 1
            && TotalAmount(sd.lineItems.value) == 100.0
            && CurrencyOf(sd.lineItems.value) == "USD"
            && ClientName(sd) == "Demo Company Inc."
  {
    var items := Demo.lineItems.value;
    assert Amounts(items) == [100.0];
    assert Sum([100.0]) == Sum([]) + 100.0;
  }

  /** `line_items[0]?.currency || "USD"`. */
  function CurrencyOf(items: seq<Item>): (c: string)
    ensures |items| > 0 && StrTruthy(items[0].currency) ==> c == items[0].currency.value
    ensures (|items| == 0 || !StrTruthy(items[0].currency)) ==> c == "USD"
  {
    if |items| > 0 then StrOr(items[0].currency, "USD") else "USD"
  }

  /** `company || "Unknown Client"`. */
  function ClientName(sd: Structured): (name: string)
    ensures StrTruthy(sd.company) ==> name == sd.company.value
    ensures !StrTruthy(sd.company) ==> name == "Unknown Client"
  {
    StrOr(sd.company, "Unknown Client")
  }

  /** A line item of the returned invoice. */
  datatype InvoiceLine = InvoiceLine(description: string, quantity: real, unitPrice: real, amount: real)

  /** `line_items.map(...)`: same length and order, `unit_price` renamed to
      `unitPrice`, the other fields copied and the item currency dropped. */
  function ToInvoiceLines(items: seq<Item>): (lines: seq<InvoiceLine>)
    ensures |lines| == |items|
    ensures forall k :: 0 <= k < |items| ==>
              lines[k] == InvoiceLine(items[k].description, items[k].quantity, items[k].unitPrice, items[k].amount)
  {
    seq(|items|, k requires 0 <= k < |items| =>
      InvoiceLine(items[k].description, items[k].quantity, items[k].unitPrice, items[k].amount))
  }

  /** The line amounts of the invoice add up to the invoice total. */
  lemma InvoiceLinesAddUpToTotal(items: seq<Item>)
    ensures var lines := ToInvoiceLines(items);
            Sum(seq(|lines|, k requires 0 <= k < |lines| => lines[k].amount)) == TotalAmount(items)
  {
    var lines := ToInvoiceLines(items);
    assert seq(|lines|, k requires 0 <= k < |lines| => lines[k].amount) == Amounts(items);
  }

  // ---------------------------------------------------------------------
  // Inputs and outputs of the route
  // ---------------------------------------------------------------------

  datatype File = File(name: string)

  /** The form data; `Unreadable` when `request.formData()` throws. */
  datatype Form = Unreadable | Form(file: Option<File>)

  /** A reply of the model API: `ok`; `decodes`, whether `response.json()`
      resolves to a body whose `choices` is neither `undefined` nor `null`
      (otherwise `json()` or `choices[0]` throws); and
      `choices[0]?.message?.content`. */
  datatype Reply = Reply(ok: bool, decodes: bool, content: Option<string>)

  datatype Env = Env(groqKey: Option<string>, airtableKey: Option<string>, airtableBase: Option<string>)

  /** `Date.now()` as an id stamp, the elapsed milliseconds since the start,
      and today's ISO date. */
  datatype Clock = Clock(stamp: string, elapsed: int, date: string)

  datatype Invoice = Invoice(
    id: string,
    invoiceNumber: string,
    clientId: string,
    processedById: string,
    status: string,
    processingTime: int,
    originalFilename: string,
    totalAmount: real,
    currency: string,
    lineItems: seq<InvoiceLine>,
    processedByName: string,
    processedByEmail: string,
    clientName: string,
    clientEmail: string)

  datatype ErrorInvoice = ErrorInvoice(
    id: string, status: string, processingTime: int, originalFilename: string, totalAmount: real, currency: string)

  datatype Response =
    | Unauthorized
    | NoFile
    | ServerError
    | Processed(invoice: Invoice, processingTime: int, extractedText: string, structured: Structured)
    | AiFailed(errorInvoice: ErrorInvoice, processingTime: int)

  /** The HTTP status of each response; both AI outcomes are a 200. */
  function StatusCode(r: Response): int {
    match r
    case Unauthorized => 401
    case NoFile => 400
    case ServerError => 500
    case Processed(_, _, _, _) => 200
    case AiFailed(_, _) => 200
  }

  /** The `success` flag of a 200 response. */
  predicate Success(r: Response) {
    r.Processed?
  }

  /** The real-time events the route emits when a socket server is attached. */
  datatype Event =
    | InvoiceStarted(invoiceNumber: string, processedBy: string)
    | InvoiceProcessed(invoiceId: string, invoiceNumber: string, clientName: string, amount: real,
                       currency: string, processedBy: string, processingTime: int)
    | StatsUpdated(totalRevenue: real, todayRevenue: real, avgProcessingTime: int)
    | InvoiceError(invoiceId: string, processedBy: string, processingTime: int)

  /** The invoice of a successful run. */
  function SuccessInvoice(sd: Structured, items: seq<Item>, user: SessionUser, file: File, clock: Clock): (inv: Invoice)
    ensures inv.totalAmount == TotalAmount(items)
    ensures inv.currency == CurrencyOf(items)
    ensures inv.lineItems == ToInvoiceLines(items)
    ensures inv.clientName == ClientName(sd)
    ensures inv.invoiceNumber == StrOr(sd.invoiceNumber, "INV-" + clock.stamp)
    ensures inv.status == "COMPLETED" && inv.originalFilename == file.name
    ensures inv.processedById == user.id && inv.processedByName == DisplayName(user)
  {
    Invoice("INV-" + clock.stamp, StrOr(sd.invoiceNumber, "INV-" + clock.stamp), "1", user.id, "COMPLETED",
            clock.elapsed, file.name, TotalAmount(items), CurrencyOf(items), ToInvoiceLines(items),
            DisplayName(user), user.email, ClientName(sd), "demo@example.com")
  }

  /** The record handed to the store's `createInvoice`. */
  function SyncInput(sd: Structured, items: seq<Item>, user: SessionUser, file: File, clock: Clock): (input: Airtable.InvoiceInput)
    ensures input.totalAmount == TotalAmount(items) && input.currency == CurrencyOf(items)
    ensures input.invoiceNumber == sd.invoiceNumber && input.clientName == ClientName(sd)
    ensures input.status == "Processed" && input.lineItemsCount == |items|
  {
    Airtable.InvoiceInput(sd.invoiceNumber, ClientName(sd), TotalAmount(items), CurrencyOf(items), "Processed",
                          DisplayName(user), Some(clock.elapsed), Some(file.name), |items|)
  }

  /** The conditions under which the AI block completes: a model key, two
      successful replies that both decode, and a parsed record that has a
      `line_items` list. */
  predicate AiSucceeds(env: Env, extraction: Reply, structuring: Reply, parse: string -> Option<Structured>) {
    && StrTruthy(env.groqKey)
    && extraction.ok && extraction.decodes && structuring.ok && structuring.decodes
    && StructuredData(StrOr(structuring.content, ""), parse).lineItems.Some?
  }

  /** The `POST` handler. `live` says whether a socket server is attached;
      `syncOk` is the store's answer to the sync, which the handler only
      logs. */
  method Post(session: Option<SessionUser>, form: Form, env: Env, live: bool,
              extraction: Reply, structuring: Reply, parse: string -> Option<Structured>,
              clock: Clock, syncOk: bool)
    returns (resp: Response, sync: Option<Request>, events: seq<Event>)
    ensures session.None? ==> resp == Unauthorized && sync.None? && events == []
    ensures session.Some? && form.Unreadable? ==> resp == ServerError && sync.None? && events == []
    ensures session.Some? && form.Form? && form.file.None? ==> resp == NoFile && sync.None? && events == []
    ensures resp.Processed? || resp.AiFailed? ==> session.Some? && form.Form? && form.file.Some?
    ensures session.Some? && form.Form? && form.file.Some? ==>
              (resp.Processed? <==> AiSucceeds(env, extraction, structuring, parse))
              && (resp.AiFailed? <==> !AiSucceeds(env, extraction, structuring, parse))
    ensures resp.Processed? ==>
              var sd := StructuredData(StrOr(structuring.content, ""), parse);
              var items := sd.lineItems.value;
              && resp.invoice == SuccessInvoice(sd, items, session.value, form.file.value, clock)
              && resp.structured == sd
              && resp.extractedText == StrOr(extraction.content, "")
              && resp.processingTime == clock.elapsed
              && (var service := Airtable.CreateService(env.airtableKey, env.airtableBase);
                  sync == if service.Some?
                          then Some(Airtable.CreateInvoiceRequest(service.value,
                                      SyncInput(sd, items, session.value, form.file.value, clock), clock.stamp, clock.date))
                          else None)
              && (live ==> |events| == 3 && events[1].InvoiceProcessed? && events[1].amount == TotalAmount(items)
                           && events[2] == StatsUpdated(TotalAmount(items), TotalAmount(items), clock.elapsed))
              && (!live ==> events == [])
    ensures resp.AiFailed? ==>
              && resp.errorInvoice.status == "ERROR"
              && resp.errorInvoice.totalAmount == 0.0 && resp.errorInvoice.currency == "USD"
              && resp.errorInvoice.originalFilename == form.file.value.name
              && sync.None?
              && (live ==> |events| == 2 && events[1].InvoiceError?)
              && (!live ==> events == [])
  {
    sync := None;
    events := [];
    if session.None? {
      return Unauthorized, None, [];
    }
    var user := session.value;
    if form.Unreadable? {
      return ServerError, None, [];
    }
    if form.file.None? {
      return NoFile, None, [];
    }
    var file := form.file.value;
    if live {
      events := events + [InvoiceStarted("INV-" + clock.stamp, DisplayName(user))];
    }
    // the AI block: every failure below is caught by the same handler
    var failed := false;
    var structuredData := Demo;
    var extractedText := "";
    if !StrTruthy(env.groqKey) || !extraction.ok || !extraction.decodes {
      failed := true;
    } else {
      extractedText := StrOr(extraction.content, "");
      if !structuring.ok || !structuring.decodes {
        failed := true;
      } else {
        var structuredDataText := StrOr(structuring.content, "");
        var parsed := parse(JsonCandidate(structuredDataText));
        if parsed.Some? {
          structuredData := parsed.value;
        } else {
          structuredData := Demo;
        }
        assert structuredData == StructuredData(structuredDataText, parse);
        if structuredData.lineItems.None? {
          failed := true;
        }
      }
    }
    if failed {
      var errorInvoice := ErrorInvoice("ERROR-" + clock.stamp, "ERROR", clock.elapsed, file.name, 0.0, "USD");
      if live {
        events := events + [InvoiceError(errorInvoice.id, DisplayName(user), clock.elapsed)];
      }
      return AiFailed(errorInvoice, clock.elapsed), None, events;
    }
    var items := structuredData.lineItems.value;
    var totalAmount := TotalAmount(items);
    var invoice := SuccessInvoice(structuredData, items, user, file, clock);
    var service := Airtable.CreateService(env.airtableKey, env.airtableBase);
    if service.Some? {
      sync := Some(Airtable.CreateInvoiceRequest(service.value,
                     SyncInput(structuredData, items, user, file, clock), clock.stamp, clock.date));
      if !syncOk {
        // a failed sync is logged and does not affect the response
      }
    }
    var processingTime := clock.elapsed;
    if live {
      events := events + [InvoiceProcessed(invoice.id, invoice.invoiceNumber, ClientName(structuredData),
                                           totalAmount, invoice.currency, DisplayName(user), processingTime)];
      events := events + [StatsUpdated(totalAmount, totalAmount, processingTime)];
    }
    resp := Processed(invoice, processingTime, extractedText, structuredData);
  }

  /** The total the sync writes is the total of the returned invoice. */
  lemma SyncCarriesTheInvoiceTotal(sd: Structured, items: seq<Item>, user: SessionUser, file: File,
                                   clock: Clock, config: Airtable.Config)
    ensures var req := Airtable.CreateInvoiceRequest(config, SyncInput(sd, items, user, file, clock), clock.stamp, clock.date);
            && req.body.Records?
            && req.body.fields["Total Amount"] == Num(SuccessInvoice(sd, items, user, file, clock).totalAmount)
            && req.body.fields["Currency"] == Str(SuccessInvoice(sd, items, user, file, clock).currency)
  {
  }
}
