# InvoiceSenseAI2 in Dafny

A model of the decision logic of InvoiceSenseAI2. It is a Next.js web app
where employees upload invoice images, a language model extracts the
invoice data, and the results are synced to an Airtable base. The model
covers:

- the edge middleware that guards `/admin` and `/dashboard`, and the
  landing page's role redirect;
- the invoice upload route after the language-model replies: the JSON-span
  extraction, the demo fallback, totals and defaults, the response shapes,
  the sync request and the socket events;
- the two Airtable service layers, `src/lib/airtable.ts` and
  `src/lib/airtable/index.ts`: field records, the client upsert merge,
  filter formulas, the service factories and the mock service;
- the CSV export route;
- three client components: the uploader's file and result lists, the
  invoice table and the user panel.

An HTTP request is modelled as the value it would send:
`Request(verb, path, formula, body)`. Network replies, the clock, the
session, environment variables and `JSON.parse` are inputs.

Modules, one per source file (plus `Common`):

| module | file | source |
|---|---|---|
| `Common` | common.dfy | JavaScript truthiness, ASCII lowercasing and searching, join/split, order-preserving filter, sums, request values |
| `Access` | access.dfy | src/middleware.ts, src/app/page.tsx |
| `ProcessInvoice` | process_invoice.dfy | src/app/api/process-invoice/route.ts |
| `Airtable` | airtable.dfy | src/lib/airtable.ts |
| `AirtableIndex` | airtable_index.dfy | src/lib/airtable/index.ts |
| `Export` | export.dfy | src/app/api/export/route.ts |
| `ImageUploader` | image_uploader.dfy | src/components/ImageUploader.tsx |
| `InvoiceManagement` | invoice_management.dfy | src/components/InvoiceManagement.tsx |
| `UserManagement` | user_management.dfy | src/components/UserManagement.tsx |

The upload route imports `@/lib/airtable`. That resolves to the file
`src/lib/airtable.ts` rather than the directory's `index.ts`, so the route
model syncs through the `Airtable` module. It uses the corrected factory
(see Findings). For invoice creation, the only call the route makes, the
corrected and the as-written factories agree.

## Model

| member | source | states |
|---|---|---|
| Access.Middleware | src/middleware.ts:5-31 | No token: redirect to /auth/signin. ADMIN: always passes. A non-admin on a path starting "/admin" goes to /dashboard. On "/dashboard", EMPLOYEE passes and any other role goes to /auth/signin. These three are the only outcomes, and the request passes exactly when `Admitted` holds. |
| Access.DashboardIsNotAdmin | src/middleware.ts:17-24 | A path starting "/dashboard" never starts "/admin", so the two guards never both fire. |
| Access.MiddlewareDependsOnlyOnPrefixes | src/middleware.ts:6-28 | Two requests with the same token presence, the same role and the same two prefix tests get the same decision. |
| Access.PrefixIsNotASegmentTest | src/middleware.ts:17-28 | The test is a character prefix: an employee is sent away from "/administrator", and another role from "/dashboards". |
| Access.MatchedPrefixIsSegment | src/middleware.ts:39-41 | On the matcher's paths, starting with "/admin" (or "/dashboard") is the same as lying inside that tree. |
| Access.AuthorizedGuardsMiddleware | src/middleware.ts:4-36 | A request the inner function passes satisfies `authorized`, and one `authorized` rejects is one the inner function would send to /auth/signin. In the running program `withAuth` checks `authorized` first and sends a rejected request to next-auth's own sign-in page, so the inner function's `!token` branch (lines 12-14) is shadowed by the wrapper. The two agree on which requests pass. |
| Access.LandingTarget | src/app/page.tsx:12-26 | Nothing happens while loading. Otherwise exactly one target: ADMIN goes to /admin, any other role to /dashboard, no session to /auth/signin. |
| Access.LandingAgreesWithMiddleware | src/app/page.tsx:15-25 | When the token carries the session's role, an ADMIN or EMPLOYEE is sent to a page the middleware admits. Any other role is sent to /dashboard, which redirects to sign-in. |
| ProcessInvoice.FirstIndexOf | src/app/api/process-invoice/route.ts:217 | -1 exactly when the character is absent. Otherwise the position of its first occurrence. |
| ProcessInvoice.LastIndexOf | src/app/api/process-invoice/route.ts:217 | -1 exactly when the character is absent. Otherwise the position of its last occurrence. |
| ProcessInvoice.JsonCandidate | src/app/api/process-invoice/route.ts:217-222 | If a `{` has a `}` after it, the span from the first `{` to the last `}`. Otherwise the whole text. |
| ProcessInvoice.JsonCandidateIdempotent | src/app/api/process-invoice/route.ts:217-222 | Extracting the span from an extracted span changes nothing. |
| ProcessInvoice.StructuredData | src/app/api/process-invoice/route.ts:214-241 | When parsing the candidate fails, the demo record. Otherwise the parsed record. |
| ProcessInvoice.ParseFailureGivesDemoTotal | src/app/api/process-invoice/route.ts:223-244 | A parse failure yields one line item, total 100, currency USD, client "Demo Company Inc.". |
| ProcessInvoice.TotalAmountConcat | src/app/api/process-invoice/route.ts:244 | The total of concatenated item lists is the sum of their totals. |
| ProcessInvoice.CurrencyOf | src/app/api/process-invoice/route.ts:261 | The first item's currency when it is non-empty, else "USD". |
| ProcessInvoice.ClientName | src/app/api/process-invoice/route.ts:247-250 | `company` when it is non-empty, else "Unknown Client". |
| ProcessInvoice.ToInvoiceLines | src/app/api/process-invoice/route.ts:262-267 | Same length and order as the items. Description, quantity and amount are copied; `unitPrice` takes `unit_price`. |
| ProcessInvoice.InvoiceLinesAddUpToTotal | src/app/api/process-invoice/route.ts:244-267 | The invoice's line amounts add up to the invoice total. |
| ProcessInvoice.SuccessInvoice | src/app/api/process-invoice/route.ts:252-276 | The returned invoice: total, currency, line items, client name, invoice number (defaulting to `INV-<stamp>`), status COMPLETED, filename and processor. |
| ProcessInvoice.SyncInput | src/app/api/process-invoice/route.ts:283-293 | The sync payload: the same total and currency, the raw invoice number, status "Processed", and the item count. |
| ProcessInvoice.Post | src/app/api/process-invoice/route.ts:8-390 | No session: 401. Unreadable form: 500. No file: 400. All three happen before any processing. The response is a success exactly when there is a model key, both replies are ok and decode (`.json()` resolves and `choices[0]` can be read), and the parsed record has line items. A success carries the invoice, the extracted text and the structured record. Its sync request is built only when the factory returns a service, and the sync outcome does not affect the response. With a socket server there are three events, and the total goes into the processed and stats events. A failure gives status ERROR, total 0, currency USD, and no sync. |
| ProcessInvoice.SyncCarriesTheInvoiceTotal | src/app/api/process-invoice/route.ts:260-287 | The sync request writes the invoice's own total and currency. |
| Airtable.CreateServiceAsWritten | src/lib/airtable.ts:251-276 | None exactly when the key or base id is falsy. Otherwise the config holds only the invoices table. |
| Airtable.CreateService | src/lib/airtable.ts:251-276 | Corrected factory: the same null check, and the config names all three tables. |
| Airtable.EscapeQuotes | src/lib/airtable.ts:192 | `replace(/'/g, "\\'")`: never shorter than its input. |
| Airtable.UnescapeEscape | src/lib/airtable.ts:101 | The model's reader, which drops a backslash only before a quote, gives back the original name. The reader is a modelling choice, not Airtable's parser. |
| Airtable.EscapedQuotesArePreceded | src/lib/airtable.ts:192 | Every quote in the escaped text is preceded by a backslash. |
| Airtable.EscapeNeverStartsWithQuote | src/lib/airtable.ts:101 | The escaped text never starts with a quote. |
| Airtable.InvoiceFields | src/lib/airtable.ts:66-78 | Exactly the nine keys. Invoice Number defaults to `INV-<stamp>`, Processing Time to 0, Original Filename to "". Created/Updated At are the date. `clientName` and `lineItemsCount` are never written. |
| Airtable.CreateInvoiceRequest | src/lib/airtable.ts:82-85 | A POST to the invoices table, with no query, carrying the invoice fields. |
| Airtable.UpsertLookup | src/lib/airtable.ts:101-104 | A GET on the clients table with the escaped name formula. |
| Airtable.NameFormulaQuotesName | src/lib/airtable.ts:101 | The lookup formula is `{Name} = '…'`, and its quoted literal reads back as the name. |
| Airtable.MergeClientCounters | src/lib/airtable.ts:110-112 | Total Revenue and Invoice Count become stored plus incoming, with a missing value counted as 0. |
| Airtable.MergeClientContact | src/lib/airtable.ts:113-116 | Last Invoice Date, Email, Phone and Address take a non-empty incoming value. Otherwise they keep the stored value, or stay absent. |
| Airtable.MergeClientKeepsOthers | src/lib/airtable.ts:110 | Every other stored field is kept, and no key outside the counters and contacts is added. |
| Airtable.MergeClientLayers | src/lib/airtable.ts:109-117 | The merged record is the stored record with the counters updated, then each contact field preferred in turn. |
| Airtable.NewClientFields | src/lib/airtable.ts:127-138 | Name, the contacts (defaulting to ""), the counters (defaulting to 0), and Created Date. |
| Airtable.UpsertWrite | src/lib/airtable.ts:106-146 | With a match: a PATCH of the merged fields to the first record. Without one: a POST of the new record. |
| Airtable.UpsertTwiceAddsCounters | src/lib/airtable.ts:106-138 | Upserting onto the record created for the same client doubles the counters. |
| Airtable.AsWrittenClientRequestsHitUndefinedTable | src/lib/airtable.ts:269-275 | With the factory as written, client lookups and writes go to the path "/undefined". |
| Airtable.FactoriesAgreeOnInvoices | src/lib/airtable.ts:251-276 | Both factories give a service for the same credentials, and both send the same invoice request. |
| Airtable.CorrectedServiceUsesItsTables | src/lib/airtable.ts:262-266 | With the corrected factory, client requests go to "/Clients" and analytics to "/Analytics". |
| Airtable.InvoiceConditions | src/lib/airtable.ts:185-201 | One condition per truthy filter, in the order status, client name (escaped), date from (>=), date to (<=). |
| Airtable.GetInvoices | src/lib/airtable.ts:182-213 | No filter, or no conditions: no `filterByFormula`. Otherwise `AND(c1, c2, ...)` over the conditions. |
| Airtable.ClientClauseReadsBack | src/lib/airtable.ts:192 | The client-name condition's literal reads back as the name. |
| Airtable.GetAnalytics | src/lib/airtable.ts:217-233 | Both dates: `AND(>=, <=)`. One date: that single comparison. Neither: no filter. |
| AirtableIndex.CreateService | src/lib/airtable/index.ts:244-262 | The mock service exactly when the key or base id is empty. Otherwise a live service with the given credentials and the three tables. |
| AirtableIndex.FactoriesAgree | src/lib/airtable/index.ts:255-259 | The mock is chosen exactly when the other factory returns null. |
| AirtableIndex.InvoiceFields | src/lib/airtable/index.ts:75-106 | Always Total Amount, Currency, Status and Processed By. Invoice Number, Client ID, Company, Processing Time and Original Filename are present only when truthy, so a processing time of 0 is left out. For a non-empty item list there is a Description (joined by ", "), a Quantity (the sum) and a Unit Price (the first item's); with no items none of the three is set. |
| AirtableIndex.InvoiceDictMeetsSpec | src/lib/airtable/index.ts:75-106 | The chain of conditional insertions meets that description. |
| AirtableIndex.ScalarDictOptional | src/lib/airtable/index.ts:82-100 | Each optional field is present exactly when truthy, and no aggregate is set before the item step. |
| AirtableIndex.ScalarDictRequired | src/lib/airtable/index.ts:75-80 | The four required fields hold the input values. |
| AirtableIndex.InvoiceFieldsDetermined | src/lib/airtable/index.ts:75-106 | The description fixes the dictionary completely. |
| AirtableIndex.LineItemAggregatesExtend | src/lib/airtable/index.ts:103-105 | One more item appends ", " and its description and adds its quantity. The unit price stays the first item's. |
| AirtableIndex.Descriptions | src/lib/airtable/index.ts:103 | The descriptions, item by item. |
| AirtableIndex.Quantities | src/lib/airtable/index.ts:104 | The quantities, item by item. |
| AirtableIndex.CreateInvoice | src/lib/airtable/index.ts:274-281 | Live: a POST of the fields to the invoices table. Mock: echoes the input as `fields`, with id `mock-<stamp>`. |
| AirtableIndex.InvoiceObject | src/lib/airtable/index.ts:274-281 | The echoed input keeps the input's own property names (for example `totalAmount`), not the store's field names. |
| AirtableIndex.UpdateInvoice | src/lib/airtable/index.ts:302-305 | Live: a PATCH to the record. Mock: echoes the updates under the given id. |
| AirtableIndex.Clauses | src/lib/airtable/index.ts:129-130 | One `{k} = 'v'` clause per entry, in entry order. |
| AirtableIndex.FilterFormulaInEntryOrder | src/lib/airtable/index.ts:129-131 | The clauses joined by " AND ": empty for no entries, the clause itself for one, and each further entry appends " AND " and its clause. |
| AirtableIndex.GetInvoices | src/lib/airtable/index.ts:125-137 | Live: the formula query only when a filter is given. Mock: an empty list. |
| AirtableIndex.ClientFields | src/lib/airtable/index.ts:146-162 | Name always, Total Revenue and Invoice Count at 0. Email, Phone and Address only when given and non-empty. |
| AirtableIndex.ClientFieldsDetermined | src/lib/airtable/index.ts:146-162 | That description fixes the dictionary. |
| AirtableIndex.ClientObject | src/lib/airtable/index.ts:312-319 | The echoed client input keeps `name`, and has `email` only when given. |
| AirtableIndex.CreateClient | src/lib/airtable/index.ts:312-319 | Live: a POST of the client fields. Mock: an echo. |
| AirtableIndex.UpdateFields | src/lib/airtable/index.ts:177-189 | Each counter is set exactly when defined, so 0 is kept. Last Invoice Date is set only when non-empty. No other keys. |
| AirtableIndex.UpdateFieldsDetermined | src/lib/airtable/index.ts:177-189 | That description fixes the dictionary. |
| AirtableIndex.UpdateObject | src/lib/airtable/index.ts:283-290 | The echoed update has a property exactly for each given value. |
| AirtableIndex.UpdateClient | src/lib/airtable/index.ts:283-290 | Live: a PATCH of the update fields. Mock: echoes the updates under the id. |
| AirtableIndex.GetClients | src/lib/airtable/index.ts:199-202 | Live: a GET on the clients table. Mock: an empty list. |
| AirtableIndex.AnalyticsFields | src/lib/airtable/index.ts:211-220 | The three numbers, Date as the date part of the stamp, and Currency Breakdown only when non-empty. |
| AirtableIndex.AnalyticsObject | src/lib/airtable/index.ts:292-299 | The echoed analytics input keeps its own property names. |
| AirtableIndex.CreateAnalytics | src/lib/airtable/index.ts:292-299 | Live: a POST of the analytics fields. Mock: an echo. |
| AirtableIndex.GetAnalytics | src/lib/airtable/index.ts:230-240 | Live: the range formula only when a range is given. Mock: an empty list. |
| Export.Post | src/app/api/export/route.ts:5-58 | No session: 401. Unparsable body: 500. Missing or unknown type: 400. Otherwise the type's CSV text, a "text/csv" content type, and the attachment disposition. |
| Export.Table | src/app/api/export/route.ts:21-39 | Each export type has three lines: a header and two rows. |
| Export.FieldsAreClean | src/app/api/export/route.ts:23-37 | No field of any export contains a comma or a newline; this includes the quoted currency breakdown. |
| Export.CsvHasHeaderAndTwoRows | src/app/api/export/route.ts:21-39 | Split on newlines, each export is its header, two rows, and the empty rest after the final newline. |
| Export.ThreeLinesSplit | src/app/api/export/route.ts:23-25 | Three newline-free lines, each ending in a newline, split back into those lines. |
| Export.RowsMatchHeader | src/app/api/export/route.ts:23-37 | Every line has as many comma-separated fields as its header: 8, 7 and 5. |
| Export.DispositionNamesTheDay | src/app/api/export/route.ts:45 | The attachment is named `<type>-export-<date>.csv` with the stamp's date. |
| ImageUploader.Uploader.OnDrop | src/components/ImageUploader.tsx:28-36 | The accepted files replace the list and the results are cleared, also while a run is pending. The captured run is untouched. |
| ImageUploader.Uploader.RemoveFile | src/components/ImageUploader.tsx:48-51 | Position `index` is removed from both lists, also while a run is pending. Aligned lists stay aligned; the captured run is untouched. |
| ImageUploader.RemoveAtKeepsOthers | src/components/ImageUploader.tsx:48-51 | The other elements stay, in order. An index outside the list changes nothing. |
| ImageUploader.ResultFor | src/components/ImageUploader.tsx:80-92 | A success reply records its data. Otherwise a failure with the server's error, or "Processing failed". |
| ImageUploader.ResultsFor | src/components/ImageUploader.tsx:64-95 | One result per reply, in order. |
| ImageUploader.ThrowIndex | src/components/ImageUploader.tsx:64-103 | The first reply that threw, or the number of replies. Every earlier reply arrived. |
| ImageUploader.ThrowIndexIsFirstThrow | src/components/ImageUploader.tsx:64-103 | A position whose earlier replies all arrived, and which threw or is the end, is the throw index. |
| ImageUploader.Uploader.BeginUpload | src/components/ImageUploader.tsx:53-66 | No files: only an error toast. Otherwise a run starts: `uploading`, empty results, and the current files captured as the run. |
| ImageUploader.Uploader.ReceiveReply | src/components/ImageUploader.tsx:66-111 | One settled request of the run. An answer adds the result and toast of the captured file it belongs to; after the last captured file the results become the run's list, `uploading` ends and one clearing timeout is scheduled. A throw gives one failure per captured file and the batch error toast. The new results describe the captured files, whatever the file list has become. |
| ImageUploader.AllFailed | src/components/ImageUploader.tsx:103-108 | One "Processing failed" failure per file. |
| ImageUploader.Uploader.UploadFiles | src/components/ImageUploader.tsx:53-112 | A run during which no drop, remove or timeout arrives. No files: only an error toast; `uploading` and the results are untouched. Normal completion: one result per file in file order, and a clearing timeout is scheduled. A throw: the toasts of the files before it, then one failure per file. `uploading` is false afterwards, and the lists are aligned. |
| ImageUploader.Uploader.TimerFires | src/components/ImageUploader.tsx:98-101 | A scheduled timeout clears the files and leaves the results, keeping a pending run's state. |
| ImageUploader.RemoveDuringRunAsWritten | src/components/ImageUploader.tsx:48-95 | Files [a, b], b removed during a's request: the run ends with one file and two results. |
| ImageUploader.DropDuringRunAsWritten | src/components/ImageUploader.tsx:28-95 | Files [a, b], c dropped during a's request: c's row shows a's success, and there are two results for one file. |
| ImageUploader.Uploader.GuardedOnDrop | src/components/ImageUploader.tsx:28-46 | Corrected: a drop while a run is pending changes nothing; otherwise as `onDrop`. It keeps the alignment invariant. |
| ImageUploader.Uploader.GuardedRemoveFile | src/components/ImageUploader.tsx:48-51 | Corrected: a remove while a run is pending changes nothing; otherwise as `removeFile`. It keeps the alignment invariant. |
| ImageUploader.Uploader.ReplayGuarded | src/components/ImageUploader.tsx:28-112 | Corrected: after any interleaving of drops, removes, clicks, replies and timeouts, with the drop zone and remove buttons disabled during a run, files and results are aligned. |
| ImageUploader.TallyAddsUp | src/components/ImageUploader.tsx:394-408 | The successful and failed counts add up to the total shown. |
| ImageUploader.SuccessCountIsSuccessReplies | src/components/ImageUploader.tsx:80-95 | After a completed run, the successful count is the number of success replies. |
| ImageUploader.ThrownRunHasNoSuccess | src/components/ImageUploader.tsx:103-108 | After a run that threw, nothing is counted successful and every file is counted failed. |
| InvoiceManagement.VisibleIsTheMatchingSubsequence | src/components/InvoiceManagement.tsx:142-148 | The table is an order-preserving subsequence of the invoices. It holds an invoice exactly when the status filter is "all" or equal to its status, and the lowercased term occurs in the lowercased client name or invoice number. |
| InvoiceManagement.DefaultFiltersShowAll | src/components/InvoiceManagement.tsx:142-148 | An empty term with "all" shows every invoice. |
| InvoiceManagement.EmptyNoticeExactlyWhenNothingMatches | src/components/InvoiceManagement.tsx:348 | The header count is the table's length, and the empty-state notice appears exactly when no invoice passes the filters. |
| InvoiceManagement.DeleteRemovesExactlyTheId | src/components/InvoiceManagement.tsx:159 | Delete removes exactly the invoices with that id and keeps the others in order. |
| InvoiceManagement.InvoiceTable.DeleteInvoice | src/components/InvoiceManagement.tsx:155-165 | The list loses those invoices and the filters are kept. Every row still shown was shown before and has another id. |
| InvoiceManagement.StatusColorsAreDistinct | src/components/InvoiceManagement.tsx:114-127 | The four statuses get four different styles, none of them slate, and anything else gets the slate default. |
| UserManagement.UserPanel.EditDraft | src/components/UserManagement.tsx:187-207 | The dialog's inputs set the draft and nothing else. |
| UserManagement.UserPanel.ClickAdd | src/components/UserManagement.tsx:88-96 | An empty name or email gives only an error toast. Otherwise the handler waits holding the draft it read; users, draft and dialog are unchanged until the delay ends. |
| UserManagement.UserPanel.DelayElapses | src/components/UserManagement.tsx:96-124 | The oldest waiting handler resumes. An add appends exactly one user built from the draft it read, leaves the existing users unchanged, resets the form to an empty EMPLOYEE draft, closes the dialog and toasts. A delete filters the current list by its id and toasts. |
| UserManagement.DoubleClickAddsTwice | src/components/UserManagement.tsx:88-112 | Two clicks on Add User within the delay add the same user twice, with two success toasts. |
| UserManagement.NewUser | src/components/UserManagement.tsx:98-105 | The added user carries the draft's name, email and role and the given id and stamp, with invoiceCount 0. |
| UserManagement.UserPanel.ClickDelete | src/components/UserManagement.tsx:116-119 | The handler waits holding the user id; nothing else changes until the delay ends. |
| UserManagement.DeleteRemovesExactlyTheId | src/components/UserManagement.tsx:121 | Exactly the users with that id are removed, and the order is preserved. |
| UserManagement.FilteredUsersAreTheMatches | src/components/UserManagement.tsx:128-131 | An order-preserving subsequence holding exactly the users whose lowercased name or email contains the lowercased term. |
| UserManagement.EmptySearchShowsAll | src/components/UserManagement.tsx:128-131 | The empty search shows every user. |
| UserManagement.OfferedDeleteKeepsAdmins | src/components/UserManagement.tsx:295-304 | The delete control exists only for non-admins. With distinct ids, using one never removes an admin and always removes its user. |
| UserManagement.RoleColorsAreDistinct | src/components/UserManagement.tsx:133-142 | ADMIN and EMPLOYEE get different styles, neither the default, and any other role gets the default. |

## Left out

- Network I/O. This covers the Groq requests, the Airtable request helpers and every browser `fetch`. Replies are inputs; a request is the value it would send.
- `encodeURIComponent`: `Request.formula` holds the `filterByFormula` text before URI encoding.
- `JSON.parse` and the replies' JSON decoding: the parse result is an input function. Numbers are `real`, with no IEEE rounding.
- The clock: every `Date.now()` and `new Date()` is a parameter. The route reads the clock several times; the model reads one stamp and one elapsed time.
- The language-model prompts and the base64 file encoding: they are content, not logic.
- The socket layer: the route's events are returned as a list. Broadcasting is not modelled.
- Session and next-auth plumbing: the session and the token role are inputs.
- Airtable.MergeClient: requires the stored counters, when present, to be numbers. For a stored string, JavaScript's `+` would concatenate text; that case is not modelled.
- `Object.entries` order in `getInvoices` of src/lib/airtable/index.ts: the filter is taken as a list of entries in the order JavaScript yields them. JavaScript's reordering of integer-like keys is not modelled.
- The mock service's echo returns the input object. The model keeps the properties present in that input and does not model `undefined` members.
- `createAnalytics`, `getClients` and `deleteRecord` of src/lib/airtable.ts: the route never calls them. They are plain requests like the ones modelled.
- Export.Post: each CSV line is written as its field list joined by commas, not as the single string literal of the route. The two are the same text.
- ImageUploader.Uploader.UploadFiles: the progress percentage and `formatFileSize` are floating-point presentation. The drop zone's type and size checks belong to `react-dropzone`. Each request's two awaits (`fetch` and `response.json()`) are one step, `ReceiveReply`. The run changes no state between them, so an event that arrives between them has the same effect as one arriving just before the step. The state updates made between two awaits are applied together.
- ImageUploader.Uploader.TimerFires: the two-second delay is a separate step, and timeouts may fire in any order relative to other events. A later drop does not cancel a timeout in the source either.
- The components' mock data loads (`fetchInvoices`, `fetchUsers`) and their loading flags: these are hard-coded data. The invoice table's simulated delete delay is one step: its functional updater filters whatever list is current when the delay ends, and no other handler of the table changes that list. The user panel's add and delete delays are separate steps (`ClickAdd`, `ClickDelete`, `DelayElapses`). The handlers' `catch` branches cannot be reached.
- ProcessInvoice.Post: which reply bodies fail to decode (not JSON, or `choices` is `undefined` or `null`) is decided by the JSON decoder. The model takes that outcome as the reply's `decodes` flag.
- Airtable.UnescapeEscape: the round trip is proved against the model's own reader of a quoted literal, not Airtable's formula parser. A name containing a backslash is escaped as is, and how Airtable reads it is not modelled.
- JSX rendering beyond the counts, notices and controls named above; `getStatusIcon`; toLowerCase beyond ASCII.

## Findings

| source | as written | input that shows it | evidently intended | confidence | as-written member | corrected member |
|---|---|---|---|---|---|---|
| src/lib/airtable.ts:269-275 | `createAirtableService` builds its config with `tables: { invoices: 'Invoices' }` only, although it logs all three tables (260-267). | Any non-empty key and base id, then `upsertClient`: the lookup goes to `/undefined?filterByFormula=…`, and so does the client write. `getAnalytics` likewise goes to `/undefined`. | The config names Invoices, Clients and Analytics, as logged. | not executed | Airtable.CreateServiceAsWritten, Airtable.AsWrittenClientRequestsHitUndefinedTable | Airtable.CreateService, Airtable.CorrectedServiceUsesItsTables |
| src/components/ImageUploader.tsx:66-108 | `uploadFiles` walks the `files` its closure captured and, after its awaits, sets the results from that list (95, 105). The drop zone (38) and the remove buttons (186) stay live while it waits. | Files [a, b]; b is removed, or c dropped, while a's request is pending. The run ends with two results for the one remaining file, and the first row shows a's outcome. | The results always describe the files on screen; the controls that change the files are disabled during a run. | not executed | ImageUploader.RemoveDuringRunAsWritten, ImageUploader.DropDuringRunAsWritten | ImageUploader.Uploader.GuardedOnDrop, ImageUploader.Uploader.GuardedRemoveFile, ImageUploader.Uploader.ReplayGuarded |
