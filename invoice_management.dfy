/** The admin invoice table, src/components/InvoiceManagement.tsx: the search
    and status filters, deletion, and the status badge colours. */
module InvoiceManagement {
  import opened Common

  /** `InvoiceData`. `status` is one of the four statuses below. */
  datatype InvoiceRecord = InvoiceRecord(
    id: string,
    invoiceNumber: string,
    clientName: string,
    totalAmount: real,
    currency: string,
    status: string,
    createdAt: string,
    processedBy: string,
    processingTime: Option<real>,
    lineItemsCount: nat)

  const AllStatuses := "all"
  const Statuses := ["COMPLETED", "PROCESSING", "PENDING", "ERROR"]

  /** The search box: the term occurs, ignoring case, in the client name or
      the invoice number. */
  predicate MatchesSearch(inv: InvoiceRecord, term: string) {
    MatchesTerm(inv.clientName, term) || MatchesTerm(inv.invoiceNumber, term)
  }

  /** The status select: "all" or the invoice's own status. */
  predicate MatchesStatus(inv: InvoiceRecord, statusFilter: string) {
    statusFilter == AllStatuses || inv.status == statusFilter
  }

  predicate Shown(inv: InvoiceRecord, term: string, statusFilter: string) {
    MatchesSearch(inv, term) && MatchesStatus(inv, statusFilter)
  }

  /** `filteredInvoices`. */
  function Visible(invoices: seq<InvoiceRecord>, term: string, statusFilter: string): (r: seq<InvoiceRecord>)
    ensures |r| <= |invoices|
  {
    Filter(invoices, (inv: InvoiceRecord) => Shown(inv, term, statusFilter))
  }

  /** The table is an order-preserving subsequence of the invoices, and it
      holds an invoice exactly when both filters accept it. */
  lemma VisibleIsTheMatchingSubsequence(invoices: seq<InvoiceRecord>, term: string, statusFilter: string)
    ensures var r, idx := Visible(invoices, term, statusFilter),
                          KeptIndices(invoices, (inv: InvoiceRecord) => Shown(inv, term, statusFilter));
      && |r| == |idx|
      && (forall k :: 0 <= k < |idx| ==> idx[k] < |invoices| && r[k] == invoices[idx[k]])
      && (forall k, l :: 0 <= k < l < |idx| ==> idx[k] < idx[l])
      && (forall i :: 0 <= i < |invoices| ==> (Shown(invoices[i], term, statusFilter) <==> i in idx))
    ensures forall x :: x in Visible(invoices, term, statusFilter) <==>
                          x in invoices && MatchesSearch(x, term) && MatchesStatus(x, statusFilter)
  {
    var keep := (inv: InvoiceRecord) => Shown(inv, term, statusFilter);
    FilterSpec(invoices, keep);
    forall x
      ensures x in Visible(invoices, term, statusFilter) <==> x in invoices && keep(x)
    {
      FilterMembership(invoices, keep, x);
    }
  }

  /** The initial filters, an empty term and "all", show every invoice. */
  lemma DefaultFiltersShowAll(invoices: seq<InvoiceRecord>)
    ensures Visible(invoices, "", AllStatuses) == invoices
  {
    forall i | 0 <= i < |invoices|
      ensures Shown(invoices[i], "", AllStatuses)
    {
      EmptyTermMatches(invoices[i].clientName);
    }
    FilterKeepsAll(invoices, (inv: InvoiceRecord) => Shown(inv, "", AllStatuses));
  }

  /** The header shows `All Invoices (n)` with n the table's length, and the
      "No invoices found" notice is rendered exactly when no invoice passes
      both filters. */
  function HeaderCount(invoices: seq<InvoiceRecord>, term: string, statusFilter: string): nat {
    |Visible(invoices, term, statusFilter)|
  }

  predicate ShowsEmptyNotice(invoices: seq<InvoiceRecord>, term: string, statusFilter: string) {
    HeaderCount(invoices, term, statusFilter) == 0
  }

  lemma EmptyNoticeExactlyWhenNothingMatches(invoices: seq<InvoiceRecord>, term: string, statusFilter: string)
    ensures ShowsEmptyNotice(invoices, term, statusFilter) <==>
              forall i :: 0 <= i < |invoices| ==> !Shown(invoices[i], term, statusFilter)
  {
    var keep := (inv: InvoiceRecord) => Shown(inv, term, statusFilter);
    var r := Visible(invoices, term, statusFilter);
    if r == [] {
      forall i | 0 <= i < |invoices|
        ensures !Shown(invoices[i], term, statusFilter)
      {
        FilterMembership(invoices, keep, invoices[i]);
      }
    } else {
      FilterMembership(invoices, keep, r[0]);
    }
  }

  /** `handleDeleteInvoice`'s `filter(invoice => invoice.id !== invoiceId)`. */
  function WithoutId(invoices: seq<InvoiceRecord>, id: string): (r: seq<InvoiceRecord>)
    ensures |r| <= |invoices|
  {
    Filter(invoices, (inv: InvoiceRecord) => inv.id != id)
  }

  /** Deleting removes exactly the invoices with that id; the others stay,
      in their order. */
  lemma DeleteRemovesExactlyTheId(invoices: seq<InvoiceRecord>, id: string)
    ensures forall x :: x in WithoutId(invoices, id) <==> x in invoices && x.id != id
    ensures var r, idx := WithoutId(invoices, id), KeptIndices(invoices, (inv: InvoiceRecord) => inv.id != id);
      && |r| == |idx|
      && (forall k :: 0 <= k < |idx| ==> idx[k] < |invoices| && r[k] == invoices[idx[k]])
      && (forall k, l :: 0 <= k < l < |idx| ==> idx[k] < idx[l])
      && (forall i :: 0 <= i < |invoices| ==> (invoices[i].id != id <==> i in idx))
  {
    var keep := (inv: InvoiceRecord) => inv.id != id;
    FilterSpec(invoices, keep);
    forall x
      ensures x in WithoutId(invoices, id) <==> x in invoices && keep(x)
    {
      FilterMembership(invoices, keep, x);
    }
  }

  /** The component's list state. */
  class InvoiceTable {
    var invoices: seq<InvoiceRecord>
    var searchTerm: string
    var statusFilter: string
    var notices: seq<Toast>

    constructor ()
      ensures invoices == [] && searchTerm == "" && statusFilter == AllStatuses && notices == []
    {
      invoices := [];
      searchTerm := "";
      statusFilter := AllStatuses;
      notices := [];
    }

    /** What the table shows for the current state. */
    function Rows(): seq<InvoiceRecord>
      reads this
    {
      Visible(invoices, searchTerm, statusFilter)
    }

    /** `handleDeleteInvoice`. */
    method DeleteInvoice(id: string)
      modifies this
      ensures invoices == WithoutId(old(invoices), id)
      ensures searchTerm == old(searchTerm) && statusFilter == old(statusFilter)
      ensures notices == old(notices) + [ToastSuccess("Invoice deleted successfully")]
      ensures forall x :: x in Rows() ==> x in old(Rows()) && x.id != id
    {
      var before := invoices;
      invoices := WithoutId(invoices, id);
      forall x | x in Rows()
        ensures x in Visible(before, searchTerm, statusFilter) && x.id != id
      {
        VisibleIsTheMatchingSubsequence(invoices, searchTerm, statusFilter);
        DeleteRemovesExactlyTheId(before, id);
        VisibleIsTheMatchingSubsequence(before, searchTerm, statusFilter);
      }
      notices := notices + [ToastSuccess("Invoice deleted successfully")];
    }
  }

  const CompletedStyle := "bg-green-500/20 text-green-400 border-green-500/30"
  const ProcessingStyle := "bg-blue-500/20 text-blue-400 border-blue-500/30"
  const PendingStyle := "bg-yellow-500/20 text-yellow-400 border-yellow-500/30"
  const ErrorStyle := "bg-red-500/20 text-red-400 border-red-500/30"
  const SlateStyle := "bg-slate-500/20 text-slate-400 border-slate-500/30"

  /** `getStatusColor`. */
  function StatusColor(status: string): string {
    match status
    case "COMPLETED" => CompletedStyle
    case "PROCESSING" => ProcessingStyle
    case "PENDING" => PendingStyle
    case "ERROR" => ErrorStyle
    case _ => SlateStyle
  }

  /** The four statuses get four different styles, none of them the slate
      default, and every other value gets the default. */
  lemma StatusColorsAreDistinct(a: string, b: string)
    ensures a in Statuses && b in Statuses && StatusColor(a) == StatusColor(b) ==> a == b
    ensures a in Statuses ==> StatusColor(a) != SlateStyle
    ensures a !in Statuses ==> StatusColor(a) == SlateStyle
  {
  }
}
