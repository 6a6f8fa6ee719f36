/** The billing page: four sample invoices, the revenue, paid and pending
    totals over them, and the status badge table. */
module BillingPage {
  import opened Seqs

  datatype InvoiceStatus = Paid | Sent | Pending | Draft

  datatype Invoice = Invoice(id: string, job: string, customer: string, amount: int, status: InvoiceStatus, date: string)

  const Invoices: seq<Invoice> := [
    Invoice("INV-2024-001", "JOB-2024-007", "Southern Imports Inc.", 7778, Paid, "2024-01-22"),
    Invoice("INV-2024-002", "JOB-2024-005", "Midwest Manufacturing", 10278, Pending, "2024-01-26"),
    Invoice("INV-2024-003", "JOB-2024-003", "Pacific Imports LLC", 6178, Sent, "2024-01-27"),
    Invoice("INV-2024-004", "JOB-2024-004", "Atlantic Distributors", 16778, Draft, "2024-01-28")]

  function Amount(inv: Invoice): int { inv.amount }
  predicate IsPaid(inv: Invoice) { inv.status == Paid }

  function TotalRevenue(invoices: seq<Invoice>): int
  {
    Sum(invoices, Amount)
  }

  function PaidAmount(invoices: seq<Invoice>): int
  {
    Sum(Filter(invoices, IsPaid), Amount)
  }

  /** Everything not yet paid: pending, sent and draft invoices alike. */
  function PendingAmount(invoices: seq<Invoice>): int
  {
    Sum(Filter(invoices, (i: Invoice) => i.status != Paid), Amount)
  }

  /** Paid and pending split the revenue exactly, for every list of invoices. */
  lemma PaidPlusPendingIsTotal(invoices: seq<Invoice>)
    ensures PaidAmount(invoices) + PendingAmount(invoices) == TotalRevenue(invoices)
  {
    SumPartition(invoices, Amount, IsPaid, (i: Invoice) => i.status != Paid);
  }

  /** The totals the page shows for its sample invoices. */
  lemma SampleTotals()
    ensures TotalRevenue(Invoices) == 41012
    ensures PaidAmount(Invoices) == 7778
    ensures PendingAmount(Invoices) == 33234
  {
    var s := Invoices;
    assert s[1..][1..][1..][1..] == [];
    assert TotalRevenue(s) == 41012;
    assert Filter(s[1..][1..][1..], IsPaid) == [];
    assert PaidAmount(s) == 7778;
    PaidPlusPendingIsTotal(s);
  }

  datatype Badge = Badge(text: string, cssClass: string)

  function StatusConfig(s: InvoiceStatus): Badge
  {
    match s
    case Paid => Badge("Paid", "status-cleared")
    case Sent => Badge("Sent", "status-submitted")
    case Pending => Badge("Pending", "status-pending")
    case Draft => Badge("Draft", "status-prealert")
  }

  /** Each status has its own badge text and class. */
  lemma StatusConfigDistinct(s: InvoiceStatus, t: InvoiceStatus)
    ensures StatusConfig(s).text == StatusConfig(t).text ==> s == t
    ensures StatusConfig(s).cssClass == StatusConfig(t).cssClass ==> s == t
  {
  }
}
