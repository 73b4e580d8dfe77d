/**
  The "My Invoices" page: the patient's invoices under an All, Pending, Paid or Overdue
  tab, the total amount due, and the display rules of each invoice card and its
  details dialog.
 */
module MyInvoices {
  import opened Options
  import opened Seqs
  import opened Entities

  /** The tab shown when the page opens. */
  const InitialTab: string := "all"

  /** The `filteredInvoices` predicate of a tab. */
  function InTab(tab: string): Invoice -> bool {
    (i: Invoice) =>
      if tab == "pending" then i.status == "Pending"
      else if tab == "paid" then i.status == "Paid"
      else if tab == "overdue" then i.status == "Overdue"
      else true
  }

  function FilteredInvoices(invoices: seq<Invoice>, tab: string): seq<Invoice> {
    Filter(invoices, InTab(tab))
  }

  /**
    The pending, paid and overdue tabs keep exactly the invoices of that status, any
    other tab keeps them all, and the fetched order is kept.
   */
  lemma TabContents(invoices: seq<Invoice>, tab: string, i: Invoice)
    ensures SubseqOf(FilteredInvoices(invoices, tab), invoices)
    ensures tab == "pending" ==> (i in FilteredInvoices(invoices, tab) <==> i in invoices && i.status == "Pending")
    ensures tab == "paid" ==> (i in FilteredInvoices(invoices, tab) <==> i in invoices && i.status == "Paid")
    ensures tab == "overdue" ==> (i in FilteredInvoices(invoices, tab) <==> i in invoices && i.status == "Overdue")
    ensures tab !in {"pending", "paid", "overdue"} ==> FilteredInvoices(invoices, tab) == invoices
    ensures multiset(FilteredInvoices(invoices, tab))[i] == if InTab(tab)(i) then multiset(invoices)[i] else 0
  {
    FilterIsSubseq(invoices, InTab(tab));
    FilterCounts(invoices, InTab(tab));
    if tab !in {"pending", "paid", "overdue"} {
      FilterAll(invoices, InTab(tab));
    }
  }

  /** The page opens on the All tab, which lists every fetched invoice in order. */
  lemma OpensOnAll(invoices: seq<Invoice>)
    ensures FilteredInvoices(invoices, InitialTab) == invoices
  {
    FilterAll(invoices, InTab(InitialTab));
  }

  /** `i.total || 0`: a missing amount counts as zero. */
  function Amount(i: Invoice): int {
    i.total.GetOr(0)
  }

  /** The `reduce((sum, i) => sum + (i.total || 0), 0)` of a list. */
  function AmountSum(invoices: seq<Invoice>): int {
    if invoices == [] then 0 else Amount(invoices[0]) + AmountSum(invoices[1..])
  }

  /** The sum over a concatenation is the sum of the sums. */
  lemma {:induction false} AmountSumAppend(s: seq<Invoice>, t: seq<Invoice>)
    ensures AmountSum(s + t) == AmountSum(s) + AmountSum(t)
  {
    if s == [] {
      assert s + t == t;
    } else {
      assert (s + t)[1..] == s[1..] + t;
      AmountSumAppend(s[1..], t);
    }
  }

  /** With no negative amount, the sum is positive iff some amount is. */
  lemma {:induction false} AmountSumPositive(s: seq<Invoice>)
    requires forall k :: 0 <= k < |s| ==> Amount(s[k]) >= 0
    ensures AmountSum(s) >= 0
    ensures AmountSum(s) > 0 <==> exists k :: 0 <= k < |s| && Amount(s[k]) > 0
  {
    if s != [] {
      AmountSumPositive(s[1..]);
      if AmountSum(s[1..]) > 0 {
        var k :| 0 <= k < |s[1..]| && Amount(s[1..][k]) > 0;
        assert Amount(s[k + 1]) > 0;
      }
      forall k | 1 <= k < |s| && Amount(s[k]) > 0
        ensures AmountSum(s[1..]) > 0
      {
        assert s[1..][k - 1] == s[k];
      }
    }
  }

  /** An invoice still to be paid: pending or overdue. */
  predicate IsOutstanding(i: Invoice) {
    i.status == "Pending" || i.status == "Overdue"
  }

  /** `totalPending`: over all fetched invoices, whatever the selected tab. */
  function TotalPending(invoices: seq<Invoice>): int {
    AmountSum(Filter(invoices, IsOutstanding))
  }

  /** The amount due is what the Pending tab lists plus what the Overdue tab lists. */
  lemma {:induction false} TotalPendingSplit(invoices: seq<Invoice>)
    ensures TotalPending(invoices) ==
            AmountSum(FilteredInvoices(invoices, "pending")) + AmountSum(FilteredInvoices(invoices, "overdue"))
  {
    if invoices != [] {
      var i := invoices[0];
      TotalPendingSplit(invoices[1..]);
      FilterCons(invoices, IsOutstanding);
      FilterCons(invoices, InTab("pending"));
      FilterCons(invoices, InTab("overdue"));
      AmountSumAppend(if IsOutstanding(i) then [i] else [], Filter(invoices[1..], IsOutstanding));
      AmountSumAppend(if i.status == "Pending" then [i] else [], FilteredInvoices(invoices[1..], "pending"));
      AmountSumAppend(if i.status == "Overdue" then [i] else [], FilteredInvoices(invoices[1..], "overdue"));
    }
  }

  /** The "Total Amount Due" card is shown when the amount due is positive. */
  predicate ShowAmountDue(invoices: seq<Invoice>) {
    TotalPending(invoices) > 0
  }

  /**
    With no negative amounts, the card is shown exactly when some pending or overdue
    invoice carries a positive amount.
   */
  lemma AmountDueShownIff(invoices: seq<Invoice>)
    requires forall i :: i in invoices ==> Amount(i) >= 0
    ensures ShowAmountDue(invoices) <==> exists i :: i in invoices && IsOutstanding(i) && Amount(i) > 0
  {
    var due := Filter(invoices, IsOutstanding);
    AmountSumPositive(due);
    if ShowAmountDue(invoices) {
      var k :| 0 <= k < |due| && Amount(due[k]) > 0;
      assert due[k] in due;
    }
    if i :| i in invoices && IsOutstanding(i) && Amount(i) > 0 {
      assert i in due;
      var k :| 0 <= k < |due| && due[k] == i;
    }
  }

  /**
    Changing the status of one invoice moves the amount due by that invoice alone: its
    amount comes off when it was outstanding and goes on when it now is.
   */
  lemma {:induction false} StatusChangeShiftsAmountDue(invoices: seq<Invoice>, k: nat, status: string)
    requires k < |invoices|
    ensures var after := invoices[k := invoices[k].(status := status)];
            TotalPending(after) ==
              TotalPending(invoices) - (if IsOutstanding(invoices[k]) then Amount(invoices[k]) else 0)
                                     + (if IsOutstanding(after[k]) then Amount(after[k]) else 0)
  {
    var after := invoices[k := invoices[k].(status := status)];
    assert invoices == invoices[..k] + [invoices[k]] + invoices[k + 1..];
    assert after == invoices[..k] + [after[k]] + invoices[k + 1..];
    FilterAppend(invoices[..k] + [invoices[k]], invoices[k + 1..], IsOutstanding);
    FilterAppend(invoices[..k], [invoices[k]], IsOutstanding);
    FilterAppend(invoices[..k] + [after[k]], invoices[k + 1..], IsOutstanding);
    FilterAppend(invoices[..k], [after[k]], IsOutstanding);
    var pre := Filter(invoices[..k], IsOutstanding);
    var post := Filter(invoices[k + 1..], IsOutstanding);
    var was := Filter([invoices[k]], IsOutstanding);
    var now := Filter([after[k]], IsOutstanding);
    FilterCons([invoices[k]], IsOutstanding);
    FilterCons([after[k]], IsOutstanding);
    assert [invoices[k]][1..] == [] && [after[k]][1..] == [];
    AmountSumAppend(pre + was, post);
    AmountSumAppend(pre, was);
    AmountSumAppend(pre + now, post);
    AmountSumAppend(pre, now);
  }

  /**
    Paying or cancelling an outstanding invoice takes its amount off the amount due;
    moving an invoice between two statuses that are not outstanding changes nothing.
   */
  lemma SettlingLowersAmountDue(invoices: seq<Invoice>, k: nat, status: string)
    requires k < |invoices|
    requires status != "Pending" && status != "Overdue"
    ensures TotalPending(invoices[k := invoices[k].(status := status)]) ==
            TotalPending(invoices) - (if IsOutstanding(invoices[k]) then Amount(invoices[k]) else 0)
  {
    StatusChangeShiftsAmountDue(invoices, k, status);
  }

  /** The due-date line of a card: shown for a due date that is set, unless the invoice is paid. */
  predicate ShowDueDate(i: Invoice) {
    i.dueDate.Some? && i.dueDate.value != "" && i.status != "Paid"
  }

  /** The payment-options note of the details dialog: shown unless the invoice is paid. */
  predicate ShowPaymentOptions(i: Invoice) {
    i.status != "Paid"
  }

  /**
    A card shows its due date exactly for an unpaid invoice with a due date set: never
    for a paid one, always for a pending or overdue one that has a due date.
   */
  lemma DueDateShown(i: Invoice)
    ensures i.status == "Paid" ==> !ShowDueDate(i)
    ensures i.dueDate.None? || i.dueDate.value == "" ==> !ShowDueDate(i)
    ensures IsOutstanding(i) && i.dueDate.Some? && i.dueDate.value != "" ==> ShowDueDate(i)
  {
  }

  /**
    The details dialog offers the payment options for every invoice that is not paid,
    in particular every outstanding one, and whenever the card shows a due date.
   */
  lemma PaymentOptionsShown(i: Invoice)
    ensures i.status == "Paid" ==> !ShowPaymentOptions(i)
    ensures IsOutstanding(i) ==> ShowPaymentOptions(i)
    ensures ShowDueDate(i) ==> ShowPaymentOptions(i)
  {
  }

  /**
    The card heading: the invoice number, or "Invoice #" followed by at most the first
    eight characters of the id.
   */
  function Heading(i: Invoice): (r: string)
    ensures i.invoiceNumber.Some? && i.invoiceNumber.value != "" ==> r == i.invoiceNumber.value
    ensures (i.invoiceNumber.None? || i.invoiceNumber.value == "") ==>
              r == "Invoice #" + Take(i.id, 8) && |r| <= 17 && r[9..] == i.id[..|r| - 9]
  {
    OrElse(i.invoiceNumber, "Invoice #" + Take(i.id, 8))
  }

  /** The heading of the details dialog: the invoice number, or "#" and the shortened id. */
  function DialogHeading(i: Invoice): (r: string)
    ensures i.invoiceNumber.Some? && i.invoiceNumber.value != "" ==> r == i.invoiceNumber.value
    ensures (i.invoiceNumber.None? || i.invoiceNumber.value == "") ==>
              r == "#" + Take(i.id, 8) && |r| <= 9 && r[1..] == i.id[..|r| - 1]
  {
    OrElse(i.invoiceNumber, "#" + Take(i.id, 8))
  }

  /** The card and the dialog name the same invoice: their headings differ only by the "Invoice " word. */
  lemma HeadingsAgree(i: Invoice)
    ensures (i.invoiceNumber.None? || i.invoiceNumber.value == "") ==> Heading(i) == "Invoice " + DialogHeading(i)
    ensures i.invoiceNumber.Some? && i.invoiceNumber.value != "" ==> Heading(i) == DialogHeading(i)
  {
  }

  /** The message of the empty list. */
  function EmptyMessage(tab: string): (r: string)
    ensures tab == "all" ==> r == "You don't have any invoices yet."
    ensures tab != "all" ==> |r| == |tab| + 19 && r[..3] == "No " && r[3..3 + |tab|] == tab
    ensures tab != "all" ==> r[3 + |tab|..] == " invoices found."
  {
    if tab == "all" then "You don't have any invoices yet." else "No " + tab + " invoices found."
  }

  /** The status icons of the cards. */
  datatype StatusIcon = Clock | CheckCircle | AlertCircle

  /** `statusIcons[status] || Clock`. */
  function IconFor(status: string): (r: StatusIcon)
    ensures r == CheckCircle <==> status == "Paid"
    ensures r == AlertCircle <==> status == "Overdue" || status == "Cancelled"
    ensures r == Clock <==> status !in {"Paid", "Overdue", "Cancelled"}
  {
    match status
    case "Pending" => Clock
    case "Paid" => CheckCircle
    case "Overdue" => AlertCircle
    case "Cancelled" => AlertCircle
    case _ => Clock
  }
}
