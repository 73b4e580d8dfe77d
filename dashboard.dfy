/**
  The patient dashboard: the first three upcoming appointments in the fetched order
  (newest date first), the pending bills and what they add up to, the three most
  recent invoices, the notification badge and the greeting.
 */
module Dashboard {
  import opened Options
  import opened Seqs
  import opened Text
  import opened Entities
  import MyAppointments
  import MyInvoices

  /** The dashboard's own test of an upcoming appointment at the instant `now`. */
  function IsUpcoming(now: int): Appointment -> bool {
    (a: Appointment) => MyAppointments.OnOrAfter(a.date, now) && a.status != "Cancelled"
  }

  /** `upcomingAppointments`: the first three appointments that are upcoming. */
  function UpcomingAppointments(appointments: seq<Appointment>, now: int): seq<Appointment> {
    Take(Filter(appointments, IsUpcoming(now)), 3)
  }

  /**
    The dashboard lists at most three appointments, and they are the first ones of the
    Upcoming tab of the appointments page, in the same order.
   */
  lemma UpcomingIsPrefixOfTab(appointments: seq<Appointment>, now: int)
    ensures var up := UpcomingAppointments(appointments, now);
            var tab := MyAppointments.FilteredAppointments(appointments, "upcoming", now);
            && |up| == (if |tab| < 3 then |tab| else 3)
            && up == tab[..|up|]
            && SubseqOf(up, appointments)
  {
    var tab := MyAppointments.FilteredAppointments(appointments, "upcoming", now);
    FilterExtensional(appointments, IsUpcoming(now), MyAppointments.InTab("upcoming", now));
    FilterIsSubseq(appointments, MyAppointments.InTab("upcoming", now));
    PrefixOfSubseq(tab, appointments, |UpcomingAppointments(appointments, now)|);
  }

  /** `pendingInvoices`: the invoices whose status is Pending; overdue ones are not among them. */
  function PendingInvoices(invoices: seq<Invoice>): seq<Invoice> {
    Filter(invoices, (i: Invoice) => i.status == "Pending")
  }

  /** `totalOwed`. */
  function TotalOwed(invoices: seq<Invoice>): int {
    MyInvoices.AmountSum(PendingInvoices(invoices))
  }

  /**
    The pending bills are the Pending tab of the invoices page, with no overdue invoice
    among them; the dashboard's total owed is therefore the invoices page's amount due
    less what the Overdue tab adds up to.
   */
  lemma PendingBillsAndTotal(invoices: seq<Invoice>, i: Invoice)
    ensures PendingInvoices(invoices) == MyInvoices.FilteredInvoices(invoices, "pending")
    ensures i in PendingInvoices(invoices) <==> i in invoices && i.status == "Pending"
    ensures TotalOwed(invoices) ==
            MyInvoices.TotalPending(invoices) - MyInvoices.AmountSum(MyInvoices.FilteredInvoices(invoices, "overdue"))
  {
    FilterExtensional(invoices, (i: Invoice) => i.status == "Pending", MyInvoices.InTab("pending"));
    MyInvoices.TotalPendingSplit(invoices);
  }

  /** The "Recent Invoices" card: at most the first three invoices, in the fetched order. */
  function RecentInvoices(invoices: seq<Invoice>): (r: seq<Invoice>)
    ensures |r| == (if |invoices| < 3 then |invoices| else 3)
    ensures forall k :: 0 <= k < |r| ==> r[k] == invoices[k]
  {
    Take(invoices, 3)
  }

  /** The title of a recent-invoice row: its number, or "Invoice". */
  function InvoiceLabel(i: Invoice): (r: string)
    ensures r != ""
    ensures i.invoiceNumber.Some? && i.invoiceNumber.value != "" ==> r == i.invoiceNumber.value
    ensures r == "Invoice" <==> i.invoiceNumber.None? || i.invoiceNumber.value in {"", "Invoice"}
  {
    OrElse(i.invoiceNumber, "Invoice")
  }

  /** The red badge on the bell: the number of upcoming appointments, when there are any. */
  function Badge(appointments: seq<Appointment>, now: int): (r: Option<nat>)
    ensures r.None? <==> forall a :: a in appointments ==> !IsUpcoming(now)(a)
    ensures r.Some? ==> 1 <= r.value <= 3 && r.value == |UpcomingAppointments(appointments, now)|
  {
    var up := UpcomingAppointments(appointments, now);
    if |up| > 0 then
      assert up[0] in Filter(appointments, IsUpcoming(now));
      Some(|up|)
    else None
  }

  /**
    The first name of the welcome line: the text before the first space of the user's
    full name, or "Patient" when there is no user, no name, or that text is empty.
   */
  function Greeting(user: Option<User>): (r: string)
    ensures r != "" && ' ' !in r
    ensures (user.None? || user.value.fullName.None?) ==> r == "Patient"
    ensures user.Some? && user.value.fullName.Some? ==>
              var name := user.value.fullName.value;
              || (r == "Patient" && (name == [] || name[0] == ' '))
              || (|r| <= |name| && r == name[..|r|] && (|r| == |name| || name[|r|] == ' '))
  {
    if user.Some? && user.value.fullName.Some? then
      OrElse(Some(BeforeFirstSpace(user.value.fullName.value)), "Patient")
    else "Patient"
  }

  /** A one-word name is greeted in full; a name with a space is greeted by its first word. */
  lemma GreetingExamples()
    ensures Greeting(Some(User(Some("Thandi Nkosi"), None))) == "Thandi"
    ensures Greeting(Some(User(Some("Thandi"), None))) == "Thandi"
    ensures Greeting(Some(User(Some(" Thandi"), None))) == "Patient"
    ensures Greeting(Some(User(Some(""), None))) == "Patient"
  {
    BeforeFirstSpaceOfWord("Thandi", " Nkosi");
    BeforeFirstSpaceOfWord("Thandi", "");
    assert "Thandi" + " Nkosi" == "Thandi Nkosi" && "Thandi" + "" == "Thandi";
  }

  /** The name beside the avatar in the header: the full name, or "Patient". */
  function HeaderName(user: Option<User>): (r: string)
    ensures r != ""
    ensures user.Some? && user.value.fullName.Some? && user.value.fullName.value != "" ==> r == user.value.fullName.value
    ensures (user.None? || user.value.fullName.None? || user.value.fullName.value == "") ==> r == "Patient"
  {
    if user.Some? then OrElse(user.value.fullName, "Patient") else "Patient"
  }

  /** The greeting is the first word of the header name whenever the user has one. */
  lemma GreetingIsFirstWordOfHeader(user: Option<User>)
    requires user.Some? && user.value.fullName.Some?
    requires var name := user.value.fullName.value; name != [] && name[0] != ' '
    ensures var h := HeaderName(user); var g := Greeting(user);
            |g| <= |h| && g == h[..|g|] && (|g| == |h| || h[|g|] == ' ')
  {
  }

  /** The four figures of the quick-stats row. */
  datatype QuickStats = QuickStats(upcoming: nat, records: nat, pendingBills: nat, owed: int)

  /**
    The quick-stats row: the number of appointments the dashboard lists, the number of
    records, the number of pending bills and what they add up to.
   */
  function Stats(appointments: seq<Appointment>, recordCount: nat, invoices: seq<Invoice>, now: int): (r: QuickStats)
    ensures r.upcoming == |UpcomingAppointments(appointments, now)|
    ensures r.records == recordCount
    ensures r.pendingBills == |PendingInvoices(invoices)|
    ensures r.owed == TotalOwed(invoices)
    ensures r.upcoming <= 3 && r.upcoming <= |appointments|
    ensures r.pendingBills <= |invoices|
    ensures r.pendingBills == 0 ==> r.owed == 0
  {
    QuickStats(|UpcomingAppointments(appointments, now)|, recordCount,
               |PendingInvoices(invoices)|, TotalOwed(invoices))
  }
}
