/**
  The "My Appointments" page: the patient's appointments under an Upcoming, Past or
  Cancelled tab, and a Cancel action for appointments still pending or confirmed.
 */
module MyAppointments {
  import opened Options
  import opened Dates
  import opened Seqs
  import opened Entities
  import Booking

  /** The tab shown when the page opens. */
  const InitialTab: string := "upcoming"

  /**
    `new Date(apt.date) >= now`: false for a date that does not read as a calendar
    date, since comparisons with an invalid date are false.
   */
  predicate OnOrAfter(date: string, now: int) {
    var d := ParseFullDate(date);
    d.Some? && Midnight(d.value) >= now
  }

  /** `new Date(apt.date) < now`, likewise false for an invalid date. */
  predicate Before(date: string, now: int) {
    var d := ParseFullDate(date);
    d.Some? && Midnight(d.value) < now
  }

  /** The `filteredAppointments` predicate of a tab at the instant `now`. */
  function InTab(tab: string, now: int): Appointment -> bool {
    (a: Appointment) =>
      if tab == "upcoming" then OnOrAfter(a.date, now) && a.status != "Cancelled"
      else if tab == "past" then Before(a.date, now) || a.status == "Completed"
      else if tab == "cancelled" then a.status == "Cancelled"
      else true
  }

  function FilteredAppointments(appointments: seq<Appointment>, tab: string, now: int): seq<Appointment> {
    Filter(appointments, InTab(tab, now))
  }

  /**
    What each tab lists: the upcoming tab the not-cancelled appointments dated at or
    after now, the past tab those dated before now or completed, the cancelled tab the
    cancelled ones, any other tab everything; always in the fetched order.
   */
  lemma TabContents(appointments: seq<Appointment>, tab: string, now: int, a: Appointment)
    ensures SubseqOf(FilteredAppointments(appointments, tab, now), appointments)
    ensures tab == "upcoming" ==> (a in FilteredAppointments(appointments, tab, now) <==>
              a in appointments && OnOrAfter(a.date, now) && a.status != "Cancelled")
    ensures tab == "past" ==> (a in FilteredAppointments(appointments, tab, now) <==>
              a in appointments && (Before(a.date, now) || a.status == "Completed"))
    ensures tab == "cancelled" ==> (a in FilteredAppointments(appointments, tab, now) <==>
              a in appointments && a.status == "Cancelled")
    ensures tab !in {"upcoming", "past", "cancelled"} ==> FilteredAppointments(appointments, tab, now) == appointments
    ensures multiset(FilteredAppointments(appointments, tab, now))[a] ==
              if InTab(tab, now)(a) then multiset(appointments)[a] else 0
  {
    FilterIsSubseq(appointments, InTab(tab, now));
    FilterCounts(appointments, InTab(tab, now));
    if tab !in {"upcoming", "past", "cancelled"} {
      FilterAll(appointments, InTab(tab, now));
    }
  }

  /**
    The page opens on the Upcoming tab: the not-cancelled appointments dated at or after
    now, each as often as it was fetched.
   */
  lemma OpensOnUpcoming(appointments: seq<Appointment>, now: int, a: Appointment)
    ensures a in FilteredAppointments(appointments, InitialTab, now) <==>
              a in appointments && OnOrAfter(a.date, now) && a.status != "Cancelled"
    ensures multiset(FilteredAppointments(appointments, InitialTab, now))[a] ==
              if OnOrAfter(a.date, now) && a.status != "Cancelled" then multiset(appointments)[a] else 0
  {
    TabContents(appointments, InitialTab, now, a);
  }

  /**
    No appointment is both upcoming and cancelled; a completed appointment dated at or
    after now is listed under both Upcoming and Past.
   */
  lemma TabsOverlap(appointments: seq<Appointment>, now: int, a: Appointment)
    ensures !(a in FilteredAppointments(appointments, "upcoming", now) &&
              a in FilteredAppointments(appointments, "cancelled", now))
    ensures a in appointments && a.status == "Completed" && OnOrAfter(a.date, now) ==>
              a in FilteredAppointments(appointments, "upcoming", now) &&
              a in FilteredAppointments(appointments, "past", now)
  {
    TabContents(appointments, "upcoming", now, a);
    TabContents(appointments, "past", now, a);
    TabContents(appointments, "cancelled", now, a);
  }

  /**
    Every appointment is listed under at least one tab when its date reads as a date;
    one whose date does not is never upcoming, and past only when completed.
   */
  lemma EveryAppointmentHasATab(appointments: seq<Appointment>, now: int, a: Appointment)
    requires a in appointments
    ensures ParseFullDate(a.date).Some? ==>
              a in FilteredAppointments(appointments, "upcoming", now) ||
              a in FilteredAppointments(appointments, "past", now) ||
              a in FilteredAppointments(appointments, "cancelled", now)
    ensures ParseFullDate(a.date).None? ==>
              a !in FilteredAppointments(appointments, "upcoming", now) &&
              (a in FilteredAppointments(appointments, "past", now) <==> a.status == "Completed")
  {
    TabContents(appointments, "upcoming", now, a);
    TabContents(appointments, "past", now, a);
    TabContents(appointments, "cancelled", now, a);
  }

  /** The Cancel button is offered exactly for pending and confirmed appointments. */
  predicate CanCancel(a: Appointment) {
    a.status == "Pending" || a.status == "Confirmed"
  }

  /**
    A cancellable appointment is never one the Cancelled tab lists, and one already
    cancelled, completed or missed is never offered for cancelling.
   */
  lemma CancelOfferedOnlyWhenOpen(appointments: seq<Appointment>, a: Appointment, now: int)
    ensures CanCancel(a) ==> a !in FilteredAppointments(appointments, "cancelled", now)
    ensures a.status in {"Cancelled", "Completed", "No-Show"} ==> !CanCancel(a)
  {
    TabContents(appointments, "cancelled", now, a);
  }

  /** The request the Cancel confirmation sends: `Appointment.update(id, { status: 'Cancelled' })`. */
  datatype StatusUpdate = StatusUpdate(id: string, status: string)

  function CancelRequest(a: Appointment): (u: StatusUpdate)
    ensures u.id == a.id && u.status == "Cancelled"
  {
    StatusUpdate(a.id, "Cancelled")
  }

  /** The list after the store applied a status update: only the status of that id changes. */
  function ApplyUpdate(appointments: seq<Appointment>, u: StatusUpdate): (r: seq<Appointment>)
    ensures |r| == |appointments|
    ensures forall i :: 0 <= i < |r| ==>
              r[i] == if appointments[i].id == u.id then appointments[i].(status := u.status) else appointments[i]
  {
    seq(|appointments|, i requires 0 <= i < |appointments| =>
      if appointments[i].id == u.id then appointments[i].(status := u.status) else appointments[i])
  }

  /**
    Once a cancellation is applied, the appointment leaves the upcoming tab and is
    listed under Cancelled; the other appointments keep their tabs.
   */
  lemma {:induction false} CancelledMovesTab(appointments: seq<Appointment>, a: Appointment, now: int)
    requires a in appointments
    ensures var after := ApplyUpdate(appointments, CancelRequest(a));
            && (forall b :: b in FilteredAppointments(after, "upcoming", now) ==> b.id != a.id)
            && a.(status := "Cancelled") in FilteredAppointments(after, "cancelled", now)
            && (forall b :: b in appointments && b.id != a.id ==>
                  (b in FilteredAppointments(after, "upcoming", now) <==> b in FilteredAppointments(appointments, "upcoming", now)))
  {
    var after := ApplyUpdate(appointments, CancelRequest(a));
    var k :| 0 <= k < |appointments| && appointments[k] == a;
    assert after[k] == a.(status := "Cancelled");
    forall b | b in FilteredAppointments(after, "upcoming", now)
      ensures b.id != a.id
    {
      var j :| 0 <= j < |after| && after[j] == b;
    }
    forall b | b in appointments && b.id != a.id
      ensures b in after
    {
      var j :| 0 <= j < |appointments| && appointments[j] == b;
      assert after[j] == b;
    }
    forall b | b in after && b.id != a.id
      ensures b in appointments
    {
      var j :| 0 <= j < |after| && after[j] == b;
    }
  }

  /** The record the store lists back for a booking request, under the id it assigned. */
  function Stored(r: Booking.AppointmentRequest, id: string): Appointment {
    Appointment(id, r.appointmentType, r.department, r.date, r.time, r.doctorName, r.status)
  }

  /**
    A booking whose date the date picker let through at `now` is listed under Upcoming
    at `now`, and can be cancelled.
   */
  lemma BookedIsUpcoming(f: Booking.FormData, now: int, id: string)
    requires f.date.Some? && ValidDate(f.date.value) && 1 <= f.date.value.year <= 9999
    requires !Booking.DisabledOn(now)(f.date.value)
    ensures var a := Stored(Booking.Payload(f), id);
            a in FilteredAppointments([a], "upcoming", now) && CanCancel(a)
  {
  }
}
