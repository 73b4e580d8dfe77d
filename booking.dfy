/**
  The three-step appointment booking wizard: personal details, appointment details,
  then date and time. Each step's Continue button is gated on that step's required
  fields, Back is always allowed, and Confirm hands the draft to the store's `create`
  with the date written as `yyyy-MM-dd` and the status "Pending".
 */
module Booking {
  import opened Options
  import opened Dates
  import opened Seqs
  import opened Entities
  import Text

  /** The time slots offered: half-hourly 08:00-12:00 and 14:00-17:00. */
  const TimeSlots: seq<string> := [
    "08:00", "08:30", "09:00", "09:30", "10:00", "10:30", "11:00", "11:30", "12:00",
    "14:00", "14:30", "15:00", "15:30", "16:00", "16:30", "17:00"]

  const AppointmentTypes: seq<string> := [
    "Consultation", "Surgery", "Follow-up", "Emergency", "Check-up", "Specialist Referral"]

  const Departments: seq<string> := [
    "General Surgery", "Orthopaedics", "Cardiology", "Neurology", "Paediatrics",
    "Gynaecology", "Dermatology", "ENT", "Ophthalmology"]

  /** The doctor picker's "Any available doctor" option. */
  const AnyDoctor: string := "__any"

  predicate IsClockText(s: string) {
    |s| == 5 && s[2] == ':' && Text.IsDigit(s[0]) && Text.IsDigit(s[1]) &&
    Text.IsDigit(s[3]) && Text.IsDigit(s[4])
  }

  /** Minutes after midnight of an `HH:MM` text. */
  function ClockMinutes(s: string): int
    requires IsClockText(s)
  {
    (10 * Text.DigitValue(s[0]) + Text.DigitValue(s[1])) * 60 +
    10 * Text.DigitValue(s[3]) + Text.DigitValue(s[4])
  }

  /** The minutes after midnight of each slot, in order. */
  const SlotMinutes: seq<int> := [
    480, 510, 540, 570, 600, 630, 660, 690, 720, 840, 870, 900, 930, 960, 990, 1020]

  /** Slot `i` reads as the minutes `SlotMinutes[i]`, on the half hour, within opening hours, before slot `i + 1`. */
  lemma SlotReadsAs(i: int)
    requires 0 <= i < 16
    ensures |TimeSlots| == 16 && IsClockText(TimeSlots[i]) && ClockMinutes(TimeSlots[i]) == SlotMinutes[i]
    ensures SlotMinutes[i] % 30 == 0 && (480 <= SlotMinutes[i] <= 720 || 840 <= SlotMinutes[i] <= 1020)
    ensures i < 15 ==> SlotMinutes[i] < SlotMinutes[i + 1]
  {
    if i == 0 {} else if i == 1 {} else if i == 2 {} else if i == 3 {}
    else if i == 4 {} else if i == 5 {} else if i == 6 {} else if i == 7 {}
    else if i == 8 {} else if i == 9 {} else if i == 10 {} else if i == 11 {}
    else if i == 12 {} else if i == 13 {} else if i == 14 {} else {}
  }

  /**
    The sixteen slots are `HH:MM` times on the half hour, strictly ascending, in the
    morning 08:00-12:00 or the afternoon 14:00-17:00; nothing is offered over lunch.
   */
  lemma TimeSlotsShape()
    ensures |TimeSlots| == 16
    ensures forall i :: 0 <= i < |TimeSlots| ==> IsClockText(TimeSlots[i])
    ensures forall i :: 0 <= i < |TimeSlots| ==>
              var t := ClockMinutes(TimeSlots[i]);
              t % 30 == 0 && (480 <= t <= 720 || 840 <= t <= 1020)
    ensures forall i :: 0 <= i < |TimeSlots| - 1 ==> ClockMinutes(TimeSlots[i]) < ClockMinutes(TimeSlots[i + 1])
  {
    SlotReadsAs(0);
    forall i | 0 <= i < |TimeSlots|
      ensures IsClockText(TimeSlots[i])
      ensures var t := ClockMinutes(TimeSlots[i]);
              t % 30 == 0 && (480 <= t <= 720 || 840 <= t <= 1020)
    {
      SlotReadsAs(i);
    }
    forall i | 0 <= i < |TimeSlots| - 1
      ensures ClockMinutes(TimeSlots[i]) < ClockMinutes(TimeSlots[i + 1])
    {
      SlotReadsAs(i);
      SlotReadsAs(i + 1);
    }
  }

  // ---------- The draft -----------------------------------------------------

  /** `formData`. */
  datatype FormData = FormData(
    patientName: string, patientEmail: string, patientPhone: string,
    appointmentType: string, department: string, date: Option<Date>, time: string,
    doctorName: string, reason: string, notes: string)

  const EmptyForm: FormData := FormData("", "", "", "", "", None, "", "", "", "")

  /** One input's change handler, with the value it received. */
  datatype FieldEdit =
    | EditName(name: string) | EditPhone(phone: string) | EditEmail(email: string)
    | EditType(appointmentType: string) | EditDepartment(department: string)
    | EditDoctor(choice: string) | EditReason(reason: string)
    | EditDate(date: Option<Date>) | EditTime(time: string) | EditNotes(notes: string)

  /** The step whose page renders the input behind an edit. */
  function StepOf(e: FieldEdit): (s: int)
    ensures 1 <= s <= 3
  {
    match e
    case EditName(_) | EditPhone(_) | EditEmail(_) => 1
    case EditType(_) | EditDepartment(_) | EditDoctor(_) | EditReason(_) => 2
    case EditDate(_) | EditTime(_) | EditNotes(_) => 3
  }

  /**
    `setFormData(prev => ({ ...prev, field: v }))` for each input; the department
    select also clears the doctor, and the doctor select stores "" for "Any available doctor".
   */
  function ApplyEdit(f: FormData, e: FieldEdit): (g: FormData)
    ensures g.doctorName == AnyDoctor ==> f.doctorName == AnyDoctor
    ensures e.EditDepartment? ==> g.doctorName == ""
  {
    match e
    case EditName(v) => f.(patientName := v)
    case EditPhone(v) => f.(patientPhone := v)
    case EditEmail(v) => f.(patientEmail := v)
    case EditType(v) => f.(appointmentType := v)
    case EditDepartment(v) => f.(department := v, doctorName := "")
    case EditDoctor(v) => f.(doctorName := if v == AnyDoctor then "" else v)
    case EditReason(v) => f.(reason := v)
    case EditDate(d) => f.(date := d)
    case EditTime(v) => f.(time := v)
    case EditNotes(v) => f.(notes := v)
  }

  /**
    A department change always leaves no doctor chosen and touches nothing else, and the
    draft never holds the "any doctor" sentinel after any edit that started without it.
   */
  lemma DepartmentChangeClearsDoctor(f: FormData, dept: string)
    ensures var g := ApplyEdit(f, EditDepartment(dept));
            g.doctorName == "" && g.department == dept && g.(department := f.department, doctorName := f.doctorName) == f
  {
  }

  lemma NoSentinelStored(f: FormData, e: FieldEdit)
    requires f.doctorName != AnyDoctor
    ensures ApplyEdit(f, e).doctorName != AnyDoctor
    ensures e == EditDoctor(AnyDoctor) ==> ApplyEdit(f, e).doctorName == ""
  {
  }

  /** An edit leaves every field of the other steps as it was. */
  lemma EditStaysOnItsStep(f: FormData, e: FieldEdit)
    ensures var g := ApplyEdit(f, e);
            && (StepOf(e) != 1 ==> g.patientName == f.patientName && g.patientPhone == f.patientPhone && g.patientEmail == f.patientEmail)
            && (StepOf(e) != 2 ==> g.appointmentType == f.appointmentType && g.department == f.department && g.doctorName == f.doctorName && g.reason == f.reason)
            && (StepOf(e) != 3 ==> g.date == f.date && g.time == f.time && g.notes == f.notes)
  {
  }

  /** The gate of step 1: name, phone and email are all non-empty (whitespace counts). */
  predicate PersonalDetailsComplete(f: FormData) {
    f.patientName != "" && f.patientPhone != "" && f.patientEmail != ""
  }

  /** The gate of step 2: an appointment type and a department are chosen. */
  predicate AppointmentDetailsComplete(f: FormData) {
    f.appointmentType != "" && f.department != ""
  }

  /** What `handleSubmit` needs: a date and a time. */
  predicate DateTimeChosen(f: FormData) {
    f.date.Some? && f.time != ""
  }

  /** The examples of the gate: an empty name blocks, whitespace-only details pass. */
  lemma PersonalGateExamples()
    ensures !PersonalDetailsComplete(EmptyForm.(patientPhone := "082 123 4567", patientEmail := "t@x.com"))
    ensures PersonalDetailsComplete(EmptyForm.(patientName := "Thabo", patientPhone := "082 123 4567", patientEmail := "t@x.com"))
    ensures PersonalDetailsComplete(EmptyForm.(patientName := " ", patientPhone := " ", patientEmail := " "))
  {
  }

  /** The step a Continue click leads to from step 1 or 2. */
  function Advance(step: int, f: FormData): (next: int)
    requires step == 1 || step == 2
    ensures next == step || next == step + 1
    ensures next == step + 1 <==> (if step == 1 then PersonalDetailsComplete(f) else AppointmentDetailsComplete(f))
  {
    if step == 1 then (if PersonalDetailsComplete(f) then 2 else 1)
    else (if AppointmentDetailsComplete(f) then 3 else 2)
  }

  /** The authenticated prefill: name and email from the session ("" when missing), nothing else. */
  function Prefill(f: FormData, me: User): (g: FormData)
    ensures g.patientName == OrElse(me.fullName, "") && g.patientEmail == OrElse(me.email, "")
    ensures g.(patientName := f.patientName, patientEmail := f.patientEmail) == f
  {
    f.(patientName := OrElse(me.fullName, ""), patientEmail := OrElse(me.email, ""))
  }

  // ---------- Doctors and dates ---------------------------------------------

  /** Whether a doctor is offered for `department`: any doctor when none is chosen. */
  function OffersDepartment(department: string): Doctor -> bool {
    (doc: Doctor) => department == "" || doc.specialisation == Some(department)
  }

  /** `filteredDoctors`. */
  function FilteredDoctors(doctors: seq<Doctor>, department: string): seq<Doctor> {
    Filter(doctors, OffersDepartment(department))
  }

  /**
    With no department every doctor is offered; otherwise exactly the doctors whose
    specialisation is that department, in roster order.
   */
  lemma FilteredDoctorsSpec(doctors: seq<Doctor>, department: string)
    ensures department == "" ==> FilteredDoctors(doctors, department) == doctors
    ensures department != "" ==>
              (forall doc :: doc in FilteredDoctors(doctors, department) <==>
                 doc in doctors && doc.specialisation == Some(department))
    ensures SubseqOf(FilteredDoctors(doctors, department), doctors)
    ensures forall doc :: multiset(FilteredDoctors(doctors, department))[doc] ==
              if OffersDepartment(department)(doc) then multiset(doctors)[doc] else 0
  {
    FilterIsSubseq(doctors, OffersDepartment(department));
    FilterCounts(doctors, OffersDepartment(department));
    if department == "" {
      FilterAll(doctors, OffersDepartment(department));
    }
  }

  /**
    The date picker's `disabled` predicate, `date < new Date() || date.getDay() === 0`,
    at the instant `now`: the day's local midnight is already past, or it is a Sunday.
    (Every `Date` value has a month in 0..11; no other value reaches the predicate.)
   */
  function DisabledOn(now: int): Date -> bool {
    (d: Date) => 0 <= d.month < 12 && (Midnight(d) < now || Weekday(d) == 0)
  }

  /**
    Today is disabled as soon as its midnight has passed; every later day is enabled
    unless it is a Sunday; every earlier day is disabled.
   */
  lemma {:induction false} DisabledDates(today: Date, now: int, d: Date)
    requires ValidDate(today) && ValidDate(d)
    requires Midnight(today) < now < Midnight(today) + MsPerDay
    ensures DisabledOn(now)(today)
    ensures DayOf(d) < DayOf(today) ==> DisabledOn(now)(d)
    ensures DayOf(d) > DayOf(today) ==> (DisabledOn(now)(d) <==> Weekday(d) == 0)
  {
    if DayOf(d) > DayOf(today) {
      assert Midnight(d) >= Midnight(today) + MsPerDay;
    } else if DayOf(d) < DayOf(today) {
      assert Midnight(d) + MsPerDay <= Midnight(today);
    }
  }

  // ---------- Submission ----------------------------------------------------

  /** The record handed to `Appointment.create`. */
  datatype AppointmentRequest = AppointmentRequest(
    patientName: string, patientEmail: string, patientPhone: string,
    appointmentType: string, department: string, date: string, time: string,
    doctorName: string, reason: string, notes: string, status: string)

  /**
    `{ ...formData, date: format(formData.date, "yyyy-MM-dd"), status: "Pending" }`:
    every field of the draft, the date as a full-date text that reads back as the
    chosen date, and the status "Pending".
   */
  function Payload(f: FormData): (r: AppointmentRequest)
    requires f.date.Some? && ValidDate(f.date.value)
    ensures r.status == "Pending"
    ensures 1 <= f.date.value.year <= 9999 ==> ParseFullDate(r.date) == f.date
    ensures && r.patientName == f.patientName && r.patientEmail == f.patientEmail
            && r.patientPhone == f.patientPhone && r.appointmentType == f.appointmentType
            && r.department == f.department && r.time == f.time && r.doctorName == f.doctorName
            && r.reason == f.reason && r.notes == f.notes
  {
    var r := AppointmentRequest(
      f.patientName, f.patientEmail, f.patientPhone, f.appointmentType, f.department,
      FormatFullDate(f.date.value), f.time, f.doctorName, f.reason, f.notes, "Pending");
    if 1 <= f.date.value.year <= 9999 then FormatThenParse(f.date.value); r else r
  }

  /** The booking-form example: Monday 2 June 2025 at 09:00 is sent as "2025-06-02". */
  lemma PayloadExample()
    ensures var f := EmptyForm.(date := Some(Date(2025, 5, 2)), time := "09:00");
            Payload(f).date == "2025-06-02" && Payload(f).time == "09:00" && Payload(f).status == "Pending"
  {
    FormatExample();
  }

  // ---------- The wizard ----------------------------------------------------

  class BookingWizard {
    var step: int
    var doctors: seq<Doctor>
    var loading: bool
    var submitted: bool
    var user: Option<User>
    var form: FormData

    ghost predicate Valid()
      reads this
    {
      && 1 <= step <= 3
      && form.doctorName != AnyDoctor
      && (form.date.Some? ==> ValidDate(form.date.value))
    }

    /** Each step shown was reached through the gates of the steps before it. */
    ghost predicate GatesPassed()
      reads this
    {
      && (step >= 2 ==> PersonalDetailsComplete(form))
      && (step >= 3 ==> AppointmentDetailsComplete(form))
    }

    constructor ()
      ensures Valid() && GatesPassed()
      ensures step == 1 && form == EmptyForm && doctors == [] && user == None
      ensures !loading && !submitted
    {
      step := 1;
      doctors := [];
      loading := false;
      submitted := false;
      user := None;
      form := EmptyForm;
    }

    /** `loadDoctors` with the roster the store returned. */
    method LoadDoctors(docs: seq<Doctor>)
      modifies this`doctors
      ensures doctors == docs
    {
      doctors := docs;
    }

    /**
      `checkUser` with what the session service answered. It may resolve on any step:
      it then keeps the gates only if the session supplies a name and an email.
     */
    method CheckUser(isAuthenticated: bool, me: User)
      requires Valid()
      modifies this`user, this`form
      ensures Valid()
      ensures isAuthenticated ==> user == Some(me) && form == Prefill(old(form), me)
      ensures !isAuthenticated ==> user == old(user) && form == old(form)
      ensures (old(GatesPassed()) && (step == 1 || !isAuthenticated ||
                (OrElse(me.fullName, "") != "" && OrElse(me.email, "") != ""))) ==> GatesPassed()
    {
      if isAuthenticated {
        user := Some(me);
        form := Prefill(form, me);
      }
    }

    /** An input of the current step changed. */
    method Edit(e: FieldEdit)
      requires Valid() && !submitted && StepOf(e) == step
      requires e.EditDate? && e.date.Some? ==> ValidDate(e.date.value)
      modifies this`form
      ensures Valid()
      ensures form == ApplyEdit(old(form), e)
      ensures old(GatesPassed()) ==> GatesPassed()
    {
      EditStaysOnItsStep(form, e);
      form := ApplyEdit(form, e);
    }

    /** `filteredDoctors` for the chosen department. */
    function Doctors(): seq<Doctor>
      reads this
    {
      FilteredDoctors(doctors, form.department)
    }

    /** The Continue button of step 1 or 2: moves on only when that step's gate holds. */
    method Continue()
      requires Valid() && !submitted && (step == 1 || step == 2)
      modifies this`step
      ensures Valid()
      ensures step == Advance(old(step), form)
      ensures old(GatesPassed()) ==> GatesPassed()
    {
      step := Advance(step, form);
    }

    /** The Back button of step 2 or 3: always goes one step back; the draft is kept. */
    method Back()
      requires Valid() && !submitted && (step == 2 || step == 3)
      modifies this`step
      ensures Valid()
      ensures step == old(step) - 1
      ensures old(GatesPassed()) ==> GatesPassed()
    {
      step := step - 1;
    }

    /** Whether the Confirm button is enabled. */
    predicate ConfirmEnabled()
      reads this
    {
      DateTimeChosen(form) && !loading
    }

    /**
      A click on Confirm: nothing while the button is disabled; otherwise `handleSubmit`
      raises `loading` and sends the payload to `create`.
     */
    method Confirm() returns (request: Option<AppointmentRequest>)
      requires Valid() && !submitted && step == 3
      modifies this`loading
      ensures Valid()
      ensures request.Some? <==> old(ConfirmEnabled())
      ensures request.Some? ==> loading && request.value == Payload(form)
      ensures request.None? ==> loading == old(loading)
    {
      if !ConfirmEnabled() {
        return None;
      }
      loading := true;
      request := Some(Payload(form));
    }

    /**
      `create` settled: the `finally` lowers `loading` whatever the outcome, and only a
      resolved call shows the submitted screen.
     */
    method CreateSettled(resolved: bool)
      requires Valid() && loading
      modifies this`loading, this`submitted
      ensures Valid()
      ensures !loading
      ensures submitted == (old(submitted) || resolved)
    {
      if resolved {
        submitted := true;
      }
      loading := false;
    }

    /** Two clicks on Confirm before `create` settles send one request. */
    method ConfirmTwice() returns (first: Option<AppointmentRequest>, second: Option<AppointmentRequest>)
      requires Valid() && !submitted && step == 3
      modifies this`loading
      ensures Valid()
      ensures first.Some? <==> old(ConfirmEnabled())
      ensures second.None?
    {
      first := Confirm();
      if first.None? {
        assert !DateTimeChosen(form) || loading;
      }
      second := Confirm();
    }
  }
}
