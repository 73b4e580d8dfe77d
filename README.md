# MediCare patient portal: a Dafny model

This project models the logic of the MediCare patient portal, a React single-page
application. It covers:

- the month-grid date picker;
- the three-step appointment booking wizard;
- the appointments, invoices and medical-records pages;
- the dashboard;
- the health-assistant chat;
- the page-name to URL table.

The pages only compute with lists they fetch from the backend store: they filter,
slice and sum them, and apply a few display rules. Those computations are modelled
as functions, with lemmas about them. The state the components update in place is
modelled as Dafny classes:

- the calendar's visible month;
- the wizard's step, draft, loading flag and submitted flag;
- the records page's map of open cards;
- the chat's message log, input and loading flag.

Their methods state the new state and the invariants they keep.

Conventions:

- "Now" is a parameter: an instant in milliseconds since 1970-01-01 00:00, local time.
- A JavaScript `Date` is modelled as a `Dates.Date` with a 0-based month, as `getMonth` numbers it.
- `handleSubmit` and `handleSend` are each split at their `await` into two atomic steps.
  One step sends the request and returns it. The other receives whether it succeeded.
  The other async handlers (`checkUser`, the roster query and `initConversation`) are
  each one atomic step that receives the service's answer.

The modules are:

- `Options`: the option type.
- `Seqs`: `filter` and `slice`, with their subsequence, membership and concatenation lemmas.
- `Text`: `trim`, `split(' ')[0]`, and decimal digits.
- `Dates`: the Gregorian calendar and day numbers, `new Date(y, m, 1)` month
  normalisation (years 0 to 99 excepted, as "## Left out" says), and the `yyyy-MM-dd` format and parse.
- `Calendar`, `Booking`, `MyAppointments`, `MyInvoices`, `Dashboard`, `MyRecords`,
  `HealthChat` and `Routes`: one module per source file.
- `Entities`: the store's records.

Two results are checked against references defined independently of the model:

- The weekday that places each day in the grid is proved equal to the day-of-week
  algorithm of Appendix B of RFC 3339.
- The booking payload's date text is proved to read back as the chosen date.

## Model

| member | source | states |
|---|---|---|
| Dates.DaysInMonth | src/components/ui/calendar.tsx:22-26 | February has 28 days, or 29 exactly in Gregorian leap years (divisible by 4 and not by 100, or by 400); April, June, September and November have 30; every other month has 31 |
| Dates.DaysInMonthIsDistance | src/components/ui/calendar.tsx:22-26 | the length of a month is the number of days from its 1st to the 1st of the next month, i.e. `daysInMonth` is day 0 of the next month |
| Dates.LastDayThenNextMonth | src/components/ui/calendar.tsx:22-26 | the day after the last day of a month is the 1st of the next month, as `new Date(y, m + 1, 0)` relies on |
| Dates.Weekday | src/components/ui/calendar.tsx:28-32 | `getDay` is in 0..6 |
| Dates.EpochIsThursday | src/components/ui/calendar.tsx:28-32 | the weekday numbering is anchored on 1 January 1970 being a Thursday (4, with Sunday 0) |
| Dates.WeekdayMatchesRfc3339 | src/components/ui/calendar.tsx:28-32 | for every date from year 1 on, the weekday agrees with the independent day-of-week algorithm of RFC 3339 Appendix B (0 = Sunday), matching the Su..Sa header |
| Dates.NextFirstWeekday | src/components/ui/calendar.tsx:28-32 | the 1st of the next month falls `daysInMonth` weekdays after the 1st of this month |
| Dates.MonthStart | src/components/ui/calendar.tsx:36 | `new Date(y, m, 1)` carries month overflow and underflow into the year: the result is a valid month, on day 1, the same number of months from year 0 |
| Dates.NextMonthWraps | src/components/ui/calendar.tsx:39-41 | the next month is the following month of the same year, except that December goes to January of the next year; it lands on day 1 |
| Dates.PrevMonthWraps | src/components/ui/calendar.tsx:35-37 | the previous month is the preceding month of the same year, except that January goes to December of the previous year; it lands on day 1 |
| Dates.PrevThenNext | src/components/ui/calendar.tsx:35-41 | back then forward, or forward then back, returns to the same month on its 1st |
| Dates.MonthsAheadIsShift | src/components/ui/calendar.tsx:39-41 | n clicks on the next-month button move exactly n months |
| Dates.YearsAhead | src/components/ui/calendar.tsx:39-41 | twelve clicks forward, k times over, land on the same month k years later, on day 1 |
| Calendar.GridShape | src/components/ui/calendar.tsx:64-70 | the grid is `firstDayOfMonth` blanks followed by the days 1..`daysInMonth` in ascending order, so its length is their sum (at most 37) |
| Calendar.GridColumnIsWeekday | src/components/ui/calendar.tsx:64-70 | with seven columns headed Su..Sa, every day of the month sits in the column of its own weekday |
| Calendar.KnownMonths | src/components/ui/calendar.tsx:22-32 | February 2024 and 2000 have 29 days, February 2023 and 1900 have 28, and 2 June 2025 is a Monday |
| Calendar.CalendarView.constructor | src/components/ui/calendar.tsx:14-20 | the picker opens on the month of today with the parent's selection and predicate |
| Calendar.CalendarView.DaysInView | src/components/ui/calendar.tsx:22-26 | `daysInMonth` of the visible month is 28..31 and is day 0 of the next month |
| Calendar.CalendarView.FirstDayOfMonth | src/components/ui/calendar.tsx:28-32 | `firstDayOfMonth` is a weekday in 0..6 |
| Calendar.CalendarView.PrevMonth | src/components/ui/calendar.tsx:35-37 | the visible month becomes the previous month, on day 1; the selection and the predicate are not touched |
| Calendar.CalendarView.NextMonth | src/components/ui/calendar.tsx:39-41 | the visible month becomes the next month, on day 1; the selection and the predicate are not touched |
| Calendar.CalendarView.SelectionMarksOneDay | src/components/ui/calendar.tsx:43-51 | with no selection no day is highlighted; otherwise at most one day is, and it is the selected day when the selection falls in the visible month |
| Calendar.CalendarView.HandleDayClick | src/components/ui/calendar.tsx:53-62 | a click on a disabled day emits nothing; any other click emits exactly (visible year, visible month, day), a valid date the parent's predicate does not reject; without a predicate no day is disabled |
| Calendar.CalendarView.Days | src/components/ui/calendar.tsx:64-70 | the two push loops build exactly the grid of the visible month |
| Booking.TimeSlotsShape | src/Pages/BookAppointment.tsx:102-119 | the sixteen slots are `HH:MM` times on the half hour, strictly ascending, from 08:00 to 12:00 and from 14:00 to 17:00 |
| Booking.StepOf | src/Pages/BookAppointment.tsx:301-608 | every input belongs to one of the three steps |
| Booking.ApplyEdit | src/Pages/BookAppointment.tsx:407-466 | an input's change handler never stores the "any doctor" sentinel unless the draft already held it, and the department select leaves no doctor chosen |
| Booking.DepartmentChangeClearsDoctor | src/Pages/BookAppointment.tsx:434-440 | choosing a department sets it, leaves no doctor chosen and changes no other field |
| Booking.NoSentinelStored | src/Pages/BookAppointment.tsx:461-465 | choosing "Any available doctor" stores "" and the "__any" sentinel never reaches the draft |
| Booking.EditStaysOnItsStep | src/Pages/BookAppointment.tsx:301-608 | an input changes only fields of its own step |
| Booking.PersonalGateExamples | src/Pages/BookAppointment.tsx:369-376 | a missing name blocks step 1, and whitespace-only details pass its gate |
| Booking.Advance | src/Pages/BookAppointment.tsx:369-513 | Continue moves from step 1 exactly when name, phone and email are non-empty, and from step 2 exactly when type and department are non-empty; otherwise it stays |
| Booking.Prefill | src/Pages/BookAppointment.tsx:84-95 | the authenticated prefill sets name and email from the session ("" when missing or empty) and no other field |
| Booking.FilteredDoctorsSpec | src/Pages/BookAppointment.tsx:158-161 | with no department the whole roster is offered, otherwise exactly the doctors specialised in it; the roster order is kept, and each offered doctor appears as often as in the roster |
| Booking.DisabledDates | src/Pages/BookAppointment.tsx:567-569 | today is disabled once its midnight has passed, every earlier day is disabled, and a later day is disabled exactly when it is a Sunday |
| Booking.Payload | src/Pages/BookAppointment.tsx:142-151 | the payload copies every field of the draft, has status "Pending", and its date text reads back as the chosen date for years 1 to 9999 |
| Booking.PayloadExample | src/Pages/BookAppointment.tsx:142-151 | 2 June 2025 at 09:00 is sent as "2025-06-02", "09:00", "Pending" |
| Booking.BookingWizard.constructor | src/Pages/BookAppointment.tsx:60-77 | the wizard starts on step 1 with an empty draft, no doctors, no user, not loading and not submitted |
| Booking.BookingWizard.LoadDoctors | src/Pages/BookAppointment.tsx:97-100 | the roster becomes what the store returned |
| Booking.BookingWizard.CheckUser | src/Pages/BookAppointment.tsx:84-95 | an authenticated session records the user and prefills name and email; otherwise nothing changes |
| Booking.BookingWizard.Edit | src/Pages/BookAppointment.tsx:301-608 | an input applies its edit to the draft and keeps every gate already passed |
| Booking.BookingWizard.Continue | src/Pages/BookAppointment.tsx:369-513 | Continue moves on exactly when the step's gate holds, so every later step is reached through its gates |
| Booking.BookingWizard.Back | src/Pages/BookAppointment.tsx:505-661 | Back always goes one step back and keeps the draft |
| Booking.BookingWizard.Confirm | src/Pages/BookAppointment.tsx:142-151 | nothing is sent unless a date and a time are chosen and no request is in flight; otherwise loading is raised and the payload of the draft is sent |
| Booking.BookingWizard.CreateSettled | src/Pages/BookAppointment.tsx:145-155 | loading is false afterwards whatever the outcome, and the wizard becomes submitted only when create resolved |
| Booking.BookingWizard.ConfirmTwice | src/Pages/BookAppointment.tsx:142-155 | a second Confirm before the first settles sends nothing |
| MyAppointments.OpensOnUpcoming | src/Pages/MyAppointments.tsx:35 | the page opens on the Upcoming tab: exactly the non-cancelled appointments dated at or after now, each as often as fetched |
| MyAppointments.TabContents | src/Pages/MyAppointments.tsx:51-58 | upcoming keeps exactly the non-cancelled appointments dated at or after now, past those dated before now or completed, cancelled the cancelled ones, any other tab everything; each is an order-preserving subsequence that keeps every listed appointment as often as it was fetched |
| MyAppointments.TabsOverlap | src/Pages/MyAppointments.tsx:54-56 | upcoming and cancelled are disjoint, and a completed appointment dated at or after now appears under both upcoming and past |
| MyAppointments.EveryAppointmentHasATab | src/Pages/MyAppointments.tsx:52-58 | an appointment with a readable date is under some tab; one whose date is invalid is never upcoming, and is past only when completed |
| MyAppointments.CancelOfferedOnlyWhenOpen | src/Pages/MyAppointments.tsx:184 | Cancel is offered only for pending or confirmed appointments, so never under the cancelled tab |
| MyAppointments.CancelRequest | src/Pages/MyAppointments.tsx:47 | cancelling requests an update of that one id, setting only its status, to "Cancelled" |
| MyAppointments.ApplyUpdate | src/Pages/MyAppointments.tsx:47-48 | the refetched list differs from the old one only in the status of the updated id |
| MyAppointments.CancelledMovesTab | src/Pages/MyAppointments.tsx:47-56 | after a cancellation the appointment leaves the upcoming tab and appears under cancelled, and the other appointments keep their upcoming membership |
| MyAppointments.BookedIsUpcoming | src/Pages/MyAppointments.tsx:54 | a booking whose date the picker allowed at now is listed as upcoming at now and can be cancelled |
| MyInvoices.OpensOnAll | src/Pages/MyInvoices.tsx:32 | the page opens on the All tab, which lists every fetched invoice in order |
| MyInvoices.TabContents | src/Pages/MyInvoices.tsx:43-48 | the pending, paid and overdue tabs keep exactly the invoices of that status, any other tab keeps all, order preserved and every listed invoice as often as it was fetched |
| MyInvoices.AmountSumAppend | src/Pages/MyInvoices.tsx:64-66 | the sum over a concatenation is the sum of the parts' sums |
| MyInvoices.AmountSumPositive | src/Pages/MyInvoices.tsx:64-66 | with no negative totals, the sum is non-negative and positive exactly when some total is |
| MyInvoices.TotalPendingSplit | src/Pages/MyInvoices.tsx:43-66 | the amount due (missing totals count as 0) is the pending tab's sum plus the overdue tab's sum, over all invoices whatever the selected tab |
| MyInvoices.AmountDueShownIff | src/Pages/MyInvoices.tsx:93 | with no negative totals, the amount-due card is shown exactly when some pending or overdue invoice has a positive total |
| MyInvoices.StatusChangeShiftsAmountDue | src/Pages/MyInvoices.tsx:64-66 | changing one invoice's status changes the amount due by that invoice alone: its total comes off when it was Pending or Overdue and goes on when it now is, whatever the sign of that total |
| MyInvoices.SettlingLowersAmountDue | src/Pages/MyInvoices.tsx:64-66 | moving an invoice to a status that is not Pending or Overdue takes exactly its total off the amount due when it was outstanding, and changes nothing when it was not |
| MyInvoices.DueDateShown | src/Pages/MyInvoices.tsx:172 | a card never shows the due date of a paid invoice or of one without a due date, and always shows it for a pending or overdue invoice that has one |
| MyInvoices.PaymentOptionsShown | src/Pages/MyInvoices.tsx:272 | the details dialog offers the payment options for every invoice that is not paid, so for every pending or overdue one and whenever the card shows a due date |
| MyInvoices.Heading | src/Pages/MyInvoices.tsx:164 | the heading is the invoice number, or "Invoice #" followed by at most the first 8 characters of the id |
| MyInvoices.DialogHeading | src/Pages/MyInvoices.tsx:210 | the dialog heading is the invoice number, or "#" followed by at most the first 8 characters of the id |
| MyInvoices.HeadingsAgree | src/Pages/MyInvoices.tsx:164-210 | the card and the dialog name an invoice the same way, up to the word "Invoice " |
| MyInvoices.EmptyMessage | src/Pages/MyInvoices.tsx:131-135 | the empty list says there are no invoices yet on the All tab, and otherwise reads "No ", the tab's name and " invoices found." |
| MyInvoices.IconFor | src/Pages/MyInvoices.tsx:143 | Paid shows the check, Overdue and Cancelled the alert, and any other status falls back to the clock |
| Dashboard.UpcomingIsPrefixOfTab | src/Pages/Dashboard.tsx:65-67 | the dashboard lists at most three appointments, the first ones of the upcoming subsequence (date at or after now, not cancelled), in order |
| Dashboard.PendingBillsAndTotal | src/Pages/Dashboard.tsx:69-70 | pending bills are exactly the Pending invoices, with Overdue excluded; the total owed is their sum, which is the invoices page's amount due less the overdue sum |
| Dashboard.RecentInvoices | src/Pages/Dashboard.tsx:338 | the recent invoices are at most the first three invoices, in input order |
| Dashboard.InvoiceLabel | src/Pages/Dashboard.tsx:347 | a recent invoice is titled by its number, or "Invoice" when it has none |
| Dashboard.Badge | src/Pages/Dashboard.tsx:114-117 | the bell badge is shown exactly when some appointment is upcoming, and then shows the number of appointments the dashboard lists (1 to 3) |
| Dashboard.Greeting | src/Pages/Dashboard.tsx:215 | the greeting is the text before the first space of the full name, or "Patient" when there is no user, no name, or that text is empty; it is never empty and has no space |
| Dashboard.GreetingExamples | src/Pages/Dashboard.tsx:215 | "Thandi Nkosi" and "Thandi" greet Thandi, while " Thandi" and "" greet Patient |
| Dashboard.HeaderName | src/Pages/Dashboard.tsx:125 | the header shows the full name, or "Patient" when it is missing or empty |
| Dashboard.GreetingIsFirstWordOfHeader | src/Pages/Dashboard.tsx:125-215 | the greeting is the first word of the header name |
| Dashboard.Stats | src/Pages/Dashboard.tsx:222-227 | the quick stats show the number of appointments the dashboard lists (at most three), the number of records, the number of Pending invoices (no more than the invoices) and their total owed, which is 0 when none is pending |
| MyRecords.ToggleFlipsOnlyItsRecord | src/Pages/MyRecords.tsx:40-42 | a toggle flips the open state of its record (an untoggled record reads as closed) and leaves every other key as it was |
| MyRecords.ToggleTwice | src/Pages/MyRecords.tsx:40-42 | toggling the same record twice restores every open state, and the whole map when the record had been toggled before |
| MyRecords.ToggleParity | src/Pages/MyRecords.tsx:40-42 | after a run of clicks, a record's state has flipped exactly when it was clicked an odd number of times |
| MyRecords.RecordsView.constructor | src/Pages/MyRecords.tsx:30 | initially no record is open |
| MyRecords.RecordsView.ToggleRecord | src/Pages/MyRecords.tsx:40-42 | a click flips the clicked record and no other |
| MyRecords.IconFor | src/Pages/MyRecords.tsx:108 | consultations, prescriptions and surgery reports have their own icons, and every other type falls back to the file icon |
| MyRecords.ShowVitals | src/Pages/MyRecords.tsx:177 | the vitals block is shown exactly when the record has vitals with at least one key |
| MyRecords.ShownVitals | src/Pages/MyRecords.tsx:180-203 | the vitals block lists blood pressure, heart rate, temperature and weight, each exactly when set, in that order |
| HealthChat.AppendUserMessageSpec | src/Pages/HealthChat.tsx:85-90 | a send appends exactly one message at the end, keeps the earlier ones, and the message is the patient's, a non-empty slice of the input without surrounding whitespace |
| HealthChat.ButtonMatchesGuard | src/Pages/HealthChat.tsx:256 | the send button is disabled exactly when the trimmed input is empty or a send is loading; with a conversation it matches the send guard, and without one nothing is sent |
| HealthChat.ChatSession.constructor | src/Pages/HealthChat.tsx:41-44 | the chat starts with no messages, an empty input, not loading and no conversation |
| HealthChat.ChatSession.InitConversation | src/Pages/HealthChat.tsx:56-80 | initialisation records the conversation and leaves exactly the assistant's welcome message, so the quick questions show |
| HealthChat.ChatSession.OnSubscriptionUpdate | src/Pages/HealthChat.tsx:66-69 | an update replaces the whole log only when it carries messages |
| HealthChat.ChatSession.SetInput | src/Pages/HealthChat.tsx:247-251 | typing sets the input, and is possible only while no send is in flight |
| HealthChat.ChatSession.AskQuickQuestion | src/Pages/HealthChat.tsx:214-226 | a quick question, on screen while the log holds at most one message, sets the input to its text, which enables sending unless a send is loading |
| HealthChat.ChatSession.Send | src/Pages/HealthChat.tsx:82-96 | with a blank input, no conversation or a send loading nothing changes; otherwise the trimmed input is appended as the patient's message, the input is cleared, loading is set and that text is posted |
| HealthChat.ChatSession.SendSettled | src/Pages/HealthChat.tsx:97-98 | loading is false after the send whatever its outcome |
| HealthChat.QuestionInitial | src/Pages/HealthChat.tsx:102-107 | no quick question starts with whitespace |
| HealthChat.OpeningExchange | src/Pages/HealthChat.tsx:56-98 | after the welcome, a typed non-blank question is posted trimmed and the log is exactly the welcome and that question; a second Send finds the input cleared and posts nothing; the quick questions are gone, and once the send settles nothing is loading |
| Routes.CreatePageUrl | src/utils/index.ts:1-12 | a known page maps to its listed path, an unknown page maps to "/", and every URL starts with "/" |
| Routes.KnownPages | src/utils/index.ts:2-10 | the seven page names and their seven paths |
| Routes.PathsAreDistinct | src/utils/index.ts:2-10 | the seven paths are pairwise distinct |
| Routes.HomeIsTheDefault | src/utils/index.ts:3-11 | a URL is "/" exactly when the page is Home or unknown |
| Routes.NavLinksAreDistinct | src/Pages/Dashboard.tsx:72-78 | the dashboard's five menu entries lead to five different pages, none of them home |
| Dates.FormatThenParse | src/Pages/BookAppointment.tsx:149 | a date of years 1 to 9999 written as `yyyy-MM-dd` reads back as the same date |
| Dates.ParseThenFormat | src/Pages/MyAppointments.tsx:53 | a text that reads as a date of year 1 or later is exactly how that date is written |
| Dates.YearZeroDoesNotRoundTrip | src/Pages/BookAppointment.tsx:149 | year 0 is written as era year 0001, so it does not read back |
| Dates.MidnightMonotone | src/Pages/BookAppointment.tsx:567-569 | midnights are ordered as the days are |
| Entities.OrElse | src/Pages/BookAppointment.tsx:91-92 | `x \|\| fallback` is the value when it is present and non-empty, and the fallback otherwise |

## Left out

- Time zones. Every instant is local time. `new Date("yyyy-MM-dd")` on the appointments
  and dashboard pages reads the text as UTC midnight, while the picker compares local
  midnights. The model reads both as local midnight.
- MyAppointments.OnOrAfter and MyAppointments.Before read only `yyyy-MM-dd` text. Other
  text that `new Date` accepts (with a time, or in other layouts) counts as an invalid date.
  The booking wizard stores only the `yyyy-MM-dd` form.
- Dates.MonthStart carries months into years over all integers. JavaScript's
  `new Date(y, m, 1)` reads years 0 to 99 as 1900 to 1999, and gives an Invalid Date
  beyond 8.64e15 ms either side of 1970. Neither is modelled, so the calendar's Previous
  and Next buttons differ from the source when they reach those years.
- Calendar.CalendarView.HandleDayClick requires a day between 1 and the month's length.
  The grid only offers those days. `new Date` normalisation of day 0 or day 32 is not
  modelled.
- Calendar.CalendarView.constructor takes today as a date. The time of day of the
  initial `currentMonth` is not kept, because nothing reads it.
- The calendar's `mode` prop, the `className` prop, the header's month name and all styling.
- Dates.FormatFullDate: years before 1 print their era year (so year 0 prints as 0001).
  Years after 9999 print more digits than the parser reads. The round trip is proved
  for years 1 to 9999 only.
- Money: invoice totals are whole rand (`int`). JavaScript adds floating-point numbers.
  The `toLocaleString` currency display is not modelled.
- MyInvoices.AmountDueShownIff assumes no negative totals. The store does not promise
  this, and the card hides a positive sum that negative totals cancel out.
- The `dd MMM yyyy`, `dd MMMM yyyy` and `EEEE, dd MMM yyyy` display formats, the status
  badge colours, icons other than the fallbacks, animation and Markdown rendering.
- Fetching: the store's `filter`, `list`, `create` and `update`, the session service
  and the assistant service are outside the model. Their results enter as parameters:
  - the roster;
  - the session answer;
  - the create outcome;
  - the conversation id;
  - the subscription payload.
- The refetched list after a cancellation is computed by `MyAppointments.ApplyUpdate`
  under an assumed store behaviour: the update changes the status of the records with
  that id and nothing else.
- Query caching and invalidation, effect ordering and races between handlers.
  Each step of a handler is atomic. The wizard's Confirm is modelled with
  `Booking.BookingWizard.Confirm` and `Booking.BookingWizard.CreateSettled`. The chat's
  send is modelled with `HealthChat.ChatSession.Send` and `HealthChat.ChatSession.SendSettled`.
- Booking.BookingWizard.CheckUser keeps the gates only when the session supplies a name
  and an email. A late prefill with an empty name can leave a later step whose gate no
  longer holds. The source has the same race.
- Booking.BookingWizard.Edit requires the input's step to be the current step and the
  wizard not to be submitted. Inputs render only on their step, and the submitted screen
  replaces the form.
- The summary shown on step 3 and the submitted screen's text.
- The contents of the invoice details dialog other than its heading and the
  payment-options note (`MyInvoices.ShowPaymentOptions`): line items, subtotal and VAT.
- The record card fields other than the icon and the vitals. Vitals values are text, so
  a numeric 0 reading, which JavaScript treats as unset, is not represented.
- Routes.CreatePageUrl: the lookup is modelled on the seven own keys of the table.
  Names inherited from the object prototype (such as "toString") are not modelled.
- `src/Pages/Home.tsx`, `src/App.tsx` and `src/api/base44Client.ts` are not part of this model.
