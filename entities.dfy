/**
  The records the portal reads from its backend store and session service. Only the
  fields the pages compute with are kept; a field the store may omit is an `Option`.
 */
module Entities {
  import opened Options

  /** A signed-in user's profile (`base44.auth.me()`). */
  datatype User = User(fullName: Option<string>, email: Option<string>)

  /** A doctor of the roster (`Doctor.list()`). */
  datatype Doctor = Doctor(id: string, fullName: string, title: Option<string>, specialisation: Option<string>)

  /** An appointment as listed back from the store; `date` is the stored `yyyy-MM-dd` text. */
  datatype Appointment = Appointment(
    id: string, appointmentType: string, department: string,
    date: string, time: string, doctorName: string, status: string)

  /** An invoice; `total` is its amount in whole rand. */
  datatype Invoice = Invoice(
    id: string, invoiceNumber: Option<string>, date: Option<string>,
    dueDate: Option<string>, total: Option<int>, status: string)

  /** `x || fallback` on an optional string: the fallback for a missing or empty value. */
  function OrElse(x: Option<string>, fallback: string): (r: string)
    ensures r == fallback || (x.Some? && r == x.value && r != "")
    ensures x.Some? && x.value != "" ==> r == x.value
  {
    if x.Some? && x.value != "" then x.value else fallback
  }
}
