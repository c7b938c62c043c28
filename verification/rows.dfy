/** The rows of the hosted data store's tables, with the column names the pages use. */
module Rows {
  import opened Wrappers

  /** A timestamp in milliseconds since the epoch (what `Date.now()` returns). */
  type Time = nat
  /** A row's primary key, assigned by the store on insert. */
  type Id = nat
  /** An identity-provider user id. */
  type UserId = string

  datatype Certificate = Certificate(
    id: Id,
    user_id: UserId,
    certificate_type: string,
    applicant_name: string,
    details: map<string, string>,
    status: string,
    certificate_number: Option<string>,
    issue_date: Option<Time>,
    remarks: Option<string>,
    created_at: Time,
    application_date: Option<Time>)

  datatype PropertyTax = PropertyTax(
    id: Id,
    user_id: UserId,
    property_number: string,
    owner_name: string,
    property_address: string,
    property_type: string,
    area_sqft: Option<int>,
    tax_amount: Option<int>,
    due_date: Option<Time>,
    status: string,
    payment_date: Option<Time>,
    created_at: Time)

  datatype Grievance = Grievance(
    id: Id,
    user_id: UserId,
    category: string,
    subject: string,
    description: string,
    priority: string,
    status: string,
    admin_response: Option<string>,
    admin_remarks: Option<string>,
    updated_at: Option<Time>,
    created_at: Time)

  datatype Announcement = Announcement(
    id: Id,
    title: string,
    content: string,
    category: string,
    priority: string,
    published_date: Option<Time>,
    expiry_date: Option<Time>)

  datatype UserRole = UserRole(id: Id, user_id: UserId, role: string)

  /** A `profiles` row; its id is the user id it describes. */
  datatype Profile = Profile(
    id: UserId,
    full_name: Option<string>,
    email: Option<string>,
    phone: Option<string>,
    address: Option<string>)

  /** The badge variants the pages pass to their Badge component. */
  datatype Variant = Default | Secondary | Destructive | Success | Warning | Info | Outline

  /** A status badge: its variant and the text it shows. */
  datatype Badge = Badge(variant: Variant, text: string)

  /** A notification shown to the user; `destructive` marks an error toast. */
  datatype Toast = Toast(title: string, description: string, destructive: bool)

  function ErrorToast(message: string): Toast {
    Toast("Error", message, true)
  }

  function SuccessToast(message: string): Toast {
    Toast("Success", message, false)
  }

  /** `t.tax_amount || 0`: a missing amount (NULL, or NaN from parsing) counts as 0. */
  function AmountOrZero(t: PropertyTax): int {
    t.tax_amount.GetOr(0)
  }

  /**
   * `new Date(d).getTime()` for a date column: a NULL reaches `new Date` as
   * `null`, which converts to 0, so it reads as the epoch.
   */
  function DateMillis(d: Option<Time>): (ms: Time)
    ensures d.None? ==> ms == 0
    ensures d.Some? ==> ms == d.value
  {
    d.GetOr(0)
  }

  predicate IsPaid(t: PropertyTax) {
    t.status == "paid"
  }

  predicate IsUnpaid(t: PropertyTax) {
    t.status == "unpaid"
  }
}
