/** The administrator's property-tax page (src/pages/admin/PropertyTax.tsx). */
module AdminPropertyTax {
  import opened Wrappers
  import opened Rows
  import opened Query
  import opened Store

  /**
   * The add-record form. The numeric and date inputs are held as the values
   * they parse to; None is an empty or unparsable input.
   */
  datatype TaxForm = TaxForm(
    property_number: string,
    owner_name: string,
    property_address: string,
    property_type: string,
    area_sqft: Option<int>,
    tax_amount: Option<int>,
    due_date: Option<Time>,
    user_email: string)

  /** The form's value when the page opens and after a successful submission. */
  const DefaultTaxForm := TaxForm("", "", "", "residential", None, None, None, "")

  /**
   * The record `handleSubmit` inserts: the form's property fields, the
   * signed-in administrator's id or "" when there is none, and status "unpaid".
   */
  function NewTaxRecord(form: TaxForm, currentUser: Option<UserId>): (ins: TaxInsert)
    ensures ins.status == "unpaid"
    ensures ins.user_id == if currentUser.Some? then currentUser.value else ""
    ensures ins.property_number == form.property_number && ins.owner_name == form.owner_name
    ensures ins.property_address == form.property_address && ins.property_type == form.property_type
    ensures ins.area_sqft == form.area_sqft && ins.tax_amount == form.tax_amount
    ensures ins.due_date == form.due_date
  {
    TaxInsert(currentUser.GetOr(""), form.property_number, form.owner_name, form.property_address,
              form.property_type, form.area_sqft, form.tax_amount, form.due_date, "unpaid")
  }

  /** The e-mail typed into the form never reaches the record. */
  lemma EmailNotRecorded(form: TaxForm, email: string, currentUser: Option<UserId>)
    ensures NewTaxRecord(form.(user_email := email), currentUser) == NewTaxRecord(form, currentUser)
  {
  }

  /**
   * The overdue filter of `fetchTaxRecords`: an unpaid row whose due date is
   * before now. A NULL due date reads as the epoch, so it is past at any
   * positive time.
   */
  predicate IsOverdue(t: PropertyTax, now: Time): (b: bool)
    ensures b <==> IsUnpaid(t) && (if t.due_date.Some? then t.due_date.value < now else 0 < now)
  {
    IsUnpaid(t) && DateMillis(t.due_date) < now
  }

  /** An unpaid row with no due date counts as overdue as soon as the clock is past the epoch. */
  lemma NullDueDateOverdue(t: PropertyTax, now: Time)
    requires IsUnpaid(t) && t.due_date.None?
    ensures IsOverdue(t, now) <==> 0 < now
  {
  }

  datatype TaxStats = TaxStats(totalCollected: int, pending: nat, overdue: nat)

  /**
   * The stats `fetchTaxRecords` computes: the amount collected over paid rows,
   * the number of unpaid rows, and the number of those that are overdue.
   */
  function Stats(rows: seq<PropertyTax>, now: Time): (s: TaxStats)
    ensures s.overdue <= s.pending <= |rows|
    ensures s.pending == 0 ==> s.overdue == 0
  {
    var overdue := (t: PropertyTax) => IsOverdue(t, now);
    FilterMonotone(rows, IsUnpaid, overdue);
    TaxStats(Total(Filter(rows, IsPaid), AmountOrZero), |Filter(rows, IsUnpaid)|, |Filter(rows, overdue)|)
  }

  /**
   * `getStatusBadge`: "paid" is Paid whatever the due date; otherwise Overdue
   * once the due date has passed, a NULL due date counting as the epoch.
   */
  function StatusBadge(status: string, dueDate: Option<Time>, now: Time): (b: Badge)
    ensures status == "paid" ==> b == Badge(Default, "Paid")
    ensures status != "paid" && dueDate.Some? ==> (b.text == "Overdue" <==> dueDate.value < now)
    ensures status != "paid" && dueDate.None? ==> (b.text == "Overdue" <==> 0 < now)
    ensures status != "paid" ==> (b.text == "Pending" <==> b.text != "Overdue")
    ensures status != "paid" && b.text == "Pending" ==> b.variant == Secondary
    ensures b.text == "Overdue" <==> b.variant == Destructive
  {
    if status == "paid" then Badge(Default, "Paid")
    else if DateMillis(dueDate) < now then Badge(Destructive, "Overdue")
    else Badge(Secondary, "Pending")
  }

  /** A row counts as overdue exactly when it is unpaid and its badge reads Overdue. */
  lemma OverdueMatchesBadge(t: PropertyTax, now: Time)
    ensures IsOverdue(t, now) <==> IsUnpaid(t) && StatusBadge(t.status, t.due_date, now).text == "Overdue"
  {
  }

  /** Every record, latest due date first (a missing due date first of all). */
  function AllTaxes(rows: seq<PropertyTax>): seq<PropertyTax> {
    SortDesc(rows, TaxDueDate)
  }

  class AdminPropertyTaxPage {
    var taxRecords: seq<PropertyTax>
    var stats: TaxStats
    var loading: bool
    var isDialogOpen: bool
    var formData: TaxForm
    var toast: Option<Toast>

    constructor ()
      ensures taxRecords == [] && stats == TaxStats(0, 0, 0) && loading
      ensures !isDialogOpen && formData == DefaultTaxForm && toast == None
    {
      taxRecords, stats, loading := [], TaxStats(0, 0, 0), true;
      isDialogOpen, formData, toast := false, DefaultTaxForm, None;
    }

    /** `fetchTaxRecords`; on a read error records and stats are kept and only logged. */
    method FetchTaxRecords(store: Store, now: Time, readFails: bool)
      modifies this
      ensures !loading
      ensures readFails ==> taxRecords == old(taxRecords) && stats == old(stats)
      ensures !readFails ==> taxRecords == AllTaxes(store.propertyTax) && stats == Stats(taxRecords, now)
      ensures isDialogOpen == old(isDialogOpen) && formData == old(formData) && toast == old(toast)
    {
      if !readFails {
        var taxes := AllTaxes(store.propertyTax);
        stats := Stats(taxes, now);
        taxRecords := taxes;
      }
      loading := false;
    }

    /**
     * `handleSubmit`: inserts the form as a new unpaid record. On success the
     * dialog closes, the form returns to its defaults and the records are
     * refetched; on error the form is kept and the store's message is shown.
     */
    method HandleSubmit(store: Store, currentUser: Option<UserId>, now: Time,
                        writeError: Option<string>, refetchFails: bool) returns (inserted: Option<Id>)
      requires store.Valid()
      modifies this, store
      ensures store.Valid()
      ensures writeError.Some? ==>
        && inserted == None && store.propertyTax == old(store.propertyTax)
        && formData == old(formData) && isDialogOpen == old(isDialogOpen)
        && taxRecords == old(taxRecords) && stats == old(stats) && loading == old(loading)
        && toast == Some(ErrorToast(writeError.value))
      ensures writeError.None? ==>
        && inserted.Some?
        && (forall t :: t in old(store.propertyTax) ==> t.id != inserted.value)
        && store.propertyTax == old(store.propertyTax)
             + [NewPropertyTax(inserted.value, NewTaxRecord(old(formData), currentUser), now)]
        && !isDialogOpen && formData == DefaultTaxForm && !loading
        && toast == Some(SuccessToast("Property tax record added successfully!"))
        && (refetchFails ==> taxRecords == old(taxRecords) && stats == old(stats))
        && (!refetchFails ==> taxRecords == AllTaxes(store.propertyTax) && stats == Stats(taxRecords, now))
      ensures store.certificates == old(store.certificates) && store.grievances == old(store.grievances)
      ensures store.userRoles == old(store.userRoles) && store.announcements == old(store.announcements)
      ensures store.profiles == old(store.profiles)
    {
      inserted := None;
      if writeError.Some? {
        toast := Some(ErrorToast(writeError.value));
        return;
      }
      var id := store.InsertPropertyTax(NewTaxRecord(formData, currentUser), now);
      inserted := Some(id);
      toast := Some(SuccessToast("Property tax record added successfully!"));
      isDialogOpen := false;
      formData := DefaultTaxForm;
      FetchTaxRecords(store, now, refetchFails);
    }
  }
}
