/** The citizen's grievance page (src/pages/Grievances.tsx). */
module CitizenGrievances {
  import opened Wrappers
  import opened Rows
  import opened Query
  import opened Store

  datatype GrievanceForm = GrievanceForm(
    category: string,
    subject: string,
    description: string,
    priority: string)

  /** The form's value when the page opens and after a successful submission. */
  const EmptyGrievanceForm := GrievanceForm("", "", "", "normal")

  /** The record `handleSubmit` inserts: the current user and every form field. */
  function Submission(user: UserId, form: GrievanceForm): (ins: GrievanceInsert)
    ensures ins.user_id == user
    ensures ins.category == form.category && ins.subject == form.subject
    ensures ins.description == form.description && ins.priority == form.priority
  {
    GrievanceInsert(user, form.category, form.subject, form.description, form.priority)
  }

  /** `fetchGrievances`' query: the user's own rows, newest first. */
  function OwnGrievances(rows: seq<Grievance>, user: UserId): (r: seq<Grievance>)
    ensures forall g :: g in r <==> g in rows && g.user_id == user
    ensures multiset(r) == multiset(Filter(rows, (g: Grievance) => g.user_id == user))
    ensures SortedDesc(r, GrievanceCreatedAt)
  {
    SortDesc(Filter(rows, (g: Grievance) => g.user_id == user), GrievanceCreatedAt)
  }

  /** `getStatusColor`. */
  function StatusColor(status: string): (v: Variant)
    ensures v == Success <==> status == "resolved"
    ensures v == Destructive <==> status == "rejected"
    ensures v == Info <==> status == "in-progress"
    ensures v == Warning <==> status != "resolved" && status != "rejected" && status != "in-progress"
  {
    match status
    case "resolved" => Success
    case "rejected" => Destructive
    case "in-progress" => Info
    case _ => Warning
  }

  /** `getPriorityColor`, shared word for word by the announcements page. */
  function PriorityColor(priority: string): (v: Variant)
    ensures v == Destructive <==> priority == "urgent"
    ensures v == Warning <==> priority == "high"
    ensures v == Secondary <==> priority != "urgent" && priority != "high"
  {
    match priority
    case "urgent" => Destructive
    case "high" => Warning
    case _ => Secondary
  }

  /** The "Admin Response" line, read from `admin_remarks`; None when it is not shown. */
  function AdminResponseShown(g: Grievance): (shown: Option<string>)
    ensures shown.Some? <==> g.admin_remarks.Some? && g.admin_remarks.value != ""
    ensures shown.Some? ==> shown == g.admin_remarks
  {
    if g.admin_remarks.Some? && g.admin_remarks.value != "" then g.admin_remarks else None
  }

  /**
   * An administrator's status update writes `admin_response`, which this page
   * never reads: what the citizen sees as the admin response is unchanged by it.
   */
  lemma AdminUpdateNotShown(g: Grievance, p: GrievancePatch)
    ensures AdminResponseShown(ApplyGrievancePatch(g, p)) == AdminResponseShown(g)
  {
  }

  class GrievancesPage {
    var grievances: seq<Grievance>
    var isOpen: bool
    var formData: GrievanceForm
    var toast: Option<Toast>

    constructor ()
      ensures grievances == [] && !isOpen && formData == EmptyGrievanceForm && toast == None
    {
      grievances, isOpen, formData, toast := [], false, EmptyGrievanceForm, None;
    }

    method EditForm(form: GrievanceForm)
      modifies this
      ensures formData == form
      ensures grievances == old(grievances) && isOpen == old(isOpen) && toast == old(toast)
    {
      formData := form;
    }

    /** `fetchGrievances`: with no signed-in user nothing changes. */
    method FetchGrievances(store: Store, user: Option<UserId>, readFails: bool)
      modifies this
      ensures user.None? ==> grievances == old(grievances)
      ensures user.Some? ==>
        grievances == if readFails then [] else OwnGrievances(store.grievances, user.value)
      ensures isOpen == old(isOpen) && formData == old(formData) && toast == old(toast)
    {
      if user.None? {
        return;
      }
      grievances := if readFails then [] else OwnGrievances(store.grievances, user.value);
    }

    /**
     * `handleSubmit`: with no signed-in user nothing is inserted. On success the
     * dialog closes, the list is refetched and the form is reset (priority back
     * to "normal"); on error the form is kept and the store's message is shown.
     */
    method HandleSubmit(store: Store, user: Option<UserId>, now: Time,
                        writeError: Option<string>, refetchFails: bool) returns (inserted: Option<Id>)
      requires store.Valid()
      modifies this, store
      ensures store.Valid()
      ensures user.None? ==>
        && inserted == None && store.grievances == old(store.grievances)
        && grievances == old(grievances) && formData == old(formData)
        && isOpen == old(isOpen) && toast == old(toast)
      ensures user.Some? && writeError.Some? ==>
        && inserted == None && store.grievances == old(store.grievances)
        && grievances == old(grievances) && formData == old(formData)
        && isOpen == old(isOpen) && toast == Some(ErrorToast(writeError.value))
      ensures user.Some? && writeError.None? ==>
        && inserted.Some?
        && (forall g :: g in old(store.grievances) ==> g.id != inserted.value)
        && store.grievances == old(store.grievances)
             + [NewGrievance(inserted.value, Submission(user.value, old(formData)), now)]
        && !isOpen && formData == EmptyGrievanceForm
        && toast == Some(SuccessToast("Grievance submitted successfully"))
        && grievances == if refetchFails then [] else OwnGrievances(store.grievances, user.value)
      ensures store.certificates == old(store.certificates) && store.propertyTax == old(store.propertyTax)
      ensures store.userRoles == old(store.userRoles) && store.announcements == old(store.announcements)
      ensures store.profiles == old(store.profiles)
    {
      inserted := None;
      if user.None? {
        return;
      }
      if writeError.Some? {
        toast := Some(ErrorToast(writeError.value));
        return;
      }
      var id := store.InsertGrievance(Submission(user.value, formData), now);
      inserted := Some(id);
      toast := Some(SuccessToast("Grievance submitted successfully"));
      isOpen := false;
      FetchGrievances(store, user, refetchFails);
      formData := EmptyGrievanceForm;
    }
  }
}
