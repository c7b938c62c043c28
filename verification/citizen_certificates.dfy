/** The citizen's certificate page (src/pages/Certificates.tsx). */
module CitizenCertificates {
  import opened Wrappers
  import opened Rows
  import opened Query
  import opened Store
  import AdminCertificates

  /** The application form's state. */
  datatype CertificateForm = CertificateForm(
    certificate_type: string,
    applicant_name: string,
    details: map<string, string>)

  /** The form's value when the page opens and after a successful submission. */
  const EmptyForm := CertificateForm("", "", map[])

  /** The record `handleSubmit` inserts: the current user and the form's three fields. */
  function Submission(user: UserId, form: CertificateForm): (ins: CertificateInsert)
    ensures ins.user_id == user
    ensures ins.certificate_type == form.certificate_type
    ensures ins.applicant_name == form.applicant_name
    ensures ins.details == form.details
  {
    CertificateInsert(user, form.certificate_type, form.applicant_name, form.details)
  }

  /** `fetchCertificates`' query: the user's own rows, newest first. */
  function OwnCertificates(rows: seq<Certificate>, user: UserId): (r: seq<Certificate>)
    ensures forall c :: c in r <==> c in rows && c.user_id == user
    ensures multiset(r) == multiset(Filter(rows, (c: Certificate) => c.user_id == user))
    ensures SortedDesc(r, CertificateCreatedAt)
  {
    SortDesc(Filter(rows, (c: Certificate) => c.user_id == user), CertificateCreatedAt)
  }

  /**
   * A submitted application shows up in the applicant's next listing with the
   * type and name from the form and the status "pending".
   */
  lemma SubmittedApplicationListed(rows: seq<Certificate>, id: Id, user: UserId, form: CertificateForm, now: Time)
    ensures var listing := OwnCertificates(rows + [NewCertificate(id, Submission(user, form), now)], user);
      exists c :: c in listing && c.id == id
        && c.certificate_type == form.certificate_type
        && c.applicant_name == form.applicant_name
        && c.status == "pending"
  {
    var c := NewCertificate(id, Submission(user, form), now);
    assert c in rows + [c];
  }

  /** A new application is pending, so it keeps every approved certificate issued. */
  lemma SubmissionKeepsApprovedIssued(rows: seq<Certificate>, id: Id, ins: CertificateInsert, now: Time)
    requires AdminCertificates.ApprovedAreIssued(rows)
    ensures AdminCertificates.ApprovedAreIssued(rows + [NewCertificate(id, ins, now)])
  {
  }

  /** `getStatusColor`. */
  function StatusColor(status: string): (v: Variant)
    ensures v == Success <==> status == "approved"
    ensures v == Destructive <==> status == "rejected"
    ensures v == Warning <==> status != "approved" && status != "rejected"
  {
    match status
    case "approved" => Success
    case "rejected" => Destructive
    case _ => Warning
  }

  /** "View Certificate" is offered only for an approved certificate. */
  predicate ViewOffered(c: Certificate) {
    c.status == "approved"
  }

  /** Where every approved certificate is issued, a viewable one has a number and an issue date to show. */
  lemma ViewedCertificateIsIssued(rows: seq<Certificate>, c: Certificate)
    requires AdminCertificates.ApprovedAreIssued(rows)
    requires c in rows && ViewOffered(c)
    ensures c.certificate_number.Some? && c.issue_date.Some?
  {
  }

  /** The "Remarks:" line: shown, with the remarks, only for non-empty remarks. */
  function RemarksLine(c: Certificate): (shown: Option<string>)
    ensures shown.Some? <==> c.remarks.Some? && c.remarks.value != ""
    ensures shown.Some? ==> shown == c.remarks
  {
    if c.remarks.Some? && c.remarks.value != "" then c.remarks else None
  }

  /**
   * The administrator's review never writes `remarks`: approving or rejecting
   * leaves the applicant's "Remarks:" line as it was, so a rejection gives no reason.
   */
  lemma ReviewKeepsRemarks(c: Certificate, status: string, now: Time, r: AdminCertificates.Draw)
    ensures RemarksLine(ApplyCertificatePatch(c, AdminCertificates.StatusPatch(status, now, r))) == RemarksLine(c)
  {
  }

  class CertificatesPage {
    var certificates: seq<Certificate>
    var isOpen: bool
    var formData: CertificateForm
    var toast: Option<Toast>

    constructor ()
      ensures certificates == [] && !isOpen && formData == EmptyForm && toast == None
    {
      certificates, isOpen, formData, toast := [], false, EmptyForm, None;
    }

    /** Typing into the form. */
    method EditForm(form: CertificateForm)
      modifies this
      ensures formData == form
      ensures certificates == old(certificates) && isOpen == old(isOpen) && toast == old(toast)
    {
      formData := form;
    }

    /**
     * `fetchCertificates`: with no signed-in user nothing changes; a read that
     * yields no data gives the empty list.
     */
    method FetchCertificates(store: Store, user: Option<UserId>, readFails: bool)
      modifies this
      ensures user.None? ==> certificates == old(certificates)
      ensures user.Some? ==>
        certificates == if readFails then [] else OwnCertificates(store.certificates, user.value)
      ensures isOpen == old(isOpen) && formData == old(formData) && toast == old(toast)
    {
      if user.None? {
        return;
      }
      certificates := if readFails then [] else OwnCertificates(store.certificates, user.value);
    }

    /**
     * `handleSubmit`: inserts the form as the user's application. On success the
     * dialog closes, the list is refetched and the form is emptied; on error the
     * form is kept and the store's message is shown.
     */
    method HandleSubmit(store: Store, user: Option<UserId>, now: Time,
                        writeError: Option<string>, refetchFails: bool) returns (inserted: Option<Id>)
      requires store.Valid()
      modifies this, store
      ensures store.Valid()
      ensures user.None? ==>
        && inserted == None && store.certificates == old(store.certificates)
        && certificates == old(certificates) && formData == old(formData)
        && isOpen == old(isOpen) && toast == old(toast)
      ensures user.Some? && writeError.Some? ==>
        && inserted == None && store.certificates == old(store.certificates)
        && certificates == old(certificates) && formData == old(formData)
        && isOpen == old(isOpen) && toast == Some(ErrorToast(writeError.value))
      ensures user.Some? && writeError.None? ==>
        && inserted.Some?
        && (forall c :: c in old(store.certificates) ==> c.id != inserted.value)
        && store.certificates == old(store.certificates)
             + [NewCertificate(inserted.value, Submission(user.value, old(formData)), now)]
        && !isOpen && formData == EmptyForm
        && toast == Some(SuccessToast("Certificate application submitted"))
        && certificates == if refetchFails then [] else OwnCertificates(store.certificates, user.value)
      ensures store.propertyTax == old(store.propertyTax) && store.grievances == old(store.grievances)
      ensures store.userRoles == old(store.userRoles) && store.announcements == old(store.announcements)
      ensures store.profiles == old(store.profiles)
    {
      inserted := None;
      if user.None? {
        return;
      }
      if writeError.Some? {
        toast := Some(ErrorToast(writeError.value));
        return;
      }
      var id := store.InsertCertificate(Submission(user.value, formData), now);
      inserted := Some(id);
      toast := Some(SuccessToast("Certificate application submitted"));
      isOpen := false;
      FetchCertificates(store, user, refetchFails);
      formData := EmptyForm;
    }
  }

  /** Fills in the form and submits it, with the store accepting the write. */
  method Submit(store: Store, page: CertificatesPage, user: UserId, form: CertificateForm, now: Time)
    returns (id: Id)
    requires store.Valid()
    modifies store, page
    ensures store.Valid()
    ensures forall c :: c in old(store.certificates) ==> c.id != id
    ensures store.certificates == old(store.certificates) + [NewCertificate(id, Submission(user, form), now)]
  {
    page.EditForm(form);
    var inserted := page.HandleSubmit(store, Some(user), now, None, false);
    id := inserted.value;
  }

  /**
   * Submitting the same form twice stores two applications: nothing
   * deduplicates submissions.
   */
  method SubmitTwice(store: Store, page: CertificatesPage, user: UserId, form: CertificateForm, now: Time)
    returns (first: Id, second: Id)
    requires store.Valid()
    modifies store, page
    ensures first != second
    ensures store.certificates == old(store.certificates)
      + [NewCertificate(first, Submission(user, form), now), NewCertificate(second, Submission(user, form), now)]
  {
    first := Submit(store, page, user, form, now);
    ghost var middle := store.certificates;
    second := Submit(store, page, user, form, now);
    assert NewCertificate(first, Submission(user, form), now) in middle;
  }
}
