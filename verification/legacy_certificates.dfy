/**
 * The older citizen certificate page (Certificates.tsx at the top of the
 * repository). Its fetch and submit are those of src/pages/Certificates.tsx;
 * it differs in reading the application date from `application_date` and in
 * offering no certificate view.
 */
module LegacyCertificates {
  import opened Wrappers
  import opened Rows
  import opened Store
  import opened CitizenCertificates

  /**
   * The "Applied on" date: this page reads `application_date`, not
   * `created_at`, and a NULL there shows as the epoch.
   */
  function AppliedOn(c: Certificate): (t: Time)
    ensures c.application_date.Some? ==> t == c.application_date.value
    ensures c.application_date.None? ==> t == 0
  {
    DateMillis(c.application_date)
  }

  /**
   * The pages never write `application_date`. If the column has no default
   * (as the store model assumes), an application submitted here shows
   * "Applied on" the epoch, not its creation time; with a default the page
   * shows that default instead.
   */
  lemma SubmittedAppliedOnEpoch(id: Id, user: UserId, form: CertificateForm, now: Time)
    ensures AppliedOn(NewCertificate(id, Submission(user, form), now)) == 0
  {
  }

  class LegacyCertificatesPage {
    var certificates: seq<Certificate>
    var isOpen: bool
    var formData: CertificateForm
    var toast: Option<Toast>

    constructor ()
      ensures certificates == [] && !isOpen && formData == EmptyForm && toast == None
    {
      certificates, isOpen, formData, toast := [], false, EmptyForm, None;
    }

    method FetchCertificates(store: Store, user: Option<UserId>, readFails: bool)
      modifies this
      ensures user.None? ==> certificates == old(certificates)
      ensures user.Some? ==>
        certificates == if readFails then [] else OwnCertificates(store.certificates, user.value)
      ensures isOpen == old(isOpen) && formData == old(formData) && toast == old(toast)
    {
      if user.None? {
        return;
      }
      certificates := if readFails then [] else OwnCertificates(store.certificates, user.value);
    }

    method HandleSubmit(store: Store, user: Option<UserId>, now: Time,
                        writeError: Option<string>, refetchFails: bool) returns (inserted: Option<Id>)
      requires store.Valid()
      modifies this, store
      ensures store.Valid()
      ensures user.None? ==>
        && inserted == None && store.certificates == old(store.certificates)
        && certificates == old(certificates) && formData == old(formData)
        && isOpen == old(isOpen) && toast == old(toast)
      ensures user.Some? && writeError.Some? ==>
        && inserted == None && store.certificates == old(store.certificates)
        && certificates == old(certificates) && formData == old(formData)
        && isOpen == old(isOpen) && toast == Some(ErrorToast(writeError.value))
      ensures user.Some? && writeError.None? ==>
        && inserted.Some?
        && (forall c :: c in old(store.certificates) ==> c.id != inserted.value)
        && store.certificates == old(store.certificates)
             + [NewCertificate(inserted.value, Submission(user.value, old(formData)), now)]
        && !isOpen && formData == EmptyForm
        && toast == Some(SuccessToast("Certificate application submitted"))
        && certificates == if refetchFails then [] else OwnCertificates(store.certificates, user.value)
      ensures store.propertyTax == old(store.propertyTax) && store.grievances == old(store.grievances)
      ensures store.userRoles == old(store.userRoles) && store.announcements == old(store.announcements)
      ensures store.profiles == old(store.profiles)
    {
      inserted := None;
      if user.None? {
        return;
      }
      if writeError.Some? {
        toast := Some(ErrorToast(writeError.value));
        return;
      }
      var id := store.InsertCertificate(Submission(user.value, formData), now);
      inserted := Some(id);
      toast := Some(SuccessToast("Certificate application submitted"));
      isOpen := false;
      FetchCertificates(store, user, refetchFails);
      formData := EmptyForm;
    }
  }
}
