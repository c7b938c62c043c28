/** The administrator's certificate review page (src/pages/admin/Certificates.tsx). */
module AdminCertificates {
  import opened Wrappers
  import opened Rows
  import opened Query
  import opened Store
  import Strings

  /** `Math.floor(Math.random() * 1000)`: a whole number from 0 to 999. */
  type Draw = r: nat | r < 1000

  /** The number stamped on an approved certificate: "CERT-<now>-<draw>". */
  function CertificateNumber(now: Time, r: Draw): (n: string)
    ensures |n| > 5 && n[..5] == "CERT-"
    ensures '-' in n[5..]
  {
    var n := "CERT-" + Strings.Show(now) + "-" + Strings.Show(r);
    assert n[5..][|Strings.Show(now)|] == '-';
    n
  }

  /** Reads the time and the draw back out of a certificate number. */
  function ParseCertificateNumber(s: string): Option<(nat, nat)> {
    if |s| >= 5 && s[..5] == "CERT-" then
      var rest := s[5..];
      match Strings.IndexOf(rest, '-')
      case None => None
      case Some(k) =>
        var a := Strings.Parse(rest[..k]);
        var b := Strings.Parse(rest[k + 1..]);
        if a.Some? && b.Some? then Some((a.value, b.value)) else None
    else None
  }

  /** A certificate number records exactly the time and the draw it was made from. */
  lemma CertificateNumberRoundTrip(now: Time, r: Draw)
    ensures ParseCertificateNumber(CertificateNumber(now, r)) == Some((now, r))
  {
    var t, d := Strings.Show(now), Strings.Show(r);
    var s := CertificateNumber(now, r);
    assert s[..5] == "CERT-";
    var rest := s[5..];
    assert rest == t + ['-'] + d;
    Strings.DigitsHaveNoDash(t);
    Strings.IndexOfFirst(t, '-', d);
    assert rest[..|t|] == t;
    assert rest[|t| + 1..] == d;
    Strings.ParseShow(now);
    Strings.ParseShow(r);
  }

  /** Approvals at different times, or with different draws, get different numbers. */
  lemma CertificateNumberInjective(now1: Time, r1: Draw, now2: Time, r2: Draw)
    requires now1 != now2 || r1 != r2
    ensures CertificateNumber(now1, r1) != CertificateNumber(now2, r2)
  {
    CertificateNumberRoundTrip(now1, r1);
    CertificateNumberRoundTrip(now2, r2);
  }

  /** The update `updateStatus(id, status)` sends. */
  function StatusPatch(status: string, now: Time, r: Draw): (p: CertificatePatch)
    ensures p.status == status
    ensures p.certificate_number.Some? <==> status == "approved"
    ensures p.issue_date.Some? <==> status == "approved"
    ensures status == "approved" ==>
      ParseCertificateNumber(p.certificate_number.value) == Some((now, r as nat)) && p.issue_date == Some(now)
  {
    CertificateNumberRoundTrip(now, r);
    if status == "approved" then
      CertificatePatch(status, Some(CertificateNumber(now, r)), Some(now))
    else
      CertificatePatch(status, None, None)
  }

  /**
   * Approving sets the status, a number made from `now` and the draw, and the
   * issue date `now`; any other status changes the status alone.
   */
  lemma StatusPatchEffect(c: Certificate, status: string, now: Time, r: Draw)
    ensures ApplyCertificatePatch(c, StatusPatch(status, now, r)).status == status
    ensures ApplyCertificatePatch(c, StatusPatch(status, now, r)).id == c.id
    ensures status == "approved" ==>
      var n := ApplyCertificatePatch(c, StatusPatch(status, now, r));
      && n.certificate_number.Some?
      && ParseCertificateNumber(n.certificate_number.value) == Some((now, r as nat))
      && n.issue_date == Some(now)
    ensures status != "approved" ==>
      ApplyCertificatePatch(c, StatusPatch(status, now, r)) == c.(status := status)
  {
    if status == "approved" {
      CertificateNumberRoundTrip(now, r);
    }
  }

  /** Every approved certificate carries a certificate number and an issue date. */
  predicate ApprovedAreIssued(rows: seq<Certificate>) {
    forall c :: c in rows && c.status == "approved" ==>
      c.certificate_number.Some? && c.issue_date.Some?
  }

  /** A status update from this page keeps every approved certificate issued. */
  lemma {:induction false} StatusUpdateKeepsApprovedIssued(rows: seq<Certificate>, id: Id, status: string, now: Time, r: Draw)
    requires ApprovedAreIssued(rows)
    ensures ApprovedAreIssued(PatchCertificates(rows, id, StatusPatch(status, now, r)))
  {
    var out := PatchCertificates(rows, id, StatusPatch(status, now, r));
    forall c | c in out && c.status == "approved"
      ensures c.certificate_number.Some? && c.issue_date.Some?
    {
      var i :| 0 <= i < |out| && out[i] == c;
      assert rows[i] in rows;
    }
  }

  /** Approve and Reject are offered only while the certificate is pending. */
  predicate ReviewOffered(c: Certificate) {
    c.status == "pending"
  }

  /** Once approved or rejected through the page, a certificate is not offered for review again. */
  lemma ReviewIsFinal(c: Certificate, status: string, now: Time, r: Draw)
    requires ReviewOffered(c)
    requires status == "approved" || status == "rejected"
    ensures !ReviewOffered(ApplyCertificatePatch(c, StatusPatch(status, now, r)))
  {
  }

  /** The success toast's text. */
  function SuccessMessage(status: string): (m: string)
    ensures |m| >= 12 + |status| && m[..12 + |status|] == "Certificate " + status
  {
    "Certificate " + status + " successfully!" + (if status == "approved" then " Certificate generated." else "")
  }

  predicate EndsWith(s: string, suffix: string) {
    |suffix| <= |s| && s[|s| - |suffix|..] == suffix
  }

  /** The success message mentions a generated certificate exactly when approving. */
  lemma SuccessMessageMentionsGeneration(status: string)
    ensures EndsWith(SuccessMessage(status), " Certificate generated.") <==> status == "approved"
  {
    var m := SuccessMessage(status);
    if status != "approved" {
      assert m[|m| - 1] == '!';
    }
  }

  /** `getStatusBadge`: an unknown status is styled as pending but labelled as it is. */
  function StatusBadge(status: string): (b: Badge)
    ensures b.text == status
    ensures b.variant == Default <==> status == "approved"
    ensures b.variant == Destructive <==> status == "rejected"
    ensures b.variant == Secondary <==> status != "approved" && status != "rejected"
  {
    var variant := match status
      case "approved" => Default
      case "rejected" => Destructive
      case _ => Secondary;
    Badge(variant, status)
  }

  /** Every certificate, newest first, as `fetchCertificates` selects them. */
  function AllCertificates(rows: seq<Certificate>): seq<Certificate> {
    SortDesc(rows, CertificateCreatedAt)
  }

  class AdminCertificatesPage {
    var certificates: seq<Certificate>
    var loading: bool
    var toast: Option<Toast>

    constructor ()
      ensures certificates == [] && loading && toast == None
    {
      certificates, loading, toast := [], true, None;
    }

    /** `fetchCertificates`; on a read error the list is kept and only logged. */
    method FetchCertificates(store: Store, readFails: bool)
      modifies this
      ensures !loading && toast == old(toast)
      ensures certificates == if readFails then old(certificates) else AllCertificates(store.certificates)
    {
      if !readFails {
        certificates := AllCertificates(store.certificates);
      }
      loading := false;
    }

    /**
     * `updateStatus`: on a store error the error toast carries the store's
     * message and nothing is refetched; on success the list is refetched.
     */
    method UpdateStatus(store: Store, id: Id, status: string, now: Time, r: Draw,
                        writeError: Option<string>, refetchFails: bool)
      requires store.Valid()
      modifies this, store
      ensures store.Valid()
      ensures writeError.Some? ==>
        && store.certificates == old(store.certificates)
        && certificates == old(certificates) && loading == old(loading)
        && toast == Some(ErrorToast(writeError.value))
      ensures writeError.None? ==>
        && store.certificates == PatchCertificates(old(store.certificates), id, StatusPatch(status, now, r))
        && toast == Some(SuccessToast(SuccessMessage(status)))
        && !loading
        && certificates == if refetchFails then old(certificates) else AllCertificates(store.certificates)
      ensures store.propertyTax == old(store.propertyTax) && store.grievances == old(store.grievances)
      ensures store.userRoles == old(store.userRoles) && store.announcements == old(store.announcements)
      ensures store.profiles == old(store.profiles)
    {
      var patch := StatusPatch(status, now, r);
      if writeError.Some? {
        toast := Some(ErrorToast(writeError.value));
        return;
      }
      store.UpdateCertificate(id, patch);
      toast := Some(SuccessToast(SuccessMessage(status)));
      FetchCertificates(store, refetchFails);
    }
  }
}
