/** The citizen's dashboard (src/pages/Dashboard.tsx). */
module CitizenDashboard {
  import opened Wrappers
  import opened Rows
  import opened Query
  import CitizenPropertyTax
  import CitizenCertificates
  import CitizenGrievances

  datatype DashboardStats = DashboardStats(
    totalCertificates: nat,
    pendingCertificates: nat,
    totalGrievances: nat,
    pendingGrievances: nat,
    propertyTaxDue: nat,
    announcements: nat)

  /** The figures the page starts with. */
  const ZeroStats := DashboardStats(0, 0, 0, 0, 0, 0)

  /** The user's rows of a table whose query may yield null data (then none). */
  function Own<T(!new)>(data: Option<seq<T>>, owned: T -> bool): seq<T> {
    if data.Some? then Filter(data.value, owned) else []
  }

  /** The `.eq("user_id", user.id)` certificate query: every one of the user's rows and no other. */
  function OwnCertificates(data: Option<seq<Certificate>>, user: UserId): (r: seq<Certificate>)
    ensures data.None? ==> r == []
    ensures data.Some? ==> forall c :: c in r <==> c in data.value && c.user_id == user
  {
    Own(data, (c: Certificate) => c.user_id == user)
  }

  /** The `.eq("user_id", user.id)` grievance query: every one of the user's rows and no other. */
  function OwnGrievances(data: Option<seq<Grievance>>, user: UserId): (r: seq<Grievance>)
    ensures data.None? ==> r == []
    ensures data.Some? ==> forall g :: g in r <==> g in data.value && g.user_id == user
  {
    Own(data, (g: Grievance) => g.user_id == user)
  }

  /** The property-tax query of `fetchStats` also filters on status "unpaid". */
  predicate OwnUnpaid(t: PropertyTax, user: UserId) {
    t.user_id == user && IsUnpaid(t)
  }

  predicate IsPending(c: Certificate) { c.status == "pending" }
  predicate IsUnresolved(g: Grievance) { g.status != "resolved" }

  /**
   * `fetchStats`, given each table as its query sees it (None where the data is
   * null): with no signed-in user the figures stay zero; otherwise the user's
   * certificates, pending ones, grievances, unresolved ones, unpaid tax rows,
   * and all announcements.
   */
  function FetchStats(user: Option<UserId>, certificates: Option<seq<Certificate>>, grievances: Option<seq<Grievance>>,
                      taxes: Option<seq<PropertyTax>>, announcements: Option<seq<Announcement>>): (s: DashboardStats)
    ensures user.None? ==> s == ZeroStats
    ensures s.pendingCertificates <= s.totalCertificates
    ensures s.pendingGrievances <= s.totalGrievances
    ensures user.Some? ==> s.announcements == if announcements.Some? then |announcements.value| else 0
  {
    if user.None? then ZeroStats
    else
      var uid := user.value;
      var certs, griefs := OwnCertificates(certificates, uid), OwnGrievances(grievances, uid);
      DashboardStats(
        |certs|,
        |Filter(certs, IsPending)|,
        |griefs|,
        |Filter(griefs, IsUnresolved)|,
        |Own(taxes, (t: PropertyTax) => OwnUnpaid(t, uid))|,
        if announcements.Some? then |announcements.value| else 0)
  }

  /**
   * The dashboard's "Property Tax Due" is the number of unpaid rows the
   * property-tax page lists for the same user, although that page filters by
   * status only after reading all of the user's rows and reorders them.
   */
  lemma TaxDueMatchesTaxPage(user: UserId, certificates: Option<seq<Certificate>>, grievances: Option<seq<Grievance>>,
                             taxes: seq<PropertyTax>, announcements: Option<seq<Announcement>>)
    ensures FetchStats(Some(user), certificates, grievances, Some(taxes), announcements).propertyTaxDue
         == CitizenPropertyTax.Summary(CitizenPropertyTax.OwnTaxes(taxes, user)).unpaid
  {
    var owned := Filter(taxes, (t: PropertyTax) => t.user_id == user);
    FilterPermutation(owned, CitizenPropertyTax.OwnTaxes(taxes, user), IsUnpaid, AmountOrZero);
    FilterFilter(taxes, (t: PropertyTax) => t.user_id == user, IsUnpaid, (t: PropertyTax) => OwnUnpaid(t, user));
  }

  /**
   * The dashboard's certificate figures are those of the certificates page for
   * the same user: its number of listed applications and of pending ones,
   * although that page orders them by creation time.
   */
  lemma CertificatesMatchCertificatesPage(user: UserId, certificates: seq<Certificate>, grievances: Option<seq<Grievance>>,
                                          taxes: Option<seq<PropertyTax>>, announcements: Option<seq<Announcement>>)
    ensures var s := FetchStats(Some(user), Some(certificates), grievances, taxes, announcements);
      && s.totalCertificates == |CitizenCertificates.OwnCertificates(certificates, user)|
      && s.pendingCertificates == |Filter(CitizenCertificates.OwnCertificates(certificates, user), IsPending)|
  {
    var owned := Filter(certificates, (c: Certificate) => c.user_id == user);
    FilterPermutation(owned, CitizenCertificates.OwnCertificates(certificates, user), IsPending, (c: Certificate) => 0);
  }

  /**
   * The dashboard's grievance figures are those of the grievances page for the
   * same user: its number of listed grievances and of unresolved ones.
   */
  lemma GrievancesMatchGrievancesPage(user: UserId, certificates: Option<seq<Certificate>>, grievances: seq<Grievance>,
                                      taxes: Option<seq<PropertyTax>>, announcements: Option<seq<Announcement>>)
    ensures var s := FetchStats(Some(user), certificates, Some(grievances), taxes, announcements);
      && s.totalGrievances == |CitizenGrievances.OwnGrievances(grievances, user)|
      && s.pendingGrievances == |Filter(CitizenGrievances.OwnGrievances(grievances, user), IsUnresolved)|
  {
    var owned := Filter(grievances, (g: Grievance) => g.user_id == user);
    FilterPermutation(owned, CitizenGrievances.OwnGrievances(grievances, user), IsUnresolved, (g: Grievance) => 0);
  }
}
