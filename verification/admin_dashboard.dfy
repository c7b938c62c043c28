/** The administrator's dashboard (src/pages/admin/Dashboard.tsx). */
module AdminDashboard {
  import opened Wrappers
  import opened Rows
  import opened Query
  import AdminPropertyTax

  datatype AdminStats = AdminStats(
    totalCitizens: nat,
    pendingCertificates: nat,
    openGrievances: nat,
    taxCollection: int,
    approvedCertificates: nat,
    resolvedGrievances: nat)

  /** The figures shown before (or without) a completed fetch. */
  const InitialStats := AdminStats(0, 0, 0, 0, 0, 0)

  predicate IsCitizen(r: UserRole) { r.role == "citizen" }
  predicate IsPendingCertificate(c: Certificate) { c.status == "pending" }
  predicate IsApprovedCertificate(c: Certificate) { c.status == "approved" }
  predicate IsResolved(g: Grievance) { g.status == "resolved" }
  predicate IsOpen(g: Grievance) { g.status != "resolved" }

  /** `data?.filter(p).length || 0`: a count over query data that may be null. */
  function CountIn<T(!new)>(data: Option<seq<T>>, p: T -> bool): nat {
    if data.Some? then |Filter(data.value, p)| else 0
  }

  function Size<T>(data: Option<seq<T>>): nat {
    if data.Some? then |data.value| else 0
  }

  /**
   * `fetchAdminStats`, given what each of its four queries returned (None where
   * a query's data is null): the exact number of citizen role rows, counts of
   * certificates and grievances by status, and the amount collected over paid
   * tax rows.
   */
  function FetchAdminStats(roles: Option<seq<UserRole>>, certificates: Option<seq<Certificate>>,
                           grievances: Option<seq<Grievance>>, taxes: Option<seq<PropertyTax>>): (s: AdminStats)
    ensures s.pendingCertificates + s.approvedCertificates <= Size(certificates)
    ensures s.openGrievances + s.resolvedGrievances == Size(grievances)
    ensures s.totalCitizens <= Size(roles)
    ensures roles.None? ==> s.totalCitizens == 0
    ensures certificates.None? ==> s.pendingCertificates == 0 && s.approvedCertificates == 0
    ensures grievances.None? ==> s.openGrievances == 0 && s.resolvedGrievances == 0
    ensures taxes.None? ==> s.taxCollection == 0
    ensures roles.Some? ==> s.totalCitizens == |Filter(roles.value, IsCitizen)|
    ensures certificates.Some? ==>
      && s.pendingCertificates == |Filter(certificates.value, IsPendingCertificate)|
      && s.approvedCertificates == |Filter(certificates.value, IsApprovedCertificate)|
    ensures grievances.Some? ==>
      && s.openGrievances == |Filter(grievances.value, IsOpen)|
      && s.resolvedGrievances == |Filter(grievances.value, IsResolved)|
  {
    CertificateCounts(certificates);
    GrievanceCounts(grievances);
    var collected := if taxes.Some? then Total(Filter(taxes.value, IsPaid), AmountOrZero) else 0;
    AdminStats(CountIn(roles, IsCitizen), CountIn(certificates, IsPendingCertificate), CountIn(grievances, IsOpen),
               collected, CountIn(certificates, IsApprovedCertificate), CountIn(grievances, IsResolved))
  }

  /** Pending and approved certificates are two disjoint groups. */
  lemma CertificateCounts(certificates: Option<seq<Certificate>>)
    ensures CountIn(certificates, IsPendingCertificate) + CountIn(certificates, IsApprovedCertificate) <= Size(certificates)
  {
    if certificates.Some? {
      FilterDisjoint(certificates.value, IsPendingCertificate, IsApprovedCertificate);
    }
  }

  /** Open and resolved grievances: every grievance is in exactly one group. */
  lemma GrievanceCounts(grievances: Option<seq<Grievance>>)
    ensures CountIn(grievances, IsOpen) + CountIn(grievances, IsResolved) == Size(grievances)
  {
    if grievances.Some? {
      FilterPartition(grievances.value, IsOpen, IsResolved);
    }
  }

  /**
   * The dashboard's tax collection equals the "Total Collected" the property-tax
   * page computes from the same table, although that page reorders the rows.
   */
  lemma TaxCollectionMatchesTaxPage(roles: Option<seq<UserRole>>, certificates: Option<seq<Certificate>>,
                                    grievances: Option<seq<Grievance>>, taxes: seq<PropertyTax>, now: Time)
    ensures FetchAdminStats(roles, certificates, grievances, Some(taxes)).taxCollection
         == AdminPropertyTax.Stats(AdminPropertyTax.AllTaxes(taxes), now).totalCollected
  {
    FilterPermutation(taxes, AdminPropertyTax.AllTaxes(taxes), IsPaid, AmountOrZero);
  }

  const CardTitles := ["Total Citizens", "Pending Certificates", "Open Grievances",
                       "Tax Collection", "Approved Certificates", "Resolved Grievances"]

  /** The caption under the card at `index`. */
  function CardCaption(index: nat): (caption: string)
    ensures caption == "Requires attention" <==> index < 3
    ensures caption == "Total processed" <==> index >= 3
  {
    if index < 3 then "Requires attention" else "Total processed"
  }
}
