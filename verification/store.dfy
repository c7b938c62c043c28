/**
 * The hosted data store, reduced to what the pages use: one table per
 * collection, `insert`, `update(patch).eq("id", id)` and `select`. Row ids and
 * `created_at` are the store's; the status a new certificate or grievance
 * starts with is the table's column default.
 */
module Store {
  import opened Wrappers
  import opened Rows

  /** The column default of `status` for a new certificate or grievance. */
  const DefaultStatus := "pending"

  /** The fields the citizen certificate form inserts. */
  datatype CertificateInsert = CertificateInsert(
    user_id: UserId,
    certificate_type: string,
    applicant_name: string,
    details: map<string, string>)

  /** The fields the admin property-tax form inserts. */
  datatype TaxInsert = TaxInsert(
    user_id: UserId,
    property_number: string,
    owner_name: string,
    property_address: string,
    property_type: string,
    area_sqft: Option<int>,
    tax_amount: Option<int>,
    due_date: Option<Time>,
    status: string)

  /** The fields the citizen grievance form inserts. */
  datatype GrievanceInsert = GrievanceInsert(
    user_id: UserId,
    category: string,
    subject: string,
    description: string,
    priority: string)

  /** A certificates update; a field that is None is not part of the patch. */
  datatype CertificatePatch = CertificatePatch(
    status: string,
    certificate_number: Option<string>,
    issue_date: Option<Time>)

  datatype TaxPatch = TaxPatch(status: string, payment_date: Time)

  datatype GrievancePatch = GrievancePatch(status: string, admin_response: string, updated_at: Time)

  function NewCertificate(id: Id, row: CertificateInsert, now: Time): Certificate {
    Certificate(id, row.user_id, row.certificate_type, row.applicant_name, row.details,
                DefaultStatus, None, None, None, now, None)
  }

  function NewPropertyTax(id: Id, row: TaxInsert, now: Time): PropertyTax {
    PropertyTax(id, row.user_id, row.property_number, row.owner_name, row.property_address,
                row.property_type, row.area_sqft, row.tax_amount, row.due_date, row.status,
                None, now)
  }

  function NewGrievance(id: Id, row: GrievanceInsert, now: Time): Grievance {
    Grievance(id, row.user_id, row.category, row.subject, row.description, row.priority,
              DefaultStatus, None, None, None, now)
  }

  function ApplyCertificatePatch(c: Certificate, p: CertificatePatch): Certificate {
    c.(status := p.status,
       certificate_number := if p.certificate_number.Some? then p.certificate_number else c.certificate_number,
       issue_date := if p.issue_date.Some? then p.issue_date else c.issue_date)
  }

  function ApplyTaxPatch(t: PropertyTax, p: TaxPatch): PropertyTax {
    t.(status := p.status, payment_date := Some(p.payment_date))
  }

  function ApplyGrievancePatch(g: Grievance, p: GrievancePatch): Grievance {
    g.(status := p.status, admin_response := Some(p.admin_response), updated_at := Some(p.updated_at))
  }

  /** `update(p).eq("id", id)` on the certificates table. */
  function PatchCertificates(rows: seq<Certificate>, id: Id, p: CertificatePatch): (r: seq<Certificate>)
    ensures |r| == |rows|
    ensures forall i :: 0 <= i < |rows| ==> r[i].id == rows[i].id
    ensures forall i :: 0 <= i < |rows| && rows[i].id != id ==> r[i] == rows[i]
    ensures forall i :: 0 <= i < |rows| && rows[i].id == id ==> r[i] == ApplyCertificatePatch(rows[i], p)
  {
    seq(|rows|, i requires 0 <= i < |rows| =>
      if rows[i].id == id then ApplyCertificatePatch(rows[i], p) else rows[i])
  }

  /** `update(p).eq("id", id)` on the property_tax table. */
  function PatchTaxes(rows: seq<PropertyTax>, id: Id, p: TaxPatch): (r: seq<PropertyTax>)
    ensures |r| == |rows|
    ensures forall i :: 0 <= i < |rows| ==> r[i].id == rows[i].id
    ensures forall i :: 0 <= i < |rows| && rows[i].id != id ==> r[i] == rows[i]
    ensures forall i :: 0 <= i < |rows| && rows[i].id == id ==> r[i] == ApplyTaxPatch(rows[i], p)
  {
    seq(|rows|, i requires 0 <= i < |rows| =>
      if rows[i].id == id then ApplyTaxPatch(rows[i], p) else rows[i])
  }

  /** `update(p).eq("id", id)` on the grievances table. */
  function PatchGrievances(rows: seq<Grievance>, id: Id, p: GrievancePatch): (r: seq<Grievance>)
    ensures |r| == |rows|
    ensures forall i :: 0 <= i < |rows| ==> r[i].id == rows[i].id
    ensures forall i :: 0 <= i < |rows| && rows[i].id != id ==> r[i] == rows[i]
    ensures forall i :: 0 <= i < |rows| && rows[i].id == id ==> r[i] == ApplyGrievancePatch(rows[i], p)
  {
    seq(|rows|, i requires 0 <= i < |rows| =>
      if rows[i].id == id then ApplyGrievancePatch(rows[i], p) else rows[i])
  }

  function CertificateCreatedAt(c: Certificate): Option<int> { Some(c.created_at) }
  function TaxCreatedAt(t: PropertyTax): Option<int> { Some(t.created_at) }
  function TaxDueDate(t: PropertyTax): Option<int> { if t.due_date.Some? then Some(t.due_date.value) else None }
  function GrievanceCreatedAt(g: Grievance): Option<int> { Some(g.created_at) }
  function AnnouncementPublished(a: Announcement): Option<int> {
    if a.published_date.Some? then Some(a.published_date.value) else None
  }

  /** Every id is below `next`, and no two rows share one: the table's primary key. */
  ghost predicate Keyed<T>(rows: seq<T>, id: T -> Id, next: Id) {
    && (forall i :: 0 <= i < |rows| ==> id(rows[i]) < next)
    && (forall i, j :: 0 <= i < j < |rows| ==> id(rows[i]) != id(rows[j]))
  }

  class Store {
    var certificates: seq<Certificate>
    var propertyTax: seq<PropertyTax>
    var grievances: seq<Grievance>
    var announcements: seq<Announcement>
    var userRoles: seq<UserRole>
    var profiles: seq<Profile>
    /** The id the next inserted row receives. */
    var nextId: Id

    ghost predicate Valid()
      reads this
    {
      && Keyed(certificates, (c: Certificate) => c.id, nextId)
      && Keyed(propertyTax, (t: PropertyTax) => t.id, nextId)
      && Keyed(grievances, (g: Grievance) => g.id, nextId)
    }

    constructor (announcements: seq<Announcement>, userRoles: seq<UserRole>, profiles: seq<Profile>)
      ensures Valid()
      ensures certificates == [] && propertyTax == [] && grievances == []
      ensures this.announcements == announcements && this.userRoles == userRoles
      ensures this.profiles == profiles
    {
      certificates, propertyTax, grievances := [], [], [];
      this.announcements, this.userRoles, this.profiles := announcements, userRoles, profiles;
      nextId := 0;
    }

    method InsertCertificate(row: CertificateInsert, now: Time) returns (id: Id)
      requires Valid()
      modifies this
      ensures Valid()
      ensures forall c :: c in old(certificates) ==> c.id != id
      ensures certificates == old(certificates) + [NewCertificate(id, row, now)]
      ensures propertyTax == old(propertyTax) && grievances == old(grievances)
      ensures announcements == old(announcements) && userRoles == old(userRoles)
      ensures profiles == old(profiles)
    {
      id := nextId;
      certificates := certificates + [NewCertificate(id, row, now)];
      nextId := nextId + 1;
    }

    method InsertPropertyTax(row: TaxInsert, now: Time) returns (id: Id)
      requires Valid()
      modifies this
      ensures Valid()
      ensures forall t :: t in old(propertyTax) ==> t.id != id
      ensures propertyTax == old(propertyTax) + [NewPropertyTax(id, row, now)]
      ensures certificates == old(certificates) && grievances == old(grievances)
      ensures announcements == old(announcements) && userRoles == old(userRoles)
      ensures profiles == old(profiles)
    {
      id := nextId;
      propertyTax := propertyTax + [NewPropertyTax(id, row, now)];
      nextId := nextId + 1;
    }

    method InsertGrievance(row: GrievanceInsert, now: Time) returns (id: Id)
      requires Valid()
      modifies this
      ensures Valid()
      ensures forall g :: g in old(grievances) ==> g.id != id
      ensures grievances == old(grievances) + [NewGrievance(id, row, now)]
      ensures certificates == old(certificates) && propertyTax == old(propertyTax)
      ensures announcements == old(announcements) && userRoles == old(userRoles)
      ensures profiles == old(profiles)
    {
      id := nextId;
      grievances := grievances + [NewGrievance(id, row, now)];
      nextId := nextId + 1;
    }

    method UpdateCertificate(id: Id, p: CertificatePatch)
      requires Valid()
      modifies this
      ensures Valid()
      ensures certificates == PatchCertificates(old(certificates), id, p)
      ensures propertyTax == old(propertyTax) && grievances == old(grievances)
      ensures announcements == old(announcements) && userRoles == old(userRoles)
      ensures profiles == old(profiles) && nextId == old(nextId)
    {
      certificates := PatchCertificates(certificates, id, p);
    }

    method UpdatePropertyTax(id: Id, p: TaxPatch)
      requires Valid()
      modifies this
      ensures Valid()
      ensures propertyTax == PatchTaxes(old(propertyTax), id, p)
      ensures certificates == old(certificates) && grievances == old(grievances)
      ensures announcements == old(announcements) && userRoles == old(userRoles)
      ensures profiles == old(profiles) && nextId == old(nextId)
    {
      propertyTax := PatchTaxes(propertyTax, id, p);
    }

    method UpdateGrievance(id: Id, p: GrievancePatch)
      requires Valid()
      modifies this
      ensures Valid()
      ensures grievances == PatchGrievances(old(grievances), id, p)
      ensures certificates == old(certificates) && propertyTax == old(propertyTax)
      ensures announcements == old(announcements) && userRoles == old(userRoles)
      ensures profiles == old(profiles) && nextId == old(nextId)
    {
      grievances := PatchGrievances(grievances, id, p);
    }
  }
}
