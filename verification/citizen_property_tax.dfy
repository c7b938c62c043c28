/** The citizen's property-tax page (src/pages/PropertyTax.tsx). */
module CitizenPropertyTax {
  import opened Wrappers
  import opened Rows
  import opened Query
  import opened Store

  /** `fetchPropertyTax`' query: the user's own rows, newest first. */
  function OwnTaxes(rows: seq<PropertyTax>, user: UserId): (r: seq<PropertyTax>)
    ensures forall t :: t in r <==> t in rows && t.user_id == user
    ensures multiset(r) == multiset(Filter(rows, (t: PropertyTax) => t.user_id == user))
    ensures SortedDesc(r, TaxCreatedAt)
  {
    SortDesc(Filter(rows, (t: PropertyTax) => t.user_id == user), TaxCreatedAt)
  }

  /** The update `handlePayment` sends: status "paid" and the payment time. */
  function PaymentPatch(now: Time): (p: TaxPatch)
    ensures p.status == "paid" && p.payment_date == now
  {
    TaxPatch("paid", now)
  }

  datatype TaxSummary = TaxSummary(unpaid: nat, paid: nat, totalUnpaid: int, totalPaid: int)

  /** `getTaxStats`: counts and amount sums of the unpaid and of the paid rows. */
  function Summary(rows: seq<PropertyTax>): (s: TaxSummary)
    ensures s.unpaid + s.paid <= |rows|
  {
    FilterDisjoint(rows, IsUnpaid, IsPaid);
    var unpaid, paid := Filter(rows, IsUnpaid), Filter(rows, IsPaid);
    TaxSummary(|unpaid|, |paid|, Total(unpaid, AmountOrZero), Total(paid, AmountOrZero))
  }

  /** The rows' ids are pairwise distinct, as the table's primary key makes them. */
  predicate DistinctIds(rows: seq<PropertyTax>) {
    forall i, j :: 0 <= i < j < |rows| ==> rows[i].id != rows[j].id
  }

  lemma PatchTaxesCons(rows: seq<PropertyTax>, id: Id, p: TaxPatch)
    requires rows != []
    ensures PatchTaxes(rows, id, p)
      == [if rows[0].id == id then ApplyTaxPatch(rows[0], p) else rows[0]] + PatchTaxes(rows[1..], id, p)
  {
  }

  lemma PatchTaxesMissing(rows: seq<PropertyTax>, id: Id, p: TaxPatch)
    requires forall i :: 0 <= i < |rows| ==> rows[i].id != id
    ensures PatchTaxes(rows, id, p) == rows
  {
  }

  lemma SummaryCons(t: PropertyTax, rows: seq<PropertyTax>)
    ensures var s, r := Summary([t] + rows), Summary(rows);
      && s.unpaid == r.unpaid + (if IsUnpaid(t) then 1 else 0)
      && s.paid == r.paid + (if IsPaid(t) then 1 else 0)
      && s.totalUnpaid == r.totalUnpaid + (if IsUnpaid(t) then AmountOrZero(t) else 0)
      && s.totalPaid == r.totalPaid + (if IsPaid(t) then AmountOrZero(t) else 0)
  {
    assert ([t] + rows)[1..] == rows;
    var u := if IsUnpaid(t) then [t] else [];
    var q := if IsPaid(t) then [t] else [];
    assert Filter([t] + rows, IsUnpaid) == u + Filter(rows, IsUnpaid);
    assert Filter([t] + rows, IsPaid) == q + Filter(rows, IsPaid);
    TotalAppend(u, Filter(rows, IsUnpaid), AmountOrZero);
    TotalAppend(q, Filter(rows, IsPaid), AmountOrZero);
    assert Total([t], AmountOrZero) == AmountOrZero(t) + Total([t][1..], AmountOrZero);
  }

  /** `after` is `before` with one row of the given amount moved from unpaid to paid. */
  predicate MovedToPaid(before: TaxSummary, after: TaxSummary, amount: int) {
    && after.unpaid == before.unpaid - 1
    && after.paid == before.paid + 1
    && after.totalUnpaid == before.totalUnpaid - amount
    && after.totalPaid == before.totalPaid + amount
  }

  /** Paying the first row, whose id no later row has. */
  lemma PaymentAtHead(rows: seq<PropertyTax>, now: Time)
    requires DistinctIds(rows)
    requires rows != [] && IsUnpaid(rows[0])
    ensures MovedToPaid(Summary(rows), Summary(PatchTaxes(rows, rows[0].id, PaymentPatch(now))), AmountOrZero(rows[0]))
  {
    var id, p := rows[0].id, PaymentPatch(now);
    var head := ApplyTaxPatch(rows[0], p);
    PatchTaxesCons(rows, id, p);
    PatchTaxesMissing(rows[1..], id, p);
    assert PatchTaxes(rows, id, p) == [head] + rows[1..];
    assert rows == [rows[0]] + rows[1..];
    SummaryCons(rows[0], rows[1..]);
    SummaryCons(head, rows[1..]);
  }

  /** Paying a later row leaves the first row as it is. */
  lemma PaymentBehindHead(rows: seq<PropertyTax>, k: nat, now: Time)
    requires 0 < k < |rows| && rows[0].id != rows[k].id
    requires MovedToPaid(Summary(rows[1..]), Summary(PatchTaxes(rows[1..], rows[k].id, PaymentPatch(now))),
                         AmountOrZero(rows[k]))
    ensures MovedToPaid(Summary(rows), Summary(PatchTaxes(rows, rows[k].id, PaymentPatch(now))), AmountOrZero(rows[k]))
  {
    var id, p := rows[k].id, PaymentPatch(now);
    var tail := PatchTaxes(rows[1..], id, p);
    PatchTaxesCons(rows, id, p);
    assert PatchTaxes(rows, id, p) == [rows[0]] + tail;
    assert rows == [rows[0]] + rows[1..];
    SummaryCons(rows[0], rows[1..]);
    SummaryCons(rows[0], tail);
  }

  /**
   * Paying an unpaid row moves it, and its amount, from the unpaid figures to
   * the paid ones; no other figure changes.
   */
  lemma {:induction false} PaymentMovesAmount(rows: seq<PropertyTax>, k: nat, now: Time)
    requires DistinctIds(rows)
    requires k < |rows| && IsUnpaid(rows[k])
    ensures MovedToPaid(Summary(rows), Summary(PatchTaxes(rows, rows[k].id, PaymentPatch(now))), AmountOrZero(rows[k]))
  {
    if k == 0 {
      PaymentAtHead(rows, now);
    } else {
      assert DistinctIds(rows[1..]);
      assert rows[1..][k - 1] == rows[k];
      PaymentMovesAmount(rows[1..], k - 1, now);
      PaymentBehindHead(rows, k, now);
    }
  }

  /** The status badge reads Unpaid for every status but "paid". */
  predicate UnpaidBadgeShown(t: PropertyTax) {
    !IsPaid(t)
  }

  /** "Pay Now" is offered only for an unpaid row. */
  predicate PayNowOffered(t: PropertyTax) {
    IsUnpaid(t)
  }

  /** The action column shows "Paid on" for every status but "unpaid". */
  predicate PaidOnShown(t: PropertyTax) {
    !IsUnpaid(t)
  }

  /**
   * Each row gets exactly one of "Pay Now" and "Paid on"; a status that is
   * neither "paid" nor "unpaid" reads Unpaid in its badge and "Paid on" in its
   * action column.
   */
  lemma RowActions(t: PropertyTax)
    ensures PayNowOffered(t) != PaidOnShown(t)
    ensures PayNowOffered(t) ==> UnpaidBadgeShown(t)
    ensures !IsPaid(t) && !IsUnpaid(t) ==> UnpaidBadgeShown(t) && PaidOnShown(t)
  {
  }

  class PropertyTaxPage {
    var propertyTax: seq<PropertyTax>
    var toast: Option<Toast>

    constructor ()
      ensures propertyTax == [] && toast == None
    {
      propertyTax, toast := [], None;
    }

    /** `fetchPropertyTax`: with no signed-in user the list is untouched. */
    method FetchPropertyTax(store: Store, user: Option<UserId>, readFails: bool)
      modifies this
      ensures user.None? ==> propertyTax == old(propertyTax)
      ensures user.Some? ==>
        propertyTax == if readFails then [] else OwnTaxes(store.propertyTax, user.value)
      ensures toast == old(toast)
    {
      if user.None? {
        return;
      }
      propertyTax := if readFails then [] else OwnTaxes(store.propertyTax, user.value);
    }

    /**
     * `handlePayment`: marks the row with id `taxId` paid at `now`, whatever its
     * status; on success the list is refetched, on error the store's message is
     * shown and nothing is refetched.
     */
    method HandlePayment(store: Store, user: Option<UserId>, taxId: Id, now: Time,
                         writeError: Option<string>, refetchFails: bool)
      requires store.Valid()
      modifies this, store
      ensures store.Valid()
      ensures writeError.Some? ==>
        && store.propertyTax == old(store.propertyTax) && propertyTax == old(propertyTax)
        && toast == Some(ErrorToast(writeError.value))
      ensures writeError.None? ==>
        && store.propertyTax == PatchTaxes(old(store.propertyTax), taxId, PaymentPatch(now))
        && toast == Some(SuccessToast("Property tax paid successfully!"))
        && (user.None? ==> propertyTax == old(propertyTax))
        && (user.Some? ==> propertyTax == if refetchFails then [] else OwnTaxes(store.propertyTax, user.value))
      ensures store.certificates == old(store.certificates) && store.grievances == old(store.grievances)
      ensures store.userRoles == old(store.userRoles) && store.announcements == old(store.announcements)
      ensures store.profiles == old(store.profiles)
    {
      if writeError.Some? {
        toast := Some(ErrorToast(writeError.value));
        return;
      }
      store.UpdatePropertyTax(taxId, PaymentPatch(now));
      toast := Some(SuccessToast("Property tax paid successfully!"));
      FetchPropertyTax(store, user, refetchFails);
    }
  }
}
