/** Daily usage: the stored total is exactly the charged payments, each charged once. */
module Metering {
  import opened Store
  import opened Funding
  import opened Effects

  type Usage = map<(MerchantId, int), int>

  /** The amounts charged to one merchant and day, one per write of the usage row. */
  ghost function Charged(charges: seq<PaymentId>, ps: Payments, m: MerchantId, day: int): int
    decreases |charges|
  {
    if charges == [] then 0
    else
      var id := charges[|charges| - 1];
      Charged(charges[..|charges| - 1], ps, m, day)
      + if id in ps && ps[id].details.merchantId == m && BusinessDate(ps[id]) == day then ps[id].details.amount else 0
  }

  ghost predicate Distinct(charges: seq<PaymentId>) {
    forall i, j | 0 <= i < j < |charges| :: charges[i] != charges[j]
  }

  /** A charged payment was admitted, and a charged credit holds a reservation. */
  predicate WasAdmitted(id: PaymentId, ps: Payments, hs: Holds) {
    && id in ps && !ps[id].status.Received? && !ps[id].status.ValidationFailed?
    && (ps[id].details.direction.Credit? ==> id in hs)
  }

  ghost predicate WithinLimits(usage: Usage, merchants: map<MerchantId, Merchant>) {
    forall slot | slot in usage ::
      slot.0 in merchants && usage[slot] <= merchants[slot.0].profile.dailyAmountLimit
  }

  ghost predicate Exact(usage: Usage, charges: seq<PaymentId>, ps: Payments) {
    forall m, day :: Utilized(usage, m, day) == Charged(charges, ps, m, day)
  }

  ghost predicate Metered(db: Db) {
    && Distinct(db.charges)
    && (forall i | 0 <= i < |db.charges| :: WasAdmitted(db.charges[i], db.payments, db.holds))
    && Exact(db.usage, db.charges, db.payments)
    && WithinLimits(db.usage, db.merchants)
  }

  /** What a charge reads of a payment never changes. */
  ghost predicate SameCharges(ps: Payments, qs: Payments) {
    forall id | id in ps :: id in qs && ps[id].details == qs[id].details && ps[id].createdAt == qs[id].createdAt
  }

  lemma {:induction false} ChargedIsStable(charges: seq<PaymentId>, ps: Payments, qs: Payments, m: MerchantId, day: int)
    requires SameCharges(ps, qs)
    requires forall i | 0 <= i < |charges| :: charges[i] in ps
    ensures Charged(charges, ps, m, day) == Charged(charges, qs, m, day)
    decreases |charges|
  {
    if charges != [] {
      ChargedIsStable(charges[..|charges| - 1], ps, qs, m, day);
      assert charges[|charges| - 1] in ps;
    }
  }

  /** Effects that write no usage keep the metering, as long as admitted payments stay admitted. */
  lemma UnchargedEffectMeters(db: Db, d: Db)
    requires Metered(db)
    requires d.usage == db.usage && d.charges == db.charges
    requires SameCharges(db.payments, d.payments)
    requires forall id | WasAdmitted(id, db.payments, db.holds) :: WasAdmitted(id, d.payments, d.holds)
    requires forall m | m in db.merchants :: m in d.merchants && d.merchants[m].profile == db.merchants[m].profile
    ensures Metered(d)
  {
    forall m, day ensures Utilized(d.usage, m, day) == Charged(d.charges, d.payments, m, day) {
      assert forall i | 0 <= i < |db.charges| :: WasAdmitted(db.charges[i], db.payments, db.holds);
      ChargedIsStable(db.charges, db.payments, d.payments, m, day);
    }
    forall i | 0 <= i < |d.charges| ensures WasAdmitted(d.charges[i], d.payments, d.holds) {
      assert WasAdmitted(db.charges[i], db.payments, db.holds);
    }
  }

  lemma AddUsageIsExact(db: Db, id: PaymentId)
    requires Exact(db.usage, db.charges, db.payments) && id in db.payments
    ensures var d := AddUsage(db, id); Exact(d.usage, d.charges, d.payments)
  {
    var d := AddUsage(db, id);
    forall m, day ensures Utilized(d.usage, m, day) == Charged(d.charges, d.payments, m, day) {
      assert Utilized(db.usage, m, day) == Charged(db.charges, db.payments, m, day);
      assert d.charges[..|d.charges| - 1] == db.charges;
    }
  }

  /** The check both reserve paths make before charging. */
  predicate FitsLimit(db: Db, id: PaymentId)
    requires id in db.payments
  {
    var p := db.payments[id];
    && p.details.merchantId in db.merchants
    && Utilized(db.usage, p.details.merchantId, BusinessDate(p)) + p.details.amount
       <= db.merchants[p.details.merchantId].profile.dailyAmountLimit
  }

  /** Admitting a payment: an uncharged one is charged, and afterwards counts as admitted. */
  lemma ChargeMeters(db: Db, d: Db, id: PaymentId)
    requires Metered(db) && id in db.payments && !WasAdmitted(id, db.payments, db.holds) && FitsLimit(db, id)
    requires d.payments.Keys == db.payments.Keys && SameCharges(db.payments, d.payments)
    requires forall x | WasAdmitted(x, db.payments, db.holds) :: WasAdmitted(x, d.payments, d.holds)
    requires WasAdmitted(id, d.payments, d.holds)
    requires d.usage == AddUsage(db, id).usage && d.charges == AddUsage(db, id).charges && d.merchants == db.merchants
    ensures Metered(d)
  {
    forall i | 0 <= i < |d.charges| ensures WasAdmitted(d.charges[i], d.payments, d.holds) {
      if i < |db.charges| {
        assert WasAdmitted(db.charges[i], db.payments, db.holds);
      }
    }
    forall i, j | 0 <= i < j < |d.charges| ensures d.charges[i] != d.charges[j] {
      assert WasAdmitted(db.charges[i], db.payments, db.holds);
    }
    AddUsageIsExact(db, id);
    forall m, day ensures Utilized(d.usage, m, day) == Charged(d.charges, d.payments, m, day) {
      ChargedIsStable(d.charges, db.payments, d.payments, m, day);
      assert Exact(d.usage, d.charges, db.payments);
    }
  }
}
