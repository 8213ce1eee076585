/** The business day of a payment is a UTC calendar day, and the daily limit holds per calendar day. */
module Calendar {
  import opened Store
  import opened MapSums
  import opened Effects
  import opened Metering
  import opened Database
  import opened DailyLimits
  import opened System
  import Agreement
  import Funding
  import Safety
  import Theorems
  import Worker = WorkerLifecycle
  import Engine = PaymentEngine

  /** A UTC midnight, in milliseconds. */
  predicate IsMidnight(at: int) {
    at % (24 * 60 * 60 * 1_000) == 0
  }

  /** Before the next midnight. */
  predicate OnDayFrom(midnight: int, at: int) {
    midnight <= at < midnight + 24 * 60 * 60 * 1_000
  }

  ghost predicate SameDay(at: int, other: int) {
    exists midnight :: IsMidnight(midnight) && OnDayFrom(midnight, at) && OnDayFrom(midnight, other)
  }

  lemma DaysFromMidnight(p: Payment, midnight: int)
    requires IsMidnight(midnight)
    ensures OnDayFrom(midnight, p.createdAt) <==> midnight == BusinessDate(p) * (24 * 60 * 60 * 1_000)
    ensures IsMidnight(BusinessDate(p) * (24 * 60 * 60 * 1_000))
  {
  }

  /** Two payments share a usage row exactly when they are of one merchant and of one calendar day. */
  lemma UsageRowsAreCalendarDays(p: Payment, q: Payment)
    ensures (p.details.merchantId, BusinessDate(p)) == (q.details.merchantId, BusinessDate(q)) <==>
            p.details.merchantId == q.details.merchantId && SameDay(p.createdAt, q.createdAt)
  {
    DaysFromMidnight(p, BusinessDate(p) * (24 * 60 * 60 * 1_000));
    DaysFromMidnight(q, BusinessDate(q) * (24 * 60 * 60 * 1_000));
    if midnight :| IsMidnight(midnight) && OnDayFrom(midnight, p.createdAt) && OnDayFrom(midnight, q.createdAt) {
      DaysFromMidnight(p, midnight);
      DaysFromMidnight(q, midnight);
    }
  }

  /** The amount of a payment of this merchant that was created on the day from this midnight on. */
  ghost function CreatedOn(m: MerchantId, midnight: int): Payment -> int {
    (p: Payment) => if p.details.merchantId == m && midnight <= p.createdAt < midnight + 24 * 60 * 60 * 1_000
                    then p.details.amount else 0
  }

  ghost function ChargedOn(db: Db, m: MerchantId, midnight: int): int {
    Sum(Restrict(db.payments, SetOf(db.charges)), CreatedOn(m, midnight))
  }

  lemma WeightsAgree(ps: map<PaymentId, Payment>, m: MerchantId, midnight: int)
    requires IsMidnight(midnight)
    ensures Sum(ps, CreatedOn(m, midnight)) == Sum(ps, ChargeOn(m, midnight / (24 * 60 * 60 * 1_000)))
  {
    forall id | id in ps
      ensures CreatedOn(m, midnight)(ps[id]) == ChargeOn(m, midnight / (24 * 60 * 60 * 1_000))(ps[id])
    {
      DaysFromMidnight(ps[id], midnight);
    }
    SumAgrees(ps, CreatedOn(m, midnight), ChargeOn(m, midnight / (24 * 60 * 60 * 1_000)));
  }

  /** Of the payments that a merchant created between one midnight and the next, those charged amount to no more than
      its daily limit. */
  lemma ChargedPerCalendarDay(db: Db, m: MerchantId, midnight: int, maxAttempts: nat)
    requires Reachable(db, maxAttempts) && maxAttempts >= 1 && m in db.merchants && IsMidnight(midnight)
    ensures ChargedOn(db, m, midnight) <= db.merchants[m].profile.dailyAmountLimit
  {
    Theorems.ReachableIsSafe(db, maxAttempts);
    Theorems.DailyUsageIsExact(db, m, midnight / (24 * 60 * 60 * 1_000), maxAttempts);
    ChargedIsUtilized(db, m, midnight);
  }

  lemma ChargedIsUtilized(db: Db, m: MerchantId, midnight: int)
    requires Metered(db) && IsMidnight(midnight)
    ensures ChargedOn(db, m, midnight) == Utilized(db.usage, m, midnight / (24 * 60 * 60 * 1_000))
  {
    ChargedAreAccepted(db);
    ChargedIsSum(db.charges, db.payments, m, midnight / (24 * 60 * 60 * 1_000));
    WeightsAgree(Restrict(db.payments, SetOf(db.charges)), m, midnight);
  }

  predicate OverLimit(db: Db, id: PaymentId)
    requires id in db.payments && db.payments[id].details.merchantId in db.merchants
  {
    var d := db.payments[id].details;
    Utilized(db.usage, d.merchantId, BusinessDate(db.payments[id])) + d.amount
    > db.merchants[d.merchantId].profile.dailyAmountLimit
  }

  lemma WorkerRefusesOver(db: Db, id: PaymentId)
    requires id in db.payments && db.payments[id].details.merchantId in db.merchants
    ensures Worker.Decide(db, id) == Worker.Fail("EXCEEDS_DAILY_AMOUNT_LIMIT") <==> OverLimit(db, id)
  {
    assert |"FUNDING_ACCOUNT_UNAVAILABLE"| != |"EXCEEDS_DAILY_AMOUNT_LIMIT"|;
    assert |"INSUFFICIENT_FUNDS"| != |"EXCEEDS_DAILY_AMOUNT_LIMIT"|;
  }

  lemma ApiRefusesOver(db: Db, id: PaymentId)
    requires id in db.payments && db.payments[id].details.merchantId in db.merchants && OverLimit(db, id)
    requires db.payments[id].details.direction.Credit? && id !in db.holds
    ensures Engine.Reserve(db, id) == Err(BadRequest)
  {
  }

  lemma ApiRefusesOnlyOver(db: Db, id: PaymentId)
    requires Mirrored(db) && id in db.payments && db.payments[id].details.merchantId in db.merchants
    requires Fundable(db, id)
    ensures Engine.Reserve(db, id).Err? <==> OverLimit(db, id)
  {
    Agreement.EngineReserveIs(db, id);
  }

  /** A VALIDATED credit without a reservation, whose account is active and has the funds. */
  ghost predicate Fundable(db: Db, id: PaymentId)
    requires id in db.payments
  {
    var p := db.payments[id];
    var a := AccountId(p.details.merchantId, p.details.currency);
    && p.details.direction.Credit? && p.status.Validated? && id !in db.holds
    && a in db.accounts && db.accounts[a] == AccountActive && Funding.Available(db, a) >= p.details.amount
  }

  lemma ServicesRefuseOver(db: Db, id: PaymentId)
    requires Mirrored(db) && id in db.payments && db.payments[id].details.merchantId in db.merchants
    ensures Worker.Decide(db, id) == Worker.Fail("EXCEEDS_DAILY_AMOUNT_LIMIT") <==> OverLimit(db, id)
    ensures OverLimit(db, id) && db.payments[id].details.direction.Credit? && id !in db.holds ==>
              Engine.Reserve(db, id) == Err(BadRequest)
    ensures Fundable(db, id) ==> (Engine.Reserve(db, id).Err? <==> OverLimit(db, id))
  {
    WorkerRefusesOver(db, id);
    if OverLimit(db, id) && db.payments[id].details.direction.Credit? && id !in db.holds {
      ApiRefusesOver(db, id);
    }
    if Fundable(db, id) {
      ApiRefusesOnlyOver(db, id);
    }
  }

  lemma OverOnDay(db: Db, id: PaymentId, midnight: int)
    requires Metered(db) && id in db.payments && db.payments[id].details.merchantId in db.merchants
    requires IsMidnight(midnight) && OnDayFrom(midnight, db.payments[id].createdAt)
    ensures var d := db.payments[id].details;
            OverLimit(db, id) <==> ChargedOn(db, d.merchantId, midnight) + d.amount
                                   > db.merchants[d.merchantId].profile.dailyAmountLimit
  {
    DaysFromMidnight(db.payments[id], midnight);
    ChargedIsUtilized(db, db.payments[id].details.merchantId, midnight);
  }

  /** The worker refuses a payment for the daily limit, and the API a credit that it could fund, exactly when it does
      not fit what was charged of the payments created on its calendar day. */
  lemma LimitIsDecidedPerDay(db: Db, id: PaymentId, midnight: int, maxAttempts: nat)
    requires Reachable(db, maxAttempts) && maxAttempts >= 1 && id in db.payments
    requires IsMidnight(midnight) && OnDayFrom(midnight, db.payments[id].createdAt)
    ensures var d := db.payments[id].details;
            && d.merchantId in db.merchants
            && var over := ChargedOn(db, d.merchantId, midnight) + d.amount
                           > db.merchants[d.merchantId].profile.dailyAmountLimit;
               && (Worker.Decide(db, id) == Worker.Fail("EXCEEDS_DAILY_AMOUNT_LIMIT") <==> over)
               && (over && d.direction.Credit? && id !in db.holds ==>
                     Engine.Reserve(db, id) == Err(BadRequest))
               && (Fundable(db, id) ==> (Engine.Reserve(db, id).Err? <==> over))
  {
    Theorems.ReachableIsSafe(db, maxAttempts);
    Safety.MerchantIsKnown(db, id);
    OverOnDay(db, id, midnight);
    ServicesRefuseOver(db, id);
  }

  /** What a merchant created between one midnight and the next and had accepted. */
  ghost function AcceptedOn(db: Db, m: MerchantId, midnight: int): int {
    Sum(Restrict(db.payments, Accepted(db.payments, db.holds)), CreatedOn(m, midnight))
  }

  /** The accepted total of a day is that of a calendar day. */
  lemma AcceptedPerCalendarDay(db: Db, m: MerchantId, midnight: int)
    requires IsMidnight(midnight)
    ensures AcceptedTotal(db, m, midnight / (24 * 60 * 60 * 1_000)) == AcceptedOn(db, m, midnight)
  {
    WeightsAgree(Restrict(db.payments, Accepted(db.payments, db.holds)), m, midnight);
  }
}
