/** The posted balance in closed form, and why funding is never oversubscribed. */
module Balances {
  import opened Store
  import opened MapSums
  import opened Funding
  import opened Effects
  import opened Exports

  ghost function InitialOn(a: AccountId): Entry -> int {
    (e: Entry) => if e.account == a && e.entryType.InitialCredit? then e.amount else 0
  }

  ghost function SettledDebitOn(a: AccountId): Payment -> int {
    (p: Payment) =>
      if AccountOf(p.details) == a && p.details.direction.Debit? && p.status.Settled? then p.details.amount else 0
  }

  ghost function ReturnedCreditOn(a: AccountId): Payment -> int {
    (p: Payment) =>
      if AccountOf(p.details) == a && p.details.direction.Credit? && p.status.Returned? then p.details.amount else 0
  }

  ghost function SettledDebits(ps: Effects.Payments, a: AccountId): int {
    Sum(ps, SettledDebitOn(a))
  }

  ghost function ReturnedCredits(ps: Effects.Payments, a: AccountId): int {
    Sum(ps, ReturnedCreditOn(a))
  }

  ghost function InitialCredits(l: Ledger, a: AccountId): int {
    Sum(l, InitialOn(a))
  }

  /** The posted balance is determined by the payment statuses (returned debits cancel), and the
      funds that were ever added cover the active reservations. */
  ghost predicate BalancedAt(a: AccountId, ps: Effects.Payments, hs: Holds, l: Ledger) {
    && Sum(l, ImpactOn(a)) == InitialCredits(l, a) - SettledDebits(ps, a) + ReturnedCredits(ps, a)
    && InitialCredits(l, a) + ReturnedCredits(ps, a) >= Sum(hs, ActiveOn(a))
  }

  ghost predicate Balanced(db: Db) {
    forall a :: BalancedAt(a, db.payments, db.holds, db.ledger)
  }

  /** Rewriting one payment moves both status sums by the difference of its weights. */
  lemma PaymentMoves(ps: Effects.Payments, a: AccountId, id: PaymentId, p: Payment)
    requires id in ps
    ensures SettledDebits(ps[id := p], a)
         == SettledDebits(ps, a) + SettledDebitOn(a)(p) - SettledDebitOn(a)(ps[id])
    ensures ReturnedCredits(ps[id := p], a)
         == ReturnedCredits(ps, a) + ReturnedCreditOn(a)(p) - ReturnedCreditOn(a)(ps[id])
  {
    SumPut(ps, SettledDebitOn(a), id, p);
    SumPut(ps, ReturnedCreditOn(a), id, p);
  }

  lemma EntryMoves(l: Ledger, a: AccountId, key: EntryKey, e: Entry)
    requires key !in l
    ensures Sum(l[key := e], ImpactOn(a)) == Sum(l, ImpactOn(a)) + ImpactOn(a)(e)
    ensures InitialCredits(l[key := e], a) == InitialCredits(l, a) + InitialOn(a)(e)
  {
    SumPut(l, ImpactOn(a), key, e);
    SumPut(l, InitialOn(a), key, e);
  }

  lemma HoldMoves(hs: Holds, a: AccountId, id: PaymentId, h: Hold)
    ensures Sum(hs[id := h], ActiveOn(a))
         == Sum(hs, ActiveOn(a)) + ActiveOn(a)(h) - (if id in hs then ActiveOn(a)(hs[id]) else 0)
  {
    SumPut(hs, ActiveOn(a), id, h);
  }

  /** A status change together with the ledger entry that accounts for it. */
  lemma EntryMatchesMove(a: AccountId, ps: Effects.Payments, hs: Holds, l: Ledger, id: PaymentId, p: Payment,
                         key: EntryKey, e: Entry)
    requires BalancedAt(a, ps, hs, l) && id in ps && key !in l && InitialOn(a)(e) == 0
    requires ImpactOn(a)(e) == SettledDebitOn(a)(ps[id]) - SettledDebitOn(a)(p)
                               + ReturnedCreditOn(a)(p) - ReturnedCreditOn(a)(ps[id])
    requires ReturnedCreditOn(a)(p) >= ReturnedCreditOn(a)(ps[id])
    ensures BalancedAt(a, ps[id := p], hs, l[key := e])
  {
    EntryMoves(l, a, key, e);
    PaymentMoves(ps, a, id, p);
  }

  /** A reservation that stops being active only frees funds. */
  lemma HoldFrees(a: AccountId, ps: Effects.Payments, hs: Holds, l: Ledger, id: PaymentId, h: Hold)
    requires BalancedAt(a, ps, hs, l) && id in hs && hs[id].amount >= 0 && !h.status.HoldActive?
    ensures BalancedAt(a, ps, hs[id := h], l)
  {
    HoldMoves(hs, a, id, h);
  }

  lemma SettledDebitsAreNonNegative(db: Db, a: AccountId)
    requires Mirrored(db)
    ensures SettledDebits(db.payments, a) >= 0
  {
    forall id | id in db.payments ensures SettledDebitOn(a)(db.payments[id]) >= 0 {
      SliceOf(db, id);
    }
    SumIsNonNegative(db.payments, SettledDebitOn(a));
  }

  // ---------- The effects ----------

  lemma ToVerdictBalances(db: Db, id: PaymentId, code: Option<string>)
    requires Balanced(db) && id in db.payments && db.payments[id].status.Received?
    ensures Balanced(ToVerdict(db, id, code))
  {
    var d := ToVerdict(db, id, code);
    forall a ensures BalancedAt(a, d.payments, d.holds, d.ledger) {
      assert BalancedAt(a, db.payments, db.holds, db.ledger);
      PaymentMoves(db.payments, a, id, d.payments[id]);
    }
  }

  /** The one effect that can use up funds: it is guarded by the available balance. */
  lemma HeldBalances(db: Db, id: PaymentId)
    requires Mirrored(db) && Balanced(db) && id in db.payments && id !in db.holds
    requires Available(db, AccountOf(db.payments[id].details)) >= db.payments[id].details.amount
    ensures Balanced(Held(db, id))
  {
    var d := Held(db, id);
    SliceOf(db, id);
    forall a ensures BalancedAt(a, d.payments, d.holds, d.ledger) {
      assert BalancedAt(a, db.payments, db.holds, db.ledger);
      EntryMoves(db.ledger, a, ReservationKey(id), d.ledger[ReservationKey(id)]);
      HoldMoves(db.holds, a, id, d.holds[id]);
      SettledDebitsAreNonNegative(db, a);
    }
  }

  lemma ReleasedBalances(db: Db, id: PaymentId)
    requires Mirrored(db) && Balanced(db) && id in db.payments && id in db.holds
    requires !db.holds[id].status.HoldReleased?
    ensures Balanced(Released(db, id))
  {
    var d := Released(db, id);
    SliceOf(db, id);
    forall a ensures BalancedAt(a, d.payments, d.holds, d.ledger) {
      assert BalancedAt(a, db.payments, db.holds, db.ledger);
      EntryMoves(db.ledger, a, ReleaseKey(id), d.ledger[ReleaseKey(id)]);
      HoldMoves(db.holds, a, id, d.holds[id]);
    }
  }

  lemma CreditSettledBalances(db: Db, id: PaymentId)
    requires Mirrored(db) && Balanced(db) && id in db.payments && id in db.holds
    requires db.holds[id].status.HoldActive? && db.payments[id].status.Submitted?
    ensures Balanced(CreditSettled(db, id))
  {
    var d := CreditSettled(db, id);
    SliceOf(db, id);
    forall a ensures BalancedAt(a, d.payments, d.holds, d.ledger) {
      assert BalancedAt(a, db.payments, db.holds, db.ledger);
      HoldFrees(a, db.payments, db.holds, db.ledger, id, d.holds[id]);
      EntryMatchesMove(a, db.payments, d.holds, db.ledger, id, d.payments[id],
                       SettlementKey(id), Paying(id, db.payments[id], Settlement));
    }
  }

  lemma DebitSettledBalances(db: Db, id: PaymentId)
    requires Mirrored(db) && Balanced(db) && id in db.payments
    requires db.payments[id].details.direction.Debit? && db.payments[id].status.Submitted?
    ensures Balanced(DebitSettled(db, id))
  {
    var d := DebitSettled(db, id);
    SliceOf(db, id);
    forall a ensures BalancedAt(a, d.payments, d.holds, d.ledger) {
      assert BalancedAt(a, db.payments, db.holds, db.ledger);
      EntryMatchesMove(a, db.payments, db.holds, db.ledger, id, d.payments[id],
                       DebitPostedKey(id), Paying(id, db.payments[id], DebitPosted));
    }
  }

  lemma CreditReturnedBalances(db: Db, id: PaymentId, returnCode: string)
    requires Mirrored(db) && Balanced(db) && id in db.payments && id in db.holds && db.holds[id].status.HoldSettled?
    ensures Balanced(CreditReturned(db, id, returnCode))
  {
    var d := CreditReturned(db, id, returnCode);
    SliceOf(db, id);
    forall a ensures BalancedAt(a, d.payments, d.holds, d.ledger) {
      assert BalancedAt(a, db.payments, db.holds, db.ledger);
      HoldFrees(a, db.payments, db.holds, db.ledger, id, d.holds[id]);
      EntryMatchesMove(a, db.payments, d.holds, db.ledger, id, d.payments[id],
                       ReturnKey(id), Paying(id, db.payments[id], ReturnEntry));
    }
  }

  lemma DebitReturnedBalances(db: Db, id: PaymentId, returnCode: string)
    requires Mirrored(db) && Balanced(db) && id in db.payments
    requires db.payments[id].details.direction.Debit? && db.payments[id].status.Settled?
    ensures Balanced(DebitReturned(db, id, returnCode))
  {
    var d := DebitReturned(db, id, returnCode);
    SliceOf(db, id);
    forall a ensures BalancedAt(a, d.payments, d.holds, d.ledger) {
      assert BalancedAt(a, db.payments, db.holds, db.ledger);
      EntryMatchesMove(a, db.payments, db.holds, db.ledger, id, d.payments[id],
                       DebitReturnKey(id), Paying(id, db.payments[id], ReturnEntry));
    }
  }

  lemma SubmittedSums(ps: Exports.Payments, ids: set<PaymentId>, file: nat, a: AccountId)
    requires forall id | id in ids :: id in ps && ps[id].status.Validated?
    ensures SettledDebits(MarkSubmitted(ps, ids, file), a) == SettledDebits(ps, a)
    ensures ReturnedCredits(MarkSubmitted(ps, ids, file), a) == ReturnedCredits(ps, a)
  {
    SumSame(ps, MarkSubmitted(ps, ids, file), SettledDebitOn(a));
    SumSame(ps, MarkSubmitted(ps, ids, file), ReturnedCreditOn(a));
  }

  lemma SubmitBalances(db: Db, ids: set<PaymentId>, m: MerchantId, day: Day)
    requires Balanced(db) && ids <= db.payments.Keys && CanRender(db.payments, db.merchants, ids)
    requires forall id | id in ids :: db.payments[id].status.Validated?
    ensures Balanced(Submit(db, ids, m, day))
  {
    var d := Submit(db, ids, m, day);
    forall a ensures BalancedAt(a, d.payments, d.holds, d.ledger) {
      assert BalancedAt(a, db.payments, db.holds, db.ledger);
      SubmittedSums(db.payments, ids, |db.files|, a);
    }
  }

  lemma NewPaymentBalances(db: Db, d: Db, id: PaymentId, p: Payment)
    requires Balanced(db) && id !in db.payments && p.status.Received?
    requires d.payments == db.payments[id := p] && d.holds == db.holds && d.ledger == db.ledger
    ensures Balanced(d)
  {
    forall a ensures BalancedAt(a, d.payments, d.holds, d.ledger) {
      assert BalancedAt(a, db.payments, db.holds, db.ledger);
      SumPut(db.payments, SettledDebitOn(a), id, p);
      SumPut(db.payments, ReturnedCreditOn(a), id, p);
    }
  }

  lemma FundingBalances(db: Db, b: AccountId, amount: int)
    requires Balanced(db) && amount > 0 && DemoFundingKey(b) !in db.ledger
    ensures Balanced(Post(db, DemoFundingKey(b), Entry(b, None, InitialCredit, amount)))
  {
    var e := Entry(b, None, InitialCredit, amount);
    var d := Post(db, DemoFundingKey(b), e);
    forall a ensures BalancedAt(a, d.payments, d.holds, d.ledger) {
      assert BalancedAt(a, db.payments, db.holds, db.ledger);
      EntryMoves(db.ledger, a, DemoFundingKey(b), e);
    }
  }

  // ---------- What the balances mean ----------

  /** Available funds plus the debits that have settled and not come back never go negative. */
  lemma NeverOversubscribed(db: Db, a: AccountId)
    requires Mirrored(db) && Balanced(db)
    ensures Available(db, a) + SettledDebits(db.payments, a) >= 0
    ensures Posted(db, a) == InitialCredits(db.ledger, a) - SettledDebits(db.payments, a)
                             + ReturnedCredits(db.payments, a)
  {
    assert BalancedAt(a, db.payments, db.holds, db.ledger);
  }
}
