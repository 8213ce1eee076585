/** `generateAll`: one file after the other until no payment is left to export. */
module ExportAll {
  import opened Text
  import opened Store
  import opened Nacha
  import opened MapSums
  import opened Exports
  import opened Invariants
  import opened Safety
  import Sys = System
  import Effects

  // ---------- Termination ----------

  lemma SubmittedAreNoLongerEligible(ps: Payments, ids: set<PaymentId>, file: nat)
    requires ids <= Eligible(ps)
    ensures Eligible(MarkSubmitted(ps, ids, file)) == Eligible(ps) - ids
  {
  }

  /** Every file takes at least one payment off the list. */
  lemma GenerateShrinks(db: Db, day: Day)
    requires Eligible(db.payments) != {} && Generate(db, day).Ok?
    ensures Eligible(Generate(db, day).value.payments) == Eligible(db.payments) - NextBatch(db.payments)
    ensures |Eligible(Generate(db, day).value.payments)| < |Eligible(db.payments)|
  {
    NextBatchIsEligible(db.payments);
    SubmittedAreNoLongerEligible(db.payments, NextBatch(db.payments), |db.files|);
    Smaller(Eligible(db.payments), NextBatch(db.payments));
  }

  lemma Smaller<T>(s: set<T>, t: set<T>)
    requires t <= s && t != {}
    ensures |s - t| < |s|
  {
    assert s == (s - t) + t;
  }

  /** The state after `generateAll`; a file that fails ends it, and the files before stay. */
  ghost function GenerateAll(db: Db, day: Day): Db
    decreases |Eligible(db.payments)|
  {
    if Eligible(db.payments) == {} then db
    else
      match Generate(db, day)
      case Err(_) => db
      case Ok(next) =>
        GenerateShrinks(db, day);
        GenerateAll(next, day)
  }

  // ---------- Totals ----------

  ghost function AmountIn(direction: Direction): Payment -> int {
    (p: Payment) => if p.details.direction == direction then p.details.amount else 0
  }

  /** The total amount of the given payments in one direction. */
  ghost function AmountOf(ps: Payments, ids: set<PaymentId>, direction: Direction): int {
    Sum(Restrict(ps, ids), AmountIn(direction))
  }

  lemma AmountTake(ps: Payments, ids: set<PaymentId>, id: PaymentId, direction: Direction)
    requires id in ids && id in ps
    ensures AmountOf(ps, ids, direction) == AmountIn(direction)(ps[id]) + AmountOf(ps, ids - {id}, direction)
  {
    SumTake(Restrict(ps, ids), AmountIn(direction), id);
    assert Restrict(ps, ids) - {id} == Restrict(ps, ids - {id});
  }

  lemma {:induction false} AmountOfUnion(ps: Payments, a: set<PaymentId>, b: set<PaymentId>, direction: Direction)
    requires a !! b && a <= ps.Keys
    ensures AmountOf(ps, a + b, direction) == AmountOf(ps, a, direction) + AmountOf(ps, b, direction)
  {
    if a == {} {
      assert a + b == b;
      assert Restrict(ps, {}) == map[];
    } else {
      var id :| id in a;
      AmountTake(ps, a + b, id, direction);
      AmountTake(ps, a, id, direction);
      assert a + b - {id} == (a - {id}) + b;
      AmountOfUnion(ps, a - {id}, b, direction);
    }
  }

  lemma AmountIsStable(ps: Payments, qs: Payments, ids: set<PaymentId>, direction: Direction)
    requires forall id | id in ids :: id in ps && id in qs && qs[id].details == ps[id].details
    ensures AmountOf(qs, ids, direction) == AmountOf(ps, ids, direction)
  {
    SumSame(Restrict(qs, ids), Restrict(ps, ids), AmountIn(direction));
  }

  /** The totals of a file are sums over its payments, whatever their order in it. */
  lemma {:induction false} TotalOfItems(ps: Payments, merchants: Merchants, order: seq<PaymentId>, direction: Direction)
    requires forall i | 0 <= i < |order| :: HasItem(ps, merchants, order[i])
    requires forall i, j | 0 <= i < j < |order| :: order[i] != order[j]
    ensures Total(Group(Items(ps, merchants, order), direction)) == AmountOf(ps, (set id | id in order), direction)
    decreases |order|
  {
    var ids := set id | id in order;
    if order == [] {
      assert ids == {} && Restrict(ps, {}) == map[];
    } else {
      var rest := order[1..];
      assert order == [order[0]] + rest;
      assert (set id | id in rest) == ids - {order[0]};
      TotalOfItems(ps, merchants, rest, direction);
      FirstItem(ps, merchants, order, direction);
      AmountTake(ps, ids, order[0], direction);
    }
  }

  lemma FirstItem(ps: Payments, merchants: Merchants, order: seq<PaymentId>, direction: Direction)
    requires order != [] && forall i | 0 <= i < |order| :: HasItem(ps, merchants, order[i])
    ensures order[0] in ps
    ensures Total(Group(Items(ps, merchants, order), direction))
         == AmountIn(direction)(ps[order[0]]) + Total(Group(Items(ps, merchants, order[1..]), direction))
  {
    assert HasItem(ps, merchants, order[0]);
    assert Items(ps, merchants, order)[1..] == Items(ps, merchants, order[1..]);
  }

  lemma FileTotals(ps: Payments, merchants: Merchants, ids: set<PaymentId>, m: MerchantId, day: Day)
    requires CanRender(ps, merchants, ids)
    ensures var file := FileOf(ps, merchants, ids, m, day);
            && file.totalEntries == |ids|
            && file.debitTotal == AmountOf(ps, ids, Debit) && file.creditTotal == AmountOf(ps, ids, Credit)
  {
    var order := Sorted(ids);
    assert forall i | 0 <= i < |order| :: order[i] in ids;
    assert (set id | id in order) == ids;
    forall i, j | 0 <= i < j < |order| ensures order[i] != order[j] {
      LessIsTotal(order[i], order[j]);
    }
    TotalOfItems(ps, merchants, order, Debit);
    TotalOfItems(ps, merchants, order, Credit);
  }

  // ---------- The result ----------

  /** Each of these payments is now in exactly one of the new files, and that is its merchant's. */
  ghost predicate EachExported(ps: Payments, ids: set<PaymentId>, qs: Payments, files: seq<AchFile>, from: nat) {
    forall id | id in ids ::
      && id in ps && id in qs && qs[id].file.Some? && from <= qs[id].file.value < |files|
      && qs[id] == ps[id].(status := Submitted, file := qs[id].file)
      && files[qs[id].file.value].companyId == ps[id].details.merchantId
  }

  ghost predicate OthersKept(ps: Payments, ids: set<PaymentId>, qs: Payments) {
    ps.Keys == qs.Keys && forall id | id in ps && id !in ids :: qs[id] == ps[id]
  }

  /** One new file for each of the merchants. */
  ghost predicate OneFileEach(files: seq<AchFile>, from: nat, merchants: set<MerchantId>) {
    && |files| == from + |merchants|
    && (forall f | from <= f < |files| :: files[f].companyId in merchants)
    && (forall f, g | from <= f < g < |files| :: files[f].companyId != files[g].companyId)
  }

  /** The payments that wait for their file: VALIDATED, and not exported. */
  function Waiting(ps: Payments): set<PaymentId> {
    set id | id in ps && ps[id].status == Validated && ps[id].file == None
  }

  lemma WaitingAreEligible(ps: Payments)
    ensures Waiting(ps) == Eligible(ps)
  {
  }

  ghost predicate ExportedAll(db: Db, d: Db) {
    var ids := Waiting(db.payments);
    && Waiting(d.payments) == {} && db.files <= d.files
    && EachExported(db.payments, ids, d.payments, d.files, |db.files|)
    && OthersKept(db.payments, ids, d.payments)
    && OneFileEach(d.files, |db.files|, MerchantsOf(db.payments, ids))
  }

  /** The effect of one file on the tables that count. */
  ghost predicate ExportsOne(db: Db, next: Db, ids: set<PaymentId>, m: MerchantId) {
    && ids == OfMerchant(db.payments, Eligible(db.payments), m) && ids != {}
    && next.payments == MarkSubmitted(db.payments, ids, |db.files|)
    && |next.files| == |db.files| + 1 && db.files <= next.files && next.files[|db.files|].companyId == m
  }

  lemma MerchantIsDone(ps: Payments, m: MerchantId, file: nat)
    requires OfMerchant(ps, Eligible(ps), m) != {}
    ensures var qs := MarkSubmitted(ps, OfMerchant(ps, Eligible(ps), m), file);
            && m in MerchantsOf(ps, Eligible(ps))
            && MerchantsOf(qs, Eligible(qs)) == MerchantsOf(ps, Eligible(ps)) - {m}
  {
    var ids := OfMerchant(ps, Eligible(ps), m);
    var qs := MarkSubmitted(ps, ids, file);
    var some :| some in ids;
    SubmittedAreNoLongerEligible(ps, ids, file);
    forall x ensures x in MerchantsOf(qs, Eligible(qs)) <==> x in MerchantsOf(ps, Eligible(ps)) && x != m {
      if x in MerchantsOf(ps, Eligible(ps)) && x != m {
        var id :| id in Eligible(ps) && ps[id].details.merchantId == x;
        assert id in Eligible(qs) && qs[id].details.merchantId == x;
      }
      if x in MerchantsOf(qs, Eligible(qs)) {
        var id :| id in Eligible(qs) && qs[id].details.merchantId == x;
        assert id in Eligible(ps) && ps[id].details.merchantId == x;
      }
    }
  }

  lemma OneMoreIsExported(db: Db, next: Db, d: Db, ids: set<PaymentId>, m: MerchantId)
    requires ExportsOne(db, next, ids, m) && next.files <= d.files
    requires EachExported(next.payments, Eligible(next.payments), d.payments, d.files, |next.files|)
    requires OthersKept(next.payments, Eligible(next.payments), d.payments)
    ensures EachExported(db.payments, Eligible(db.payments), d.payments, d.files, |db.files|)
    ensures OthersKept(db.payments, Eligible(db.payments), d.payments)
  {
    SubmittedAreNoLongerEligible(db.payments, ids, |db.files|);
    assert d.files[|db.files|] == next.files[|db.files|];
  }

  lemma OneMoreFile(db: Db, next: Db, d: Db, ids: set<PaymentId>, m: MerchantId)
    requires ExportsOne(db, next, ids, m) && next.files <= d.files
    requires OneFileEach(d.files, |next.files|, MerchantsOf(next.payments, Eligible(next.payments)))
    ensures OneFileEach(d.files, |db.files|, MerchantsOf(db.payments, Eligible(db.payments)))
  {
    var all := MerchantsOf(db.payments, Eligible(db.payments));
    MerchantIsDone(db.payments, m, |db.files|);
    assert all == (all - {m}) + {m};
    assert d.files[|db.files|] == next.files[|db.files|];
  }

  lemma GenerateExportsOne(db: Db, day: Day)
    requires Effects.Mirrored(db) && PapersOk(db) && Eligible(db.payments) != {}
    ensures Generate(db, day).Ok?
    ensures ExportsOne(db, Generate(db, day).value, NextBatch(db.payments), NextMerchant(db.payments))
  {
    GenerateIs(db, day);
    NextBatchIsEligible(db.payments);
  }

  /** `generateAll` exports every eligible payment, in one file for each merchant that has any. */
  lemma {:induction false} GenerateAllExportsAll(db: Db, day: Day, maxAttempts: nat)
    requires Inv(db, maxAttempts) && maxAttempts >= 1
    ensures Inv(GenerateAll(db, day), maxAttempts)
    ensures ExportedAll(db, GenerateAll(db, day))
    decreases |Eligible(db.payments)|
  {
    var d := GenerateAll(db, day);
    WaitingAreEligible(db.payments);
    WaitingAreEligible(d.payments);
    if Eligible(db.payments) == {} {
      assert MerchantsOf(db.payments, {}) == {};
    } else {
      var ids, m := NextBatch(db.payments), NextMerchant(db.payments);
      GenerateExportsOne(db, day);
      var next := Generate(db, day).value;
      GenerateShrinks(db, day);
      GenerateKeepsInv(db, day, maxAttempts);
      GenerateAllExportsAll(next, day, maxAttempts);
      WaitingAreEligible(next.payments);
      OneMoreIsExported(db, next, d, ids, m);
      OneMoreFile(db, next, d, ids, m);
    }
  }

  // ---------- The metadata add up ----------

  function SumOfFiles(files: seq<AchFile>, f: AchFile -> int): int {
    if files == [] then 0 else f(files[0]) + SumOfFiles(files[1..], f)
  }

  const ENTRIES := (file: AchFile) => file.totalEntries as int
  const DEBITS := (file: AchFile) => file.debitTotal
  const CREDITS := (file: AchFile) => file.creditTotal

  /** The metadata of the new files against the payments that were eligible. */
  ghost predicate AddUp(files: seq<AchFile>, ps: Payments, ids: set<PaymentId>) {
    && SumOfFiles(files, ENTRIES) == |ids|
    && SumOfFiles(files, DEBITS) == AmountOf(ps, ids, Debit)
    && SumOfFiles(files, CREDITS) == AmountOf(ps, ids, Credit)
  }

  predicate CountsOf(file: AchFile, entries: nat, debit: int, credit: int) {
    file.totalEntries == entries && file.debitTotal == debit && file.creditTotal == credit
  }

  lemma SumOfCons(file: AchFile, rest: seq<AchFile>, f: AchFile -> int)
    ensures SumOfFiles([file] + rest, f) == f(file) + SumOfFiles(rest, f)
  {
    assert ([file] + rest)[1..] == rest;
  }

  lemma AmountSplits(ps: Payments, qs: Payments, all: set<PaymentId>, ids: set<PaymentId>, direction: Direction)
    requires ids <= all <= ps.Keys && forall id | id in all - ids :: id in qs && qs[id].details == ps[id].details
    ensures AmountOf(ps, all, direction) == AmountOf(ps, ids, direction) + AmountOf(qs, all - ids, direction)
  {
    assert ids + (all - ids) == all;
    AmountOfUnion(ps, ids, all - ids, direction);
    AmountIsStable(ps, qs, all - ids, direction);
  }

  lemma OneMoreAddsUp(file: AchFile, rest: seq<AchFile>, ps: Payments, qs: Payments, all: set<PaymentId>,
                      ids: set<PaymentId>)
    requires CountsOf(file, |ids|, AmountOf(ps, ids, Debit), AmountOf(ps, ids, Credit))
    requires ids <= all <= ps.Keys && forall id | id in all - ids :: id in qs && qs[id].details == ps[id].details
    requires AddUp(rest, qs, all - ids)
    ensures AddUp([file] + rest, ps, all)
  {
    assert |all| == |ids| + |all - ids| by {
      assert all == ids + (all - ids);
    }
    AmountSplits(ps, qs, all, ids, Debit);
    AmountSplits(ps, qs, all, ids, Credit);
    SumOfCons(file, rest, ENTRIES);
    SumOfCons(file, rest, DEBITS);
    SumOfCons(file, rest, CREDITS);
  }

  /** The new file's metadata are those of its payments. */
  ghost predicate AddsOne(db: Db, next: Db, ids: set<PaymentId>) {
    && ids <= Eligible(db.payments)
    && |next.files| == |db.files| + 1 && db.files <= next.files
    && next.payments == MarkSubmitted(db.payments, ids, |db.files|)
    && CountsOf(next.files[|db.files|], |ids|, AmountOf(db.payments, ids, Debit), AmountOf(db.payments, ids, Credit))
  }

  lemma GenerateAddsOne(db: Db, day: Day)
    requires Effects.Mirrored(db) && PapersOk(db) && Eligible(db.payments) != {}
    ensures Generate(db, day).Ok? && AddsOne(db, Generate(db, day).value, NextBatch(db.payments))
  {
    GenerateIs(db, day);
    NextBatchIsEligible(db.payments);
    FileTotals(db.payments, db.merchants, NextBatch(db.payments), NextMerchant(db.payments), day);
  }

  lemma AddsOneMore(db: Db, next: Db, all: seq<AchFile>, ids: set<PaymentId>)
    requires AddsOne(db, next, ids) && next.files <= all
    requires AddUp(all[|next.files|..], next.payments, Eligible(next.payments))
    ensures AddUp(all[|db.files|..], db.payments, Eligible(db.payments))
  {
    SubmittedAreNoLongerEligible(db.payments, ids, |db.files|);
    OthersAreUntouched(db.payments, ids, |db.files|);
    FilesGrow(db.files, next.files, all);
    OneMoreAddsUp(next.files[|db.files|], all[|next.files|..], db.payments, next.payments, Eligible(db.payments), ids);
  }

  lemma OthersAreUntouched(ps: Payments, ids: set<PaymentId>, file: nat)
    ensures forall id | id in Eligible(ps) - ids :: id in ps && MarkSubmitted(ps, ids, file)[id] == ps[id]
  {
  }

  lemma FilesGrow(files: seq<AchFile>, next: seq<AchFile>, all: seq<AchFile>)
    requires files <= next <= all && |next| == |files| + 1
    ensures all[|files|..] == [next[|files|]] + all[|next|..]
  {
  }

  /** Entry counts and totals of the new files are those of all payments that were eligible. */
  lemma {:induction false} GenerateAllAddsUp(db: Db, day: Day, maxAttempts: nat)
    requires Inv(db, maxAttempts) && maxAttempts >= 1
    ensures var d := GenerateAll(db, day);
            db.files <= d.files && AddUp(d.files[|db.files|..], db.payments, Eligible(db.payments))
    decreases |Eligible(db.payments)|
  {
    var d, all := GenerateAll(db, day), Eligible(db.payments);
    if all == {} {
      assert Restrict(db.payments, {}) == map[];
    } else {
      var ids := NextBatch(db.payments);
      GenerateAddsOne(db, day);
      var next := Generate(db, day).value;
      GenerateShrinks(db, day);
      GenerateKeepsInv(db, day, maxAttempts);
      GenerateAllAddsUp(next, day, maxAttempts);
      AddsOneMore(db, next, d.files, ids);
    }
  }

  // ---------- For every run ----------

  lemma {:induction false} GenerateAllIsReachable(db: Db, day: Day, maxAttempts: nat)
    requires Sys.Reachable(db, maxAttempts)
    ensures Sys.Reachable(GenerateAll(db, day), maxAttempts)
    decreases |Eligible(db.payments)|
  {
    if Eligible(db.payments) != {} && Generate(db, day).Ok? {
      Sys.ExportIsReachable(db, day, maxAttempts);
      GenerateShrinks(db, day);
      GenerateAllIsReachable(Generate(db, day).value, day, maxAttempts);
    }
  }

  /** From any reachable state `generateAll` succeeds, exports everything there is to export, one file for
      each merchant, and its metadata add up to the payments exported. */
  lemma EverythingIsExported(db: Db, day: Day, maxAttempts: nat)
    requires Sys.Reachable(db, maxAttempts) && maxAttempts >= 1
    ensures var d := GenerateAll(db, day);
            && Sys.Reachable(d, maxAttempts) && ExportedAll(db, d)
            && AddUp(d.files[|db.files|..], db.payments, Waiting(db.payments))
  {
    WaitingAreEligible(db.payments);
    var steps :| db == Sys.Run(EMPTY, steps, maxAttempts);
    EveryRunKeepsInv(steps, maxAttempts);
    GenerateAllIsReachable(db, day, maxAttempts);
    GenerateAllExportsAll(db, day, maxAttempts);
    GenerateAllAddsUp(db, day, maxAttempts);
  }
}
