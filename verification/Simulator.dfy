/** The traffic simulator's planning arithmetic. */
module Simulator {
  import opened Text
  import opened Store
  import opened WorkerLifecycle

  // ---------- Which indices fail ----------

  /** `percent`. */
  predicate Percent(percent: nat, index: nat) {
    (index * 37 + 17) % 100 < percent
  }

  /** How many of the n indices from `start` on have the given residue. */
  function WithResidue(r: nat, start: nat, n: nat): nat {
    if n == 0 then 0 else WithResidue(r, start, n - 1) + (if ((start + n - 1) * 37 + 17) % 100 == r then 1 else 0)
  }

  /** How many of them `percent` selects. */
  function Selected(percent: nat, start: nat, n: nat): nat {
    if n == 0 then 0 else Selected(percent, start, n - 1) + (if Percent(percent, start + n - 1) then 1 else 0)
  }

  lemma {:induction false} SelectedByResidue(percent: nat, start: nat, n: nat)
    requires percent > 0
    ensures Selected(percent, start, n) == Selected(percent - 1, start, n) + WithResidue(percent - 1, start, n)
    decreases n
  {
    if n > 0 {
      SelectedByResidue(percent, start, n - 1);
    }
  }

  lemma {:induction false} NoneSelected(start: nat, n: nat)
    ensures Selected(0, start, n) == 0
  {
    if n > 0 {
      NoneSelected(start, n - 1);
    }
  }

  /** 37 is invertible modulo 100, its inverse being 73. */
  lemma Invertible(d: int)
    ensures (37 * d) % 100 == 0 <==> d % 100 == 0
  {
    if (37 * d) % 100 == 0 {
      var k := 37 * d / 100;
      assert d == 100 * (73 * k - 27 * d);
    }
  }

  lemma SameRemainder(a: int, b: int)
    ensures a % 100 == b % 100 <==> (a - b) % 100 == 0
  {
  }

  /** Residues repeat exactly every hundred indices. */
  lemma ResidueIsPeriodic(i: nat, j: nat)
    ensures (i * 37 + 17) % 100 == (j * 37 + 17) % 100 <==> (i - j) % 100 == 0
  {
    SameRemainder(i * 37 + 17, j * 37 + 17);
    Invertible(i - j);
  }

  /** The index among a hundred that has the residue. */
  function IndexOf(r: nat, start: nat): (i: nat)
    requires r < 100
    ensures start <= i < start + 100
  {
    start + (73 * (r + 83) + 99 * start) % 100
  }

  lemma ResidueSplits(r: nat, start: nat, y: int, t: int)
    requires 73 * (r + 83) + 99 * start == 100 * y + t
    ensures (start + t) * 37 + 17 == r + 100 * (37 * start + 27 * r + 2242 - 37 * y)
  {
  }

  lemma RemainderOf(r: nat, k: int)
    requires r < 100
    ensures (r + 100 * k) % 100 == r
  {
  }

  lemma IndexHasResidue(r: nat, start: nat)
    requires r < 100
    ensures (IndexOf(r, start) * 37 + 17) % 100 == r
  {
    var x := 73 * (r + 83) + 99 * start;
    ResidueSplits(r, start, x / 100, x % 100);
    RemainderOf(r, 37 * start + 27 * r + 2242 - 37 * (x / 100));
  }

  lemma NoOtherMultiple(d: int)
    requires -100 < d < 100
    ensures d % 100 == 0 <==> d == 0
  {
  }

  /** No other of the hundred indices has it. */
  lemma OnlyIndexOf(r: nat, start: nat, i: nat)
    requires r < 100 && start <= i < start + 100
    ensures (i * 37 + 17) % 100 == r <==> i == IndexOf(r, start)
  {
    IndexHasResidue(r, start);
    ResidueIsPeriodic(i, IndexOf(r, start));
    NoOtherMultiple(i - IndexOf(r, start));
  }

  lemma {:induction false} CountsOnce(r: nat, start: nat, n: nat)
    requires r < 100 && n <= 100
    ensures WithResidue(r, start, n) == if IndexOf(r, start) < start + n then 1 else 0
    decreases n
  {
    if n > 0 {
      CountsOnce(r, start, n - 1);
      OnlyIndexOf(r, start, start + n - 1);
    }
  }

  /** Exactly p of any hundred consecutive indices are selected. */
  lemma {:induction false} PercentIsExact(percent: nat, start: nat)
    requires percent <= 100
    ensures Selected(percent, start, 100) == percent
  {
    if percent == 0 {
      NoneSelected(start, 100);
    } else {
      PercentIsExact(percent - 1, start);
      SelectedByResidue(percent, start, 100);
      CountsOnce(percent - 1, start, 100);
    }
  }

  lemma {:induction false} SelectedOfSum(percent: nat, start: nat, n: nat, m: nat)
    ensures Selected(percent, start, n + m) == Selected(percent, start, n) + Selected(percent, start + n, m)
    decreases m
  {
    if m > 0 {
      SelectedOfSum(percent, start, n, m - 1);
      assert n + m - 1 == n + (m - 1);
    }
  }

  /** ... hence k * p of any 100 * k. */
  lemma {:induction false} PercentOfHundreds(percent: nat, start: nat, k: nat)
    requires percent <= 100
    ensures Selected(percent, start, 100 * k) == k * percent
    decreases k
  {
    if k > 0 {
      var before: nat := 100 * (k - 1);
      PercentOfHundreds(percent, start, k - 1);
      SelectedOfSum(percent, start, before, 100);
      PercentIsExact(percent, start + before);
      assert before + 100 == 100 * k && (k - 1) * percent + percent == k * percent;
    }
  }

  // ---------- Amounts ----------

  datatype Scenario = Scenario(successful: nat, validationFailure: nat, returned: nat, insufficientFunds: nat,
                               duplicate: nat, delayedProcessing: nat, webhookFailure: nat)
  datatype Plan = Plan(minimum: nat, maximum: nat, scenario: Scenario)

  const MAX_AMOUNT := 1_000_000

  /** The ranges of `CreateSimulatorRunDto`. */
  predicate WellFormed(plan: Plan) {
    1 <= plan.minimum <= MAX_AMOUNT && 1 <= plan.maximum <= MAX_AMOUNT && plan.scenario.validationFailure <= 100
  }

  /** `validate`: what its checks leave. */
  predicate Validated(plan: Plan) {
    var s := plan.scenario;
    && plan.minimum <= plan.maximum
    && s.successful + s.validationFailure + s.duplicate + s.insufficientFunds + s.returned + s.delayedProcessing
       + s.webhookFailure == 100
    && s.returned == 0 && s.insufficientFunds == 0 && s.delayedProcessing == 0 && s.webhookFailure == 0
  }

  /** `validateAmountRanges`, for one merchant's limit. */
  predicate RangeOk(plan: Plan, limit: nat) {
    && !(plan.scenario.validationFailure < 100 && plan.minimum > limit)
    && !(plan.scenario.validationFailure > 0 && limit >= MAX_AMOUNT)
  }

  /** `validateAmountRanges`: where payments are to succeed the minimum is within every limit, and where they are to
      fail there is a creatable amount above every limit. */
  method ValidateAmountRanges(plan: Plan, limits: seq<nat>) returns (ok: bool)
    ensures ok <==> forall i | 0 <= i < |limits| :: RangeOk(plan, limits[i])
    ensures ok <==> forall i | 0 <= i < |limits| ::
                      && (plan.scenario.validationFailure < 100 ==> plan.minimum <= limits[i])
                      && (plan.scenario.validationFailure > 0 ==> limits[i] + 1 <= 1_000_000)
  {
    for i := 0 to |limits|
      invariant forall j | 0 <= j < i :: RangeOk(plan, limits[j])
    {
      if plan.scenario.validationFailure < 100 && plan.minimum > limits[i] {
        return false;
      }
      if plan.scenario.validationFailure > 0 && limits[i] >= MAX_AMOUNT {
        return false;
      }
    }
    ok := true;
  }

  datatype Amount = Cents(value: int) | Throws | NotANumber

  /** JavaScript's remainder of a non-negative number. */
  function Remainder(a: nat, b: int): Amount {
    if b == 0 then NotANumber else Cents(a % (if b < 0 then -b else b))
  }

  /** `amountFor`. */
  function AmountFor(plan: Plan, limit: nat, index: nat, validationFailure: bool): Amount {
    if !validationFailure then
      var most := if limit < plan.maximum then limit else plan.maximum;
      match Remainder(index, most - plan.minimum + 1)
      case Cents(offset) => Cents(plan.minimum + offset)
      case other => other
    else if limit + 1 > MAX_AMOUNT then Throws
    else Cents(limit + 1)
  }

  /** After the checks, every index gets an amount: within the merchant's range when the payment is to
      succeed, just above its limit and still creatable when it is to fail. */
  lemma AmountsAreInRange(plan: Plan, limit: nat, index: nat)
    requires WellFormed(plan) && Validated(plan) && RangeOk(plan, limit)
    ensures var fails := Percent(plan.scenario.validationFailure, index);
            var amount := AmountFor(plan, limit, index, fails);
            && amount.Cents?
            && (!fails ==> plan.minimum <= amount.value <= plan.maximum && amount.value <= limit)
            && (fails ==> limit < amount.value <= 1_000_000)
  {
    assert (index * 37 + 17) % 100 < 100;
  }

  /** Every amount of the range comes up: successive indices step through it and wrap around. */
  lemma AmountsCycle(plan: Plan, limit: nat, index: nat, amount: nat)
    requires WellFormed(plan) && Validated(plan)
    requires plan.minimum <= amount <= plan.maximum && amount <= limit
    ensures var most := if limit < plan.maximum then limit else plan.maximum;
            exists i: nat :: index <= i <= index + most - plan.minimum && AmountFor(plan, limit, i, false) == Cents(amount)
  {
    var span := (if limit < plan.maximum then limit else plan.maximum) - plan.minimum + 1;
    var i := NextWithRemainder(index, amount - plan.minimum, span);
    assert AmountFor(plan, limit, i, false) == Cents(amount);
  }

  lemma NextWithRemainder(index: nat, r: nat, span: nat) returns (i: nat)
    requires r < span
    ensures index <= i < index + span && i % span == r
  {
    var now := index % span;
    i := if now <= r then index + (r - now) else index + (span - now + r);
    var q := index / span;
    if now <= r {
      assert i == q * span + r;
      ModuloOfSum(q, r, span);
    } else {
      assert i == (q + 1) * span + r;
      ModuloOfSum(q + 1, r, span);
    }
  }

  // ---------- What the validation makes of them ----------

  /** A payment planned to fail never passes the validation rules, and the amount of one planned to
      succeed is not what fails it. */
  lemma PlanDecidesTheLimitRule(plan: Plan, m: Merchant, index: nat, d: Details)
    requires WellFormed(plan) && Validated(plan) && RangeOk(plan, m.profile.perPaymentLimit)
    requires AmountFor(plan, m.profile.perPaymentLimit, index, Percent(plan.scenario.validationFailure, index))
          == Cents(d.amount)
    ensures Percent(plan.scenario.validationFailure, index) ==> ValidatePayment(d, Some(m)).Fail?
    ensures !Percent(plan.scenario.validationFailure, index) ==>
              ValidatePayment(d, Some(m)) != Verdict.Fail("PER_PAYMENT_LIMIT_EXCEEDED")
              && ValidatePayment(d, Some(m)) != Verdict.Fail("INVALID_AMOUNT")
  {
    AmountsAreInRange(plan, m.profile.perPaymentLimit, index);
    CodesDiffer();
  }

  lemma CodesDiffer()
    ensures "PER_PAYMENT_LIMIT_EXCEEDED" != "INVALID_AMOUNT"
  {
    assert |"PER_PAYMENT_LIMIT_EXCEEDED"| != |"INVALID_AMOUNT"|;
  }

  // ---------- The counters of a run ----------

  datatype Mode = DebitsOnly | CreditsOnly | Mixed

  /** What a run knows of a merchant. */
  datatype Target = Target(perPaymentLimit: nat, allowAchDebit: bool, allowAchCredit: bool)

  /** `directionFor`: the requested direction if the merchant has it, else the other one; None is its throw. */
  function DirectionFor(mode: Mode, target: Target, index: nat): (direction: Option<Direction>)
    ensures direction.None? <==> !target.allowAchDebit && !target.allowAchCredit
    ensures direction == Some(Debit) ==> target.allowAchDebit
    ensures direction == Some(Credit) ==> target.allowAchCredit
    ensures mode.DebitsOnly? && target.allowAchDebit ==> direction == Some(Debit)
    ensures mode.CreditsOnly? && target.allowAchCredit ==> direction == Some(Credit)
    ensures mode.Mixed? && target.allowAchDebit && target.allowAchCredit ==>
              direction == Some(if index % 2 == 0 then Debit else Credit)
  {
    var requested := if mode.Mixed? then (if index % 2 == 0 then Debit else Credit)
                     else if mode.DebitsOnly? then Debit else Credit;
    if requested.Debit? && target.allowAchDebit then Some(Debit)
    else if requested.Credit? && target.allowAchCredit then Some(Credit)
    else if target.allowAchDebit then Some(Debit)
    else if target.allowAchCredit then Some(Credit)
    else None
  }

  /** A started run: its plan, its merchants, and for which indices creating the payment throws. */
  datatype RunOf = RunOf(plan: Plan, mode: Mode, targets: seq<Target>, creationThrows: nat -> bool) {
    function TargetOf(index: nat): Target
      requires targets != []
    {
      targets[index % |targets|]
    }

    predicate Planned(index: nat) {
      Percent(plan.scenario.validationFailure, index)
    }

    /** Choosing the direction or the amount throws, or creating the payment does. */
    predicate Throws(index: nat)
      requires targets != []
    {
      || DirectionFor(mode, TargetOf(index), index).None?
      || !AmountFor(plan, TargetOf(index).perPaymentLimit, index, Planned(index)).Cents?
      || creationThrows(index)
    }

    /** How many of the first n transactions fail: those planned to, and those that throw. */
    function Failures(n: nat): nat
      requires targets != []
    {
      if n == 0 then 0 else Failures(n - 1) + (if Throws(n - 1) || Planned(n - 1) then 1 else 0)
    }
  }

  /** What the checks before the start leave. */
  ghost predicate Accepted(run: RunOf) {
    && run.targets != [] && WellFormed(run.plan) && Validated(run.plan)
    && forall i | 0 <= i < |run.targets| :: RangeOk(run.plan, run.targets[i].perPaymentLimit)
  }

  /** In an accepted run an amount is never what throws. */
  lemma AcceptedThrows(run: RunOf, index: nat)
    requires Accepted(run)
    ensures run.Throws(index) <==>
            !(run.TargetOf(index).allowAchDebit || run.TargetOf(index).allowAchCredit) || run.creationThrows(index)
  {
    assert RangeOk(run.plan, run.TargetOf(index).perPaymentLimit);
    AmountsAreInRange(run.plan, run.TargetOf(index).perPaymentLimit, index);
  }

  /** A transaction that throws although it was planned to succeed. */
  ghost predicate Unplanned(run: RunOf, n: nat)
    requires run.targets != []
  {
    exists i: nat :: i < n && !run.Planned(i) && run.Throws(i)
  }

  lemma {:induction false} FailuresExceedPlan(run: RunOf, n: nat)
    requires run.targets != []
    ensures run.Failures(n) >= Selected(run.plan.scenario.validationFailure, 0, n)
    ensures run.Failures(n) == Selected(run.plan.scenario.validationFailure, 0, n) <==> !Unplanned(run, n)
    decreases n
  {
    if n > 0 {
      FailuresExceedPlan(run, n - 1);
      assert Unplanned(run, n) <==> Unplanned(run, n - 1) || (!run.Planned(n - 1) && run.Throws(n - 1));
    }
  }

  /** An accepted run of 100 * k transactions counts exactly k * p failures if and only if every transaction that is
      planned to succeed finds a direction and gets created. */
  lemma RunFailsAsPlanned(run: RunOf, k: nat)
    requires Accepted(run)
    ensures run.Failures(100 * k) == k * run.plan.scenario.validationFailure <==>
            forall i: nat | i < 100 * k && !run.Planned(i) ::
              (run.TargetOf(i).allowAchDebit || run.TargetOf(i).allowAchCredit) && !run.creationThrows(i)
  {
    FailuresExceedPlan(run, 100 * k);
    PercentOfHundreds(run.plan.scenario.validationFailure, 0, k);
    forall i: nat | i < 100 * k && !run.Planned(i)
      ensures run.Throws(i) <==>
              !((run.TargetOf(i).allowAchDebit || run.TargetOf(i).allowAchCredit) && !run.creationThrows(i))
    {
      AcceptedThrows(run, i);
    }
  }

  class SimulatorRun {
    var generatedCount: nat
    var successfulCount: nat
    var failedCount: nat

    constructor ()
      ensures generatedCount == successfulCount == failedCount == 0
    {
      generatedCount, successfulCount, failedCount := 0, 0, 0;
    }

    /** `execute`, for a run that is neither paused nor stopped. */
    method Execute(run: RunOf, transactionCount: nat)
      requires run.targets != []
      requires generatedCount == successfulCount == failedCount == 0
      modifies this
      ensures generatedCount == transactionCount == successfulCount + failedCount
      ensures failedCount == run.Failures(transactionCount)
    {
      var index := 0;
      while index < transactionCount
        invariant index == generatedCount <= transactionCount
        invariant generatedCount == successfulCount + failedCount
        invariant failedCount == run.Failures(index)
      {
        var target := run.targets[index % |run.targets|];
        var direction := DirectionFor(run.mode, target, index);
        var validationFailure := Percent(run.plan.scenario.validationFailure, index);
        var amount := AmountFor(run.plan, target.perPaymentLimit, index, validationFailure);
        if direction.None? || !amount.Cents? || run.creationThrows(index) {
          generatedCount, failedCount := generatedCount + 1, failedCount + 1;
        } else {
          generatedCount := generatedCount + 1;
          if validationFailure {
            failedCount := failedCount + 1;
          } else {
            successfulCount := successfulCount + 1;
          }
        }
        index := index + 1;
      }
    }
  }
}
