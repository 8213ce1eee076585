/** The claim, lease and retry protocol of one outbox row.

    Every claim hands out one handler that remembers the attempt number it read. A handler may
    outlive its lease, so several can be live at once, each acting with its own old number. */
module OutboxProtocol {

  datatype OutboxStatus = Pending | Processing | Processed | Failed

  /** How far a live handler has come with its event. */
  datatype Phase = AtStart | PastValidation | PastMaterialisation

  /** `handlers` maps the attempt number a handler read when it claimed the row to its phase.
      It is bookkeeping of the model; the other two are columns. */
  datatype Claim = Claim(status: OutboxStatus, attempts: nat, handlers: map<nat, Phase>)

  const FRESH := Claim(Pending, 0, map[])

  datatype RowStep =
    | Acquire                        // claimPending takes the row
    | Expire                         // recoverExpiredClaims finds the lease expired
    | Advance(t: nat, phase: Phase)  // handler t completes a stage of its work
    | Complete                       // completeOutbox inside the validation transaction
    | MarkProcessed(t: nat)          // handler t returned
    | MarkFailed(t: nat)             // handler t threw
    | Crash(t: nat)                  // handler t's process died

  function Apply(c: Claim, step: RowStep, maxAttempts: nat): Claim {
    match step
    case Acquire =>
      if c.status.Pending?
      then Claim(Processing, c.attempts + 1, c.handlers[c.attempts + 1 := AtStart])
      else c
    case Expire =>
      if c.status.Processing?
      then c.(status := if c.attempts >= maxAttempts then Failed else Pending)
      else c
    case Advance(t, phase) =>
      if t in c.handlers then c.(handlers := c.handlers[t := phase]) else c
    case Complete =>
      if c.status.Processing? then c.(status := Processed) else c
    case MarkProcessed(t) =>
      if t in c.handlers && c.handlers[t].PastMaterialisation?
      then Claim(if c.status.Processing? then Processed else c.status, c.attempts, c.handlers - {t})
      else c
    case MarkFailed(t) =>
      if t !in c.handlers then c
      else
        var next := if t >= maxAttempts then Failed else Pending;
        Claim(if c.status.Processing? then next else c.status, c.attempts, c.handlers - {t})
    case Crash(t) => c.(handlers := c.handlers - {t})
  }

  function RunRow(c: Claim, steps: seq<RowStep>, maxAttempts: nat): Claim
    decreases |steps|
  {
    if steps == [] then c
    else Apply(RunRow(c, steps[..|steps| - 1], maxAttempts), steps[|steps| - 1], maxAttempts)
  }

  function Pow2(n: nat): (p: nat)
    ensures p >= 1
  {
    if n == 0 then 1 else 2 * Pow2(n - 1)
  }

  /** `retryDelayMs`. */
  function RetryDelayMs(attempts: nat): (ms: nat)
    ensures 1_000 <= ms <= 60_000
  {
    var ms := 1_000 * Pow2(if attempts >= 1 then attempts - 1 else 0);
    if ms <= 60_000 then ms else 60_000
  }

  /** The delay starts at a second and doubles with every attempt until it is capped at a minute. */
  lemma RetryDelayDoubles(attempts: nat)
    requires attempts >= 1
    ensures RetryDelayMs(1) == 1_000
    ensures var twice := 2 * RetryDelayMs(attempts);
            RetryDelayMs(attempts + 1) == if twice <= 60_000 then twice else 60_000
  {
    assert Pow2(attempts) == 2 * Pow2(attempts - 1);
  }

  // ---------- The bound on attempts ----------

  function Stale(c: Claim, maxAttempts: nat): set<nat> {
    set t | t in c.handlers && t < maxAttempts
  }

  /** Once the attempts are used up, only a handler that read a smaller number can send the row
      back to PENDING, and each does so once; the sum below never grows past 2 * max - 1. */
  ghost predicate Bounded(c: Claim, maxAttempts: nat) {
    && (forall t | t in c.handlers :: 1 <= t <= c.attempts)
    && (c.attempts >= maxAttempts ==>
          c.attempts + |Stale(c, maxAttempts)| + (if c.status.Pending? then 1 else 0) <= 2 * maxAttempts - 1)
  }

  lemma {:induction false} FewSmallNumbers(s: set<nat>, n: nat)
    requires forall t | t in s :: 1 <= t <= n
    ensures |s| <= n
  {
    if n == 0 {
      assert s == {};
    } else {
      FewSmallNumbers(s - {n}, n - 1);
    }
  }

  lemma ApplyKeepsBounded(c: Claim, step: RowStep, maxAttempts: nat)
    requires maxAttempts >= 1 && Bounded(c, maxAttempts)
    ensures Bounded(Apply(c, step, maxAttempts), maxAttempts)
  {
    var d := Apply(c, step, maxAttempts);
    match step
    case Acquire =>
      FewSmallNumbers(Stale(d, maxAttempts), maxAttempts - 1);
      if d != c && c.attempts >= maxAttempts {
        assert Stale(d, maxAttempts) == Stale(c, maxAttempts);
      }
    case MarkProcessed(t) => DroppingAHandler(c, d, t, maxAttempts);
    case MarkFailed(t) => DroppingAHandler(c, d, t, maxAttempts);
    case Crash(t) => DroppingAHandler(c, d, t, maxAttempts);
    case Advance(t, phase) => assert Stale(d, maxAttempts) == Stale(c, maxAttempts);
    case Expire => assert Stale(d, maxAttempts) == Stale(c, maxAttempts);
    case Complete => assert Stale(d, maxAttempts) == Stale(c, maxAttempts);
  }

  lemma DroppingAHandler(c: Claim, d: Claim, t: nat, maxAttempts: nat)
    requires d.handlers == c.handlers || d.handlers == c.handlers - {t}
    ensures |Stale(d, maxAttempts)| <= |Stale(c, maxAttempts)|
    ensures d.handlers == c.handlers - {t} && t in c.handlers && t < maxAttempts ==>
              |Stale(d, maxAttempts)| == |Stale(c, maxAttempts)| - 1
  {
    if d.handlers == c.handlers - {t} {
      assert Stale(d, maxAttempts) == Stale(c, maxAttempts) - {t};
    } else {
      assert Stale(d, maxAttempts) == Stale(c, maxAttempts);
    }
  }

  /** Whatever the interleaving of claims, lease expiries, crashes and late handlers, a row is
      claimed at most 2 * maxAttempts - 1 times. */
  lemma {:induction false} AttemptsNeverExceed(steps: seq<RowStep>, maxAttempts: nat)
    requires maxAttempts >= 1
    ensures Bounded(RunRow(FRESH, steps, maxAttempts), maxAttempts)
    ensures RunRow(FRESH, steps, maxAttempts).attempts <= 2 * maxAttempts - 1
    decreases |steps|
  {
    if steps != [] {
      AttemptsNeverExceed(steps[..|steps| - 1], maxAttempts);
      ApplyKeepsBounded(RunRow(FRESH, steps[..|steps| - 1], maxAttempts), steps[|steps| - 1], maxAttempts);
    }
  }

  // ---------- The bound is reached ----------

  /** k claims whose leases expire while their handlers keep running. */
  function LostLeases(k: nat): seq<RowStep> {
    if k == 0 then [] else LostLeases(k - 1) + [Acquire] + [Expire]
  }

  /** Then k late failures, each followed by another claim. */
  function LateFailures(maxAttempts: nat, k: nat): seq<RowStep>
    requires maxAttempts >= 1
  {
    if k == 0 then LostLeases(maxAttempts - 1) + [Acquire]
    else LateFailures(maxAttempts, k - 1) + [MarkFailed(k)] + [Acquire]
  }

  lemma RunSnoc(c: Claim, steps: seq<RowStep>, step: RowStep, maxAttempts: nat)
    ensures RunRow(c, steps + [step], maxAttempts) == Apply(RunRow(c, steps, maxAttempts), step, maxAttempts)
  {
    assert (steps + [step])[..|steps + [step]| - 1] == steps;
  }

  lemma {:induction false} AfterLostLeases(maxAttempts: nat, k: nat)
    requires k < maxAttempts
    ensures var c := RunRow(FRESH, LostLeases(k), maxAttempts);
            && c.status == Pending && c.attempts == k
            && forall t | 1 <= t <= k :: t in c.handlers
  {
    if k > 0 {
      AfterLostLeases(maxAttempts, k - 1);
      RunSnoc(FRESH, LostLeases(k - 1), Acquire, maxAttempts);
      RunSnoc(FRESH, LostLeases(k - 1) + [Acquire], Expire, maxAttempts);
    }
  }

  /** The claim that is running when the first k late failures have been reported. */
  predicate LateClaim(c: Claim, maxAttempts: nat, k: nat) {
    && c.status == Processing && c.attempts == maxAttempts + k
    && forall t | k < t < maxAttempts :: t in c.handlers
  }

  lemma NextLateFailure(c: Claim, maxAttempts: nat, k: nat)
    requires 0 < k < maxAttempts && LateClaim(c, maxAttempts, k - 1)
    ensures LateClaim(Apply(Apply(c, MarkFailed(k), maxAttempts), Acquire, maxAttempts), maxAttempts, k)
  {
  }

  lemma {:induction false} AfterLateFailures(maxAttempts: nat, k: nat)
    requires k < maxAttempts
    ensures LateClaim(RunRow(FRESH, LateFailures(maxAttempts, k), maxAttempts), maxAttempts, k)
  {
    if k == 0 {
      AfterLostLeases(maxAttempts, maxAttempts - 1);
      RunSnoc(FRESH, LostLeases(maxAttempts - 1), Acquire, maxAttempts);
    } else {
      var before := LateFailures(maxAttempts, k - 1);
      AfterLateFailures(maxAttempts, k - 1);
      RunSnoc(FRESH, before, MarkFailed(k), maxAttempts);
      RunSnoc(FRESH, before + [MarkFailed(k)], Acquire, maxAttempts);
      NextLateFailure(RunRow(FRESH, before, maxAttempts), maxAttempts, k);
    }
  }

  /** The bound is sharp for every configuration, so `maxAttempts` alone does not bound the claims. */
  lemma AttemptsBoundIsReached(maxAttempts: nat)
    requires maxAttempts >= 1
    ensures exists steps :: RunRow(FRESH, steps, maxAttempts).attempts == 2 * maxAttempts - 1
  {
    AfterLateFailures(maxAttempts, maxAttempts - 1);
    assert RunRow(FRESH, LateFailures(maxAttempts, maxAttempts - 1), maxAttempts).attempts == 2 * maxAttempts - 1;
  }

  // ---------- When the configured maximum is the bound ----------

  /** The claims are within the configured maximum, and the row is not about to be claimed beyond it. */
  predicate Within(c: Claim, maxAttempts: nat) {
    c.attempts <= maxAttempts && (c.status.Pending? ==> c.attempts < maxAttempts)
  }

  /** A handler with an old attempt number reports its failure while the row's last attempt runs. */
  predicate Overdue(c: Claim, step: RowStep, maxAttempts: nat) {
    && step.MarkFailed? && step.t in c.handlers && step.t < maxAttempts
    && c.status.Processing? && c.attempts >= maxAttempts
  }

  ghost predicate AlwaysWithin(steps: seq<RowStep>, maxAttempts: nat) {
    forall i | 0 <= i <= |steps| :: Within(RunRow(FRESH, steps[..i], maxAttempts), maxAttempts)
  }

  ghost predicate NeverOverdue(steps: seq<RowStep>, maxAttempts: nat) {
    forall i | 0 <= i < |steps| :: !Overdue(RunRow(FRESH, steps[..i], maxAttempts), steps[i], maxAttempts)
  }

  /** One step leaves the bound exactly when it is overdue. */
  lemma StaysWithin(c: Claim, step: RowStep, maxAttempts: nat)
    requires maxAttempts >= 1 && Within(c, maxAttempts)
    ensures Within(Apply(c, step, maxAttempts), maxAttempts) <==> !Overdue(c, step, maxAttempts)
  {
  }

  lemma SamePrefix<T>(s: seq<T>, i: nat)
    requires i < |s|
    ensures s[..|s| - 1][..i] == s[..i]
  {
  }

  lemma SplitWithin(steps: seq<RowStep>, maxAttempts: nat)
    requires steps != []
    ensures AlwaysWithin(steps, maxAttempts) <==>
            AlwaysWithin(steps[..|steps| - 1], maxAttempts) && Within(RunRow(FRESH, steps, maxAttempts), maxAttempts)
  {
    var before := steps[..|steps| - 1];
    assert steps[..|steps|] == steps;
    if AlwaysWithin(before, maxAttempts) && Within(RunRow(FRESH, steps, maxAttempts), maxAttempts) {
      forall i | 0 <= i <= |steps| ensures Within(RunRow(FRESH, steps[..i], maxAttempts), maxAttempts) {
        if i < |steps| {
          SamePrefix(steps, i);
          assert Within(RunRow(FRESH, before[..i], maxAttempts), maxAttempts);
        }
      }
    }
    if AlwaysWithin(steps, maxAttempts) {
      assert Within(RunRow(FRESH, steps[..|steps|], maxAttempts), maxAttempts);
      forall i | 0 <= i <= |before| ensures Within(RunRow(FRESH, before[..i], maxAttempts), maxAttempts) {
        SamePrefix(steps, i);
        assert Within(RunRow(FRESH, steps[..i], maxAttempts), maxAttempts);
      }
    }
  }

  lemma SplitOverdue(steps: seq<RowStep>, maxAttempts: nat)
    requires steps != []
    ensures NeverOverdue(steps, maxAttempts) <==>
            && NeverOverdue(steps[..|steps| - 1], maxAttempts)
            && !Overdue(RunRow(FRESH, steps[..|steps| - 1], maxAttempts), steps[|steps| - 1], maxAttempts)
  {
    var before, last := steps[..|steps| - 1], |steps| - 1;
    if NeverOverdue(before, maxAttempts) && !Overdue(RunRow(FRESH, before, maxAttempts), steps[last], maxAttempts) {
      forall i | 0 <= i < |steps| ensures !Overdue(RunRow(FRESH, steps[..i], maxAttempts), steps[i], maxAttempts) {
        if i < last {
          SamePrefix(steps, i);
          assert !Overdue(RunRow(FRESH, before[..i], maxAttempts), before[i], maxAttempts);
        }
      }
    }
    if NeverOverdue(steps, maxAttempts) {
      forall i | 0 <= i < |before| ensures !Overdue(RunRow(FRESH, before[..i], maxAttempts), before[i], maxAttempts) {
        SamePrefix(steps, i);
        assert !Overdue(RunRow(FRESH, steps[..i], maxAttempts), steps[i], maxAttempts);
      }
      assert !Overdue(RunRow(FRESH, steps[..last], maxAttempts), steps[last], maxAttempts);
    }
  }

  /** The configured maximum bounds the claims all along a run exactly when no step of it is overdue. */
  lemma {:induction false} WithinIffNeverOverdue(steps: seq<RowStep>, maxAttempts: nat)
    requires maxAttempts >= 1
    ensures AlwaysWithin(steps, maxAttempts) <==> NeverOverdue(steps, maxAttempts)
    decreases |steps|
  {
    if steps == [] {
      assert steps[..0] == [];
    } else {
      var before := steps[..|steps| - 1];
      SplitWithin(steps, maxAttempts);
      SplitOverdue(steps, maxAttempts);
      WithinIffNeverOverdue(before, maxAttempts);
      if AlwaysWithin(before, maxAttempts) {
        assert before[..|before|] == before;
        StaysWithin(RunRow(FRESH, before, maxAttempts), steps[|steps| - 1], maxAttempts);
      }
    }
  }

  /** A handler reports its failure only while the claim it holds is the current one. */
  predicate Prompt(c: Claim, step: RowStep) {
    step.MarkFailed? ==> c.status.Processing? && step.t == c.attempts
  }

  ghost predicate PromptRun(steps: seq<RowStep>, maxAttempts: nat) {
    forall i | 0 <= i < |steps| :: Prompt(RunRow(FRESH, steps[..i], maxAttempts), steps[i])
  }

  /** With prompt handlers the configured maximum is the bound. */
  lemma PromptAttemptsNeverExceed(steps: seq<RowStep>, maxAttempts: nat)
    requires maxAttempts >= 1 && PromptRun(steps, maxAttempts)
    ensures AlwaysWithin(steps, maxAttempts)
    ensures RunRow(FRESH, steps, maxAttempts).attempts <= maxAttempts
  {
    forall i | 0 <= i < |steps| ensures !Overdue(RunRow(FRESH, steps[..i], maxAttempts), steps[i], maxAttempts) {
      assert Prompt(RunRow(FRESH, steps[..i], maxAttempts), steps[i]);
    }
    WithinIffNeverOverdue(steps, maxAttempts);
    assert steps[..|steps|] == steps;
  }

  // ---------- Terminal rows ----------

  /** PROCESSED and FAILED are never left, and a handler reports at most once. */
  lemma {:induction false} TerminalIsForever(c: Claim, steps: seq<RowStep>, maxAttempts: nat)
    requires c.status.Processed? || c.status.Failed?
    ensures var d := RunRow(c, steps, maxAttempts);
            d.status == c.status && d.attempts == c.attempts && d.handlers.Keys <= c.handlers.Keys
    decreases |steps|
  {
    if steps != [] {
      TerminalIsForever(c, steps[..|steps| - 1], maxAttempts);
    }
  }
}
