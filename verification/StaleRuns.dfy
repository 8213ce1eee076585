/** Runs of the system in which the API's validation takes two steps: a read, and later its transaction. */
module StaleRuns {
  import opened Store
  import opened Effects
  import opened Invariants
  import opened Safety
  import opened History
  import opened System
  import opened Moves
  import opened StaleValidation
  import Engine = PaymentEngine

  /** The tables, and the payments that some call has read and found fit to be validated. */
  datatype Shared = Shared(db: Db, passed: set<PaymentId>)

  datatype Act = Atomic(step: Step) | ReadPayment(id: PaymentId) | WriteLater(id: PaymentId)

  ghost function After(s: Shared, act: Act, maxAttempts: nat): Shared {
    match act
    case Atomic(step) => Shared(Next(s.db, step, maxAttempts), s.passed)
    case ReadPayment(id) => if Engine.ReadPasses(s.db, id) then Shared(s.db, s.passed + {id}) else s
    case WriteLater(id) => if id in s.passed then Shared(Commit(s.db, Engine.WriteValidated(s.db, id)), s.passed) else s
  }

  ghost function AfterAll(s: Shared, acts: seq<Act>, maxAttempts: nat): Shared
    decreases |acts|
  {
    if acts == [] then s else After(AfterAll(s, acts[..|acts| - 1], maxAttempts), acts[|acts| - 1], maxAttempts)
  }

  lemma AfterSnoc(s: Shared, acts: seq<Act>, act: Act, maxAttempts: nat)
    ensures AfterAll(s, acts + [act], maxAttempts) == After(AfterAll(s, acts, maxAttempts), act, maxAttempts)
  {
    assert (acts + [act])[..|acts + [act]| - 1] == acts;
  }

  // ---------- One act ----------

  /** A call that read the payment before it was rejected now writes its transaction. */
  predicate MeetsRejected(s: Shared, act: Act) {
    act.WriteLater? && act.id in s.passed && HasStatus(s.db, act.id, ValidationFailed)
  }

  ghost predicate Consistent(s: Shared, maxAttempts: nat) {
    Inv(s.db, maxAttempts) && s.passed <= s.db.payments.Keys
  }

  /** No payment has both outcomes. */
  ghost predicate OneOutcomeEach(db: Db) {
    forall id :: !BothOutcomes(db, id)
  }

  lemma MirroredHasOneOutcomeEach(db: Db)
    requires Mirrored(db)
    ensures OneOutcomeEach(db)
  {
    forall id ensures !BothOutcomes(db, id) {
      SliceOf(db, id);
    }
  }

  lemma AtomicStaysConsistent(s: Shared, step: Step, maxAttempts: nat)
    requires Consistent(s, maxAttempts) && maxAttempts >= 1
    ensures Consistent(After(s, Atomic(step), maxAttempts), maxAttempts)
  {
    StepKeepsInv(s.db, step, maxAttempts);
    StepIsLater(s.db, step, maxAttempts);
  }

  lemma WriteStaysConsistent(db: Db, id: PaymentId, maxAttempts: nat)
    requires Inv(db, maxAttempts) && maxAttempts >= 1 && id in db.payments && !HasStatus(db, id, ValidationFailed)
    ensures Inv(Commit(db, Engine.WriteValidated(db, id)), maxAttempts)
    ensures Commit(db, Engine.WriteValidated(db, id)).payments.Keys == db.payments.Keys
  {
    if HasStatus(db, id, Received) {
      WriteOnReceived(db, id);
      ToVerdictKeepsInv(db, id, None, maxAttempts);
    } else {
      WriteOnAccepted(db, id);
    }
  }

  /** One act loses the invariant exactly when it writes over a rejection, and then the payment has both outcomes. */
  lemma ActStaysConsistent(s: Shared, act: Act, maxAttempts: nat)
    requires Consistent(s, maxAttempts) && maxAttempts >= 1
    ensures var d := After(s, act, maxAttempts);
            && (Consistent(d, maxAttempts) <==> !MeetsRejected(s, act))
            && (OneOutcomeEach(d.db) <==> !MeetsRejected(s, act))
  {
    var d := After(s, act, maxAttempts);
    if MeetsRejected(s, act) {
      StaleWriteIsSafe(s.db, act.id);
    } else {
      if act.Atomic? {
        AtomicStaysConsistent(s, act.step, maxAttempts);
      } else if act.WriteLater? && act.id in s.passed {
        WriteStaysConsistent(s.db, act.id, maxAttempts);
      }
      MirroredHasOneOutcomeEach(d.db);
    }
  }

  /** A call whose transaction follows its read at once is the atomic step. */
  lemma ReadThenWrite(s: Shared, id: PaymentId, maxAttempts: nat)
    requires Engine.ReadPasses(s.db, id) || id !in s.passed
    ensures After(After(s, ReadPayment(id), maxAttempts), WriteLater(id), maxAttempts).db
         == Next(s.db, ApiValidate(id), maxAttempts)
  {
    Engine.AtOnce(s.db, id);
  }

  // ---------- Runs ----------

  ghost predicate AllConsistent(states: seq<Shared>, maxAttempts: nat) {
    forall i | 0 <= i < |states| :: Consistent(states[i], maxAttempts)
  }

  ghost predicate AllHaveOneOutcomeEach(states: seq<Shared>) {
    forall i | 0 <= i < |states| :: OneOutcomeEach(states[i].db)
  }

  ghost predicate NoneMeetsRejected(states: seq<Shared>, acts: seq<Act>)
    requires |states| == |acts| + 1
  {
    forall i | 0 <= i < |acts| :: !MeetsRejected(states[i], acts[i])
  }

  ghost predicate Follow(states: seq<Shared>, acts: seq<Act>, maxAttempts: nat) {
    && |states| == |acts| + 1
    && forall i | 0 <= i < |acts| :: states[i + 1] == After(states[i], acts[i], maxAttempts)
  }

  lemma ConsistentUpTo(states: seq<Shared>, acts: seq<Act>, maxAttempts: nat)
    requires Follow(states, acts, maxAttempts) && maxAttempts >= 1 && Consistent(states[0], maxAttempts)
    requires NoneMeetsRejected(states, acts) || AllHaveOneOutcomeEach(states)
    ensures AllConsistent(states, maxAttempts)
  {
    var flags := seq(|states|, i requires 0 <= i < |states| => Consistent(states[i], maxAttempts));
    forall j | 0 <= j < |acts| ensures flags[j] ==> flags[j + 1] {
      if flags[j] {
        ActStaysConsistent(states[j], acts[j], maxAttempts);
      }
    }
    forall i | 0 <= i < |states| ensures Consistent(states[i], maxAttempts) {
      System.HandedOn(flags, i);
    }
  }

  /** With the API's reads and writes as steps of their own, a run keeps the invariant exactly when no late write meets
      a rejected payment, which is exactly when no payment ever has both outcomes. */
  lemma StaleRunIsConsistent(states: seq<Shared>, acts: seq<Act>, maxAttempts: nat)
    requires Follow(states, acts, maxAttempts) && maxAttempts >= 1 && Consistent(states[0], maxAttempts)
    ensures AllConsistent(states, maxAttempts) <==> NoneMeetsRejected(states, acts)
    ensures AllHaveOneOutcomeEach(states) <==> NoneMeetsRejected(states, acts)
  {
    if NoneMeetsRejected(states, acts) || AllHaveOneOutcomeEach(states) {
      ConsistentUpTo(states, acts, maxAttempts);
    }
    if AllConsistent(states, maxAttempts) {
      forall i | 0 <= i < |acts| ensures !MeetsRejected(states[i], acts[i]) {
        assert Consistent(states[i + 1], maxAttempts);
        ActStaysConsistent(states[i], acts[i], maxAttempts);
      }
      forall i | 0 <= i < |states| ensures OneOutcomeEach(states[i].db) {
        MirroredHasOneOutcomeEach(states[i].db);
      }
    }
  }

  // ---------- Such a run exists ----------

  function Atomics(steps: seq<Step>): seq<Act> {
    seq(|steps|, i requires 0 <= i < |steps| => Atomic(steps[i]))
  }

  lemma AtomicsSnoc(steps: seq<Step>)
    requires steps != []
    ensures Atomics(steps) == Atomics(steps[..|steps| - 1]) + [Atomic(steps[|steps| - 1])]
  {
  }

  /** Runs of the system are among these runs. */
  lemma {:induction false} AtomicRun(s: Shared, acts: seq<Act>, steps: seq<Step>, maxAttempts: nat)
    ensures var start := AfterAll(s, acts, maxAttempts);
            AfterAll(s, acts + Atomics(steps), maxAttempts)
            == Shared(System.Run(start.db, steps, maxAttempts), start.passed)
    decreases |steps|
  {
    if steps == [] {
      assert acts + Atomics(steps) == acts;
    } else {
      var before := steps[..|steps| - 1];
      AtomicRun(s, acts, before, maxAttempts);
      AtomicsSnoc(steps);
      assert acts + Atomics(steps) == (acts + Atomics(before)) + [Atomic(steps[|steps| - 1])];
      AfterSnoc(s, acts + Atomics(before), Atomic(steps[|steps| - 1]), maxAttempts);
    }
  }

  lemma ReadPart(first: seq<Step>, db: Db, id: PaymentId, maxAttempts: nat)
    requires db == System.Run(EMPTY, first, maxAttempts) && Engine.ReadPasses(db, id)
    ensures AfterAll(Shared(EMPTY, {}), Atomics(first) + [ReadPayment(id)], maxAttempts) == Shared(db, {id})
  {
    var start := Shared(EMPTY, {});
    assert [] + Atomics(first) == Atomics(first);
    AtomicRun(start, [], first, maxAttempts);
    AfterSnoc(start, Atomics(first), ReadPayment(id), maxAttempts);
  }

  lemma WritePart(acts: seq<Act>, second: seq<Step>, db: Db, d: Db, id: PaymentId, maxAttempts: nat)
    requires AfterAll(Shared(EMPTY, {}), acts, maxAttempts) == Shared(db, {id})
    requires d == System.Run(db, second, maxAttempts)
    ensures AfterAll(Shared(EMPTY, {}), acts + Atomics(second) + [WriteLater(id)], maxAttempts).db
         == Commit(d, Engine.WriteValidated(d, id))
  {
    AtomicRun(Shared(EMPTY, {}), acts, second, maxAttempts);
    AfterSnoc(Shared(EMPTY, {}), acts + Atomics(second), WriteLater(id), maxAttempts);
  }

  lemma LateWriteRun(db: Db, d: Db, id: PaymentId, maxAttempts: nat) returns (acts: seq<Act>)
    requires Reachable(db, maxAttempts) && Engine.ReadPasses(db, id) && Leads(db, d, maxAttempts)
    ensures AfterAll(Shared(EMPTY, {}), acts, maxAttempts).db == Commit(d, Engine.WriteValidated(d, id))
  {
    var first :| db == System.Run(EMPTY, first, maxAttempts);
    var second :| d == System.Run(db, second, maxAttempts);
    ReadPart(first, db, id, maxAttempts);
    WritePart(Atomics(first) + [ReadPayment(id)], second, db, d, id, maxAttempts);
    acts := Atomics(first) + [ReadPayment(id)] + Atomics(second) + [WriteLater(id)];
  }

  /** From the empty database: the API reads a payment, the worker rejects it, the API writes. */
  lemma BothOutcomesInARun(maxAttempts: nat)
    requires maxAttempts >= 1
    ensures exists acts :: BothOutcomes(AfterAll(Shared(EMPTY, {}), acts, maxAttempts).db, "p")
  {
    BothOutcomesAreReached(maxAttempts);
    var db, d :| && Reachable(db, maxAttempts) && Engine.ReadPasses(db, "p") && Leads(db, d, maxAttempts)
                 && BothOutcomes(Commit(d, Engine.WriteValidated(d, "p")), "p");
    var acts := LateWriteRun(db, d, "p", maxAttempts);
  }
}
