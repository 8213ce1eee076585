/** Concrete runs: a shop with an endpoint and a funded account submits one payment. */
module Witnesses {
  import opened Text
  import opened Store
  import opened Nacha
  import opened Funding
  import opened Effects
  import opened Mirroring
  import opened Invariants
  import opened Safety
  import opened System
  import opened Agreement
  import Creation
  import Exports
  import Engine = PaymentEngine

  const SHOP := "m"
  const ACCOUNT := AccountId(SHOP, "USD")
  const RECEIVED := Lifecycle("p", PaymentReceived)

  /** What the runs vary: the shop's funds, the payment's amount, the shop's daily limit, the receiver's name and the
      payment's direction. */
  datatype Case = Case(funds: nat, amount: nat, daily: nat, receiver: string, direction: Direction) {
    predicate Valid() {
      funds >= 1 && amount >= 1 && 1 <= |receiver| <= 140
    }

    function Profile(): Profile {
      Store.Profile("M", "Shop", true, true, amount, daily)
    }

    function Request(): Creation.Request {
      Creation.Request("M", direction, amount, None, Some("r"), None, receiver, "a", "123456789")
    }

    function Details(): Details {
      Creation.Canonical(Request(), SHOP)
    }

    /** The shop is onboarded with its endpoint and funds, and submits the payment. */
    function Opening(): seq<Step> {
      [Onboard(SHOP, Profile()), SetEndpoint("e", SHOP, true), ProvisionFunding(ACCOUNT, funds),
       CreatePayment(Request(), "k", SHOP, "p", 0)]
    }
  }

  /** A debit within the daily limit. */
  function Plain(funds: nat, amount: nat): Case {
    Case(funds, amount, amount, "n", Debit)
  }

  function Onboarded(c: Case): Db {
    EMPTY.(merchants := map[SHOP := Merchant(c.Profile(), Active)])
  }

  function Connected(c: Case): Db {
    Onboarded(c).(endpoints := map["e" := Endpoint(SHOP, true)])
  }

  function Shop(c: Case): Db {
    Connected(c).(accounts := map[ACCOUNT := AccountActive],
                  ledger := map[DemoFundingKey(ACCOUNT) := Entry(ACCOUNT, None, InitialCredit, c.funds)])
  }

  function Asked(c: Case): Db {
    Inserted(Shop(c), c.Details(), "k", "p", 0)
  }

  lemma OnboardStep(c: Case, maxAttempts: nat)
    ensures Next(EMPTY, Onboard(SHOP, c.Profile()), maxAttempts) == Onboarded(c)
  {
    assert EMPTY.merchants[SHOP := Merchant(c.Profile(), Active)] == map[SHOP := Merchant(c.Profile(), Active)];
  }

  lemma ConnectStep(c: Case, maxAttempts: nat)
    ensures Next(Onboarded(c), SetEndpoint("e", SHOP, true), maxAttempts) == Connected(c)
  {
    assert EMPTY.endpoints["e" := Endpoint(SHOP, true)] == map["e" := Endpoint(SHOP, true)];
  }

  lemma ProvisionStep(c: Case, maxAttempts: nat)
    requires c.Valid()
    ensures Next(Connected(c), ProvisionFunding(ACCOUNT, c.funds), maxAttempts) == Shop(c)
  {
    var d := Connected(c);
    var e := Entry(ACCOUNT, None, InitialCredit, c.funds);
    assert d.accounts[ACCOUNT := AccountActive] == map[ACCOUNT := AccountActive];
    assert d.ledger[DemoFundingKey(ACCOUNT) := e] == map[DemoFundingKey(ACCOUNT) := e];
  }

  lemma RequestIsAccepted(c: Case)
    requires c.Valid()
    ensures Creation.Create(Shop(c), c.Request(), "k", SHOP, "p", 0) == Ok(Asked(c))
  {
    assert Trim("k") == "k";
    assert Creation.WellFormed(c.Request());
  }

  lemma CreateStep(c: Case, maxAttempts: nat)
    requires c.Valid()
    ensures Next(Shop(c), CreatePayment(c.Request(), "k", SHOP, "p", 0), maxAttempts) == Asked(c)
  {
    RequestIsAccepted(c);
  }

  lemma {:induction false} FourSteps(db: Db, steps: seq<Step>, maxAttempts: nat)
    requires |steps| == 4
    ensures System.Run(db, steps, maxAttempts)
         == Next(Next(Next(Next(db, steps[0], maxAttempts), steps[1], maxAttempts), steps[2], maxAttempts), steps[3],
                 maxAttempts)
  {
    assert steps[..0] == [] && steps[..4] == steps;
    System.RunTake(db, steps, 0, maxAttempts);
    System.RunTake(db, steps, 1, maxAttempts);
    System.RunTake(db, steps, 2, maxAttempts);
    System.RunTake(db, steps, 3, maxAttempts);
  }

  lemma OpeningRuns(c: Case, maxAttempts: nat)
    requires c.Valid()
    ensures System.Run(EMPTY, c.Opening(), maxAttempts) == Asked(c)
  {
    FourSteps(EMPTY, c.Opening(), maxAttempts);
    OnboardStep(c, maxAttempts);
    ConnectStep(c, maxAttempts);
    ProvisionStep(c, maxAttempts);
    CreateStep(c, maxAttempts);
  }

  ghost predicate Arrives(db: Db, maxAttempts: nat) {
    Reachable(db, maxAttempts) && Inv(db, maxAttempts)
  }

  lemma ArrivesNext(db: Db, step: Step, maxAttempts: nat)
    requires Arrives(db, maxAttempts) && maxAttempts >= 1
    ensures Arrives(Next(db, step, maxAttempts), maxAttempts)
  {
    StepIsReachable(db, step, maxAttempts);
    StepKeepsInv(db, step, maxAttempts);
  }

  lemma AskedArrives(c: Case, maxAttempts: nat)
    requires c.Valid() && maxAttempts >= 1
    ensures Arrives(Asked(c), maxAttempts)
  {
    OpeningRuns(c, maxAttempts);
    EveryRunKeepsInv(c.Opening(), maxAttempts);
  }

  /** The API lets the payment pass. */
  lemma AskedPasses(c: Case)
    requires c.Valid()
    ensures Engine.ReadPasses(Asked(c), "p")
  {
    assert Trim("r") == "r" && Trim("a") == "a" && Trim("123456789") == "123456789";
  }

  lemma AskedIsMirrored(c: Case, maxAttempts: nat)
    requires Arrives(Asked(c), maxAttempts)
    ensures Mirrored(Asked(c))
  {
  }

  lemma AskedIsValidated(c: Case)
    requires c.Valid() && Mirrored(Asked(c))
    ensures Engine.Validate(Asked(c), "p") == Ok(ToVerdict(Asked(c), "p", None))
  {
    AskedPasses(c);
    EngineValidateIs(Asked(c), "p");
  }

  lemma ApiValidationArrives(db: Db, d: Db, id: PaymentId, maxAttempts: nat)
    requires Arrives(db, maxAttempts) && maxAttempts >= 1 && Engine.Validate(db, id) == Ok(d)
    ensures Arrives(d, maxAttempts)
  {
    ArrivesNext(db, ApiValidate(id), maxAttempts);
  }

  lemma ValidatedArrives(c: Case, maxAttempts: nat)
    requires c.Valid() && maxAttempts >= 1
    ensures Arrives(ToVerdict(Asked(c), "p", None), maxAttempts)
  {
    AskedArrives(c, maxAttempts);
    AskedIsMirrored(c, maxAttempts);
    AskedIsValidated(c);
    ApiValidationArrives(Asked(c), ToVerdict(Asked(c), "p", None), "p", maxAttempts);
  }

  // ---------- The export of the payment ----------

  ghost predicate ExportsAlone(db: Db, d: Db, id: PaymentId, day: Day) {
    && id in db.payments && id in d.payments
    && d.payments[id].status.Submitted? && d.payments[id].details == db.payments[id].details
    && d.accounts == db.accounts && d.ledger == db.ledger && d.holds == db.holds
    && d.merchants == db.merchants
    && Exports.CanRender(db.payments, db.merchants, {id}) && |d.files| == |db.files| + 1
    && d.files[|db.files|].digestOf == FileText(Exports.ItemsOf(db.payments, db.merchants, {id}), day)
  }

  lemma SubmitsOne(db: Db, id: PaymentId, m: MerchantId, day: Day)
    requires id in db.payments && Exports.CanRender(db.payments, db.merchants, {id})
    ensures ExportsAlone(db, Exports.Submit(db, {id}, m, day), id, day)
  {
  }

  lemma OneInBatch(ps: Effects.Payments, id: PaymentId)
    requires Exports.Eligible(ps) == {id}
    ensures id in ps && Exports.NextBatch(ps) == {id}
  {
    Exports.NextBatchIsEligible(ps);
    assert id in Exports.Eligible(ps);
  }

  /** The export of the only eligible payment. */
  lemma ExportsOne(db: Db, id: PaymentId, day: Day)
    requires Mirrored(db) && PapersOk(db) && Exports.Eligible(db.payments) == {id}
    ensures ExportsAlone(db, Commit(db, Exports.Generate(db, day)), id, day)
  {
    GenerateIs(db, day);
    OneInBatch(db.payments, id);
    SubmitsOne(db, id, Exports.NextMerchant(db.payments), day);
  }

  lemma ExportArrives(db: Db, id: PaymentId, day: Day, maxAttempts: nat) returns (d: Db)
    requires Arrives(db, maxAttempts) && maxAttempts >= 1 && Exports.Eligible(db.payments) == {id}
    ensures Arrives(d, maxAttempts) && ExportsAlone(db, d, id, day)
  {
    ExportsOne(db, id, day);
    System.NextExports(db, day, maxAttempts);
    ArrivesNext(db, GenerateFile(day), maxAttempts);
    d := Next(db, GenerateFile(day), maxAttempts);
  }

  lemma OneEligible(c: Case)
    ensures var d := ToVerdict(Asked(c), "p", None);
            && Exports.Eligible(d.payments) == {"p"}
            && d.ledger == Asked(c).ledger && d.holds == Asked(c).holds && d.accounts == Asked(c).accounts
            && d.merchants == Asked(c).merchants && d.payments["p"].details == c.Details()
  {
  }

  lemma ExportedArrives(c: Case, day: Day, maxAttempts: nat) returns (d: Db)
    requires c.Valid() && maxAttempts >= 1
    ensures Arrives(d, maxAttempts) && ExportsAlone(ToVerdict(Asked(c), "p", None), d, "p", day)
    ensures d.payments["p"].details == c.Details() && d.ledger == Asked(c).ledger && d.holds == Asked(c).holds
    ensures AccountUsable(d, ACCOUNT)
  {
    ValidatedArrives(c, maxAttempts);
    OneEligible(c);
    d := ExportArrives(ToVerdict(Asked(c), "p", None), "p", day, maxAttempts);
  }
}
