/** The worker's export and the API's download, statement by statement. */
module NachaFileGenerator {
  import opened Text
  import opened Store
  import opened Nacha
  import opened NachaRenderer
  import opened GeneratedText
  import opened Database
  import Exports
  import ExportAll

  // ---------- Ordered queries ----------

  lemma LeastOfTwo(seen: set<string>, best: string, x: string)
    requires IsLeast(seen, best)
    ensures IsLeast(seen + {x}, if Less(x, best) then x else best)
  {
    LessIsTotal(x, best);
    if Less(x, best) {
      forall y | y in seen && y != x ensures Less(x, y) {
        if y != best {
          LessIsTransitive(x, best, y);
        }
      }
    }
  }

  /** The smallest of a non-empty set of ids. */
  method Smallest(ids: set<string>) returns (least: string)
    requires ids != {}
    ensures least == Least(ids)
  {
    least :| least in ids;
    var rest := ids - {least};
    while rest != {}
      invariant rest <= ids && IsLeast(ids - rest, least)
    {
      var x :| x in rest;
      LeastOfTwo(ids - rest, least, x);
      assert ids - (rest - {x}) == (ids - rest) + {x};
      rest := rest - {x};
      if Less(x, least) {
        least := x;
      }
    }
    assert ids - {} == ids;
    LeastIsUnique(ids, least, Least(ids));
  }

  lemma SortedFrom(done: seq<string>, rest: set<string>)
    requires rest != {}
    ensures done + Sorted(rest) == done + [Least(rest)] + Sorted(rest - {Least(rest)})
  {
  }

  /** `orderBy: { id: 'asc' }`. */
  method Ascending(ids: set<string>) returns (order: seq<string>)
    ensures order == Sorted(ids)
  {
    order := [];
    var rest := ids;
    while rest != {}
      invariant rest <= ids && order + Sorted(rest) == Sorted(ids)
    {
      var least := Smallest(rest);
      SortedFrom(order, rest);
      order, rest := order + [least], rest - {least};
    }
  }

  // ---------- Marking payments and emitting events ----------

  lemma MarkOne(ps: Exports.Payments, ids: set<PaymentId>, id: PaymentId, file: nat)
    requires id in ps && id !in ids
    ensures Exports.MarkSubmitted(ps, ids + {id}, file)
         == Exports.MarkSubmitted(ps, ids, file)[id := ps[id].(status := Submitted, file := Some(file))]
    ensures Exports.MarkSubmitted(ps, ids, file)[id] == ps[id]
  {
  }

  lemma EmitOne(ps: Exports.Payments, ids: set<PaymentId>, id: PaymentId)
    requires ids <= ps.Keys && id in ps && id !in ids
    ensures Exports.SubmittedEvents(ps, ids + {id})
         == Exports.SubmittedEvents(ps, ids)[Lifecycle(id, PaymentSubmitted) := NewEvent(ps[id], None)]
    ensures Lifecycle(id, PaymentSubmitted) !in Exports.SubmittedEvents(ps, ids)
  {
  }

  function WithEvents(db: Db, ids: set<PaymentId>): Db
    requires ids <= db.payments.Keys
  {
    db.(outbox := db.outbox + Exports.SubmittedEvents(db.payments, ids))
  }

  predicate AlreadySubmitted(outbox: map<EventKey, OutboxRow>, ids: set<PaymentId>) {
    exists id :: id in ids && Lifecycle(id, PaymentSubmitted) in outbox
  }

  /** What is written for one file. */
  function Written(db: Db, ids: set<PaymentId>, file: AchFile): Result<Db>
    requires ids <= db.payments.Keys
  {
    var submitted := Exports.MarkSubmitted(db.payments, ids, |db.files|);
    if AlreadySubmitted(db.outbox, ids) then Err(UniqueViolation)
    else Ok(WithEvents(db.(files := db.files + [file], payments := submitted), ids))
  }

  lemma SortedLists(ids: set<PaymentId>)
    ensures Lists(Sorted(ids), ids) && SetOf(Sorted(ids)) == ids
  {
    forall i, j | 0 <= i < j < |Sorted(ids)| ensures Sorted(ids)[i] != Sorted(ids)[j] {
      LessIsTotal(Sorted(ids)[i], Sorted(ids)[j]);
    }
  }

  /** The text and the metadata of a merchant's file; a routing number that is not numeric throws. */
  method RenderFile(ps: Exports.Payments, merchants: Exports.Merchants, ids: set<PaymentId>, order: seq<PaymentId>,
                    m: MerchantId, day: Day)
    returns (file: Result<AchFile>)
    requires ids != {} && order == Sorted(ids) && forall id | id in ids :: id in ps && ps[id].details.merchantId == m
    ensures file == if Exports.CanRender(ps, merchants, ids) then Ok(Exports.FileOf(ps, merchants, ids, m, day))
                    else Err(BadRequest)
  {
    var some :| some in ids;
    if m !in merchants {
      assert !Exports.HasItem(ps, merchants, some);
      return Err(BadRequest);
    }
    forall i | 0 <= i < |order| ensures Exports.HasItem(ps, merchants, order[i]) {
      assert order[i] in ids;
    }
    var items := Exports.Items(ps, merchants, order);
    RenderableIs(ps, merchants, ids, order);
    if exists i :: 0 <= i < |items| && !AllDigits(Rdfi(items[i])) {
      return Err(BadRequest);
    }
    var text, debit, credit, hash := GenerateText(items, day);
    file := Ok(AchFile(m, day, |items|, debit, credit, hash, text));
  }

  lemma RenderableIs(ps: Exports.Payments, merchants: Exports.Merchants, ids: set<PaymentId>, order: seq<PaymentId>)
    requires order == Sorted(ids) && forall i | 0 <= i < |order| :: Exports.HasItem(ps, merchants, order[i])
    ensures Renderable(Exports.Items(ps, merchants, order)) <==> Exports.CanRender(ps, merchants, ids)
    ensures Exports.CanRender(ps, merchants, ids) ==>
              Exports.Items(ps, merchants, order) == Exports.ItemsOf(ps, merchants, ids)
  {
    var items := Exports.Items(ps, merchants, order);
    forall i | 0 <= i < |order| ensures AllDigits(Rdfi(items[i])) == Exports.RoutingIsNumeric(ps[order[i]].details) {
      assert items[i] == Exports.ItemAt(ps, merchants, order[i]);
    }
    if Renderable(items) {
      forall id | id in ids ensures Exports.HasItem(ps, merchants, id) && Exports.RoutingIsNumeric(ps[id].details) {
        assert id in order;
        var i :| 0 <= i < |order| && order[i] == id;
        assert AllDigits(Rdfi(items[i]));
      }
    }
    if Exports.CanRender(ps, merchants, ids) {
      forall i | 0 <= i < |order| ensures AllDigits(Rdfi(items[i])) {
        assert order[i] in ids;
      }
    }
  }

  class Generator {
    const tables: Tables

    constructor (tables: Tables)
      ensures this.tables == tables
    {
      this.tables := tables;
    }

    /** `payment.updateMany` for the payments of one file. */
    method MarkSubmitted(order: seq<PaymentId>, file: nat)
      requires Lists(order, SetOf(order)) && SetOf(order) <= tables.payments.Keys
      modifies tables
      ensures tables.State() == old(tables.State()).(payments :=
                Exports.MarkSubmitted(old(tables.payments), SetOf(order), file))
    {
      ghost var db := tables.State();
      assert Exports.MarkSubmitted(db.payments, {}, file) == db.payments;
      for i := 0 to |order|
        invariant tables.State() == db.(payments := Exports.MarkSubmitted(db.payments, SetOf(order[..i]), file))
      {
        NextListed(order, i);
        MarkOne(db.payments, SetOf(order[..i]), order[i], file);
        tables.UpdatePayment(order[i], tables.payments[order[i]].(status := Submitted, file := Some(file)));
      }
      assert order[..|order|] == order;
    }

    /** `outboxEvent.create` for one of them. */
    method EmitNext(id: PaymentId, ghost db: Db, ghost done: set<PaymentId>) returns (r: Result<()>)
      requires done <= db.payments.Keys && id in db.payments && id !in done
      requires tables.State() == WithEvents(db, done)
      modifies tables
      ensures r == if Lifecycle(id, PaymentSubmitted) in db.outbox then Err(UniqueViolation) else Ok(())
      ensures r.Ok? ==> tables.State() == WithEvents(db, done + {id})
    {
      EmitOne(db.payments, done, id);
      r := tables.CreateEvent(id, PaymentSubmitted);
      if r.Ok? {
        UpdateRight(db.outbox, Exports.SubmittedEvents(db.payments, done), Lifecycle(id, PaymentSubmitted),
                    NewEvent(db.payments[id], None));
      }
    }

    /** ... and for all. */
    method EmitSubmitted(order: seq<PaymentId>) returns (r: Result<()>)
      requires Lists(order, SetOf(order)) && SetOf(order) <= tables.payments.Keys
      modifies tables
      ensures r == if AlreadySubmitted(old(tables.outbox), SetOf(order)) then Err(UniqueViolation) else Ok(())
      ensures r.Ok? ==> tables.State() == WithEvents(old(tables.State()), SetOf(order))
    {
      ghost var db := tables.State();
      assert Exports.SubmittedEvents(db.payments, {}) == map[];
      for i := 0 to |order|
        invariant !AlreadySubmitted(db.outbox, SetOf(order[..i]))
        invariant SetOf(order[..i]) <= db.payments.Keys
        invariant tables.State() == WithEvents(db, SetOf(order[..i]))
      {
        NextListed(order, i);
        r := EmitNext(order[i], db, SetOf(order[..i]));
        if r.Err? {
          assert order[i] in SetOf(order);
          return;
        }
      }
      assert order[..|order|] == order;
      r := Ok(());
    }

    method FirstEligibleMerchant() returns (m: Option<MerchantId>)
      ensures m == if Exports.Eligible(tables.payments) == {} then None else Some(Exports.NextMerchant(tables.payments))
    {
      var eligible := Exports.Eligible(tables.payments);
      if eligible == {} {
        return None;
      }
      var id :| id in eligible;
      assert tables.payments[id].details.merchantId in Exports.MerchantsOf(tables.payments, eligible);
      var least := Smallest(Exports.MerchantsOf(tables.payments, eligible));
      m := Some(least);
    }

    /** `generate`: false when there was nothing to export. */
    method Generate(day: Day) returns (r: Result<bool>)
      modifies tables
      ensures var spec := Exports.Generate(old(tables.State()), day);
              && tables.State() == Commit(old(tables.State()), spec)
              && (if spec.Err? then r == Err(spec.error) else r == Ok(Exports.Eligible(old(tables.payments)) != {}))
    {
      var merchant := FirstEligibleMerchant();
      if merchant.None? {
        return Ok(false);
      }
      var saved := tables.State();
      var done := ExportFor(merchant.value, day);
      if done.Err? {
        tables.Rollback(saved);
        return Err(done.error);
      }
      r := Ok(true);
    }

    /** `generateAll`: file after file until there is nothing left; an error ends it. */
    method GenerateAll(day: Day) returns (r: Result<nat>)
      modifies tables
      ensures tables.State() == ExportAll.GenerateAll(old(tables.State()), day)
      ensures r.Ok? ==> |tables.files| == |old(tables.files)| + r.value && ExportAll.Waiting(tables.payments) == {}
    {
      ghost var db := tables.State();
      var files: nat := 0;
      while true
        invariant ExportAll.GenerateAll(tables.State(), day) == ExportAll.GenerateAll(db, day)
        invariant |tables.files| == |db.files| + files
        decreases |Exports.Eligible(tables.payments)|
      {
        ghost var before := tables.State();
        var generated := Generate(day);
        if generated.Err? {
          return Err(generated.error);
        }
        if !generated.value {
          ExportAll.WaitingAreEligible(tables.payments);
          return Ok(files);
        }
        ExportAll.GenerateShrinks(before, day);
        files := files + 1;
      }
    }

    /** The statements of the transaction once the merchant is chosen. */
    method ExportFor(m: MerchantId, day: Day) returns (r: Result<()>)
      requires Exports.Eligible(tables.payments) != {} && m == Exports.NextMerchant(tables.payments)
      modifies tables
      ensures Does(Exports.Generate(old(tables.State()), day), r, tables.State())
    {
      var ids := Exports.OfMerchant(tables.payments, Exports.Eligible(tables.payments), m);
      Exports.NextBatchIsEligible(tables.payments);
      var order := Ascending(ids);
      SortedLists(ids);
      var file := RenderFile(tables.payments, tables.merchants, ids, order, m, day);
      if file.Err? {
        return Err(file.error);
      }
      ghost var db := tables.State();
      r := WriteFile(order, file.value);
    }

    /** Creates the file, marks its payments and emits their events. */
    method WriteFile(order: seq<PaymentId>, file: AchFile) returns (r: Result<()>)
      requires Lists(order, SetOf(order)) && SetOf(order) <= tables.payments.Keys
      modifies tables
      ensures Does(Written(old(tables.State()), SetOf(order), file), r, tables.State())
    {
      var fileId := |tables.files|;
      tables.files := tables.files + [file];
      MarkSubmitted(order, fileId);
      r := EmitSubmitted(order);
    }
  }

  class NachaFilesService {
    const tables: Tables

    constructor (tables: Tables)
      ensures this.tables == tables
    {
      this.tables := tables;
    }

    /** `downloadForScope`. */
    method Download(file: nat, scope: Option<MerchantId>) returns (text: Result<string>)
      ensures text == Exports.Download(tables.State(), file, scope)
    {
      if file >= |tables.files| || (scope.Some? && tables.files[file].companyId != scope.value) {
        return Err(NotFound);
      }
      var ids := Exports.InScope(tables.payments, file, scope);
      if ids == {} {
        return Err(NotFound);
      }
      var order := Ascending(ids);
      if exists id :: id in ids && tables.payments[id].details.merchantId !in tables.merchants {
        return Err(BadRequest);
      }
      forall i | 0 <= i < |order| ensures Exports.HasItem(tables.payments, tables.merchants, order[i]) {
        assert order[i] in ids;
      }
      RenderableIs(tables.payments, tables.merchants, ids, order);
      text := RenderNacha(Exports.Items(tables.payments, tables.merchants, order), tables.files[file].day);
    }
  }
}
