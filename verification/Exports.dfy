/** NACHA generation and download as transactions on the tables. */
module Exports {
  import opened Text
  import opened Store
  import opened Nacha

  type Payments = map<PaymentId, Payment>
  type Merchants = map<MerchantId, Merchant>

  /** VALIDATED payments that were not exported yet. */
  function Eligible(ps: Payments): set<PaymentId> {
    set id | id in ps && ps[id].status.Validated? && ps[id].file.None?
  }

  function MerchantsOf(ps: Payments, ids: set<PaymentId>): set<MerchantId> {
    set id | id in ids && id in ps :: ps[id].details.merchantId
  }

  function OfMerchant(ps: Payments, ids: set<PaymentId>, m: MerchantId): set<PaymentId> {
    set id | id in ids && id in ps && ps[id].details.merchantId == m
  }

  /** The payments of one file. */
  function Exported(ps: Payments, file: nat): set<PaymentId> {
    set id | id in ps && ps[id].file == Some(file)
  }

  predicate HasItem(ps: Payments, merchants: Merchants, id: PaymentId) {
    id in ps && ps[id].details.merchantId in merchants
  }

  function ItemOf(d: Details, profile: Profile): Item {
    Item(d.direction, d.amount, d.routingNumber, d.receiverAccountRef, d.receiverName,
         Company(profile.legalName, profile.merchantCode))
  }

  function ItemAt(ps: Payments, merchants: Merchants, id: PaymentId): Item
    requires HasItem(ps, merchants, id)
  {
    ItemOf(ps[id].details, merchants[ps[id].details.merchantId].profile)
  }

  function Items(ps: Payments, merchants: Merchants, ids: seq<PaymentId>): (items: seq<Item>)
    requires forall i | 0 <= i < |ids| :: HasItem(ps, merchants, ids[i])
    ensures |items| == |ids|
  {
    seq(|ids|, i requires 0 <= i < |ids| => ItemAt(ps, merchants, ids[i]))
  }

  predicate RoutingIsNumeric(d: Details) {
    AllDigits(if |d.routingNumber| > 8 then d.routingNumber[..8] else d.routingNumber)
  }

  ghost predicate CanRender(ps: Payments, merchants: Merchants, ids: set<PaymentId>) {
    forall id | id in ids :: HasItem(ps, merchants, id) && RoutingIsNumeric(ps[id].details)
  }

  ghost function ItemsOf(ps: Payments, merchants: Merchants, ids: set<PaymentId>): (items: seq<Item>)
    requires CanRender(ps, merchants, ids)
    ensures Renderable(items) && |items| == |ids|
  {
    var order := Sorted(ids);
    assert forall i | 0 <= i < |order| :: order[i] in ids;
    Items(ps, merchants, order)
  }

  /** The merchant whose payments the next file will carry. */
  ghost function NextMerchant(ps: Payments): MerchantId
    requires Eligible(ps) != {}
  {
    var id :| id in Eligible(ps);
    assert ps[id].details.merchantId in MerchantsOf(ps, Eligible(ps));
    Least(MerchantsOf(ps, Eligible(ps)))
  }

  ghost function NextBatch(ps: Payments): set<PaymentId>
    requires Eligible(ps) != {}
  {
    OfMerchant(ps, Eligible(ps), NextMerchant(ps))
  }

  lemma NextBatchIsEligible(ps: Payments)
    requires Eligible(ps) != {}
    ensures var ids := NextBatch(ps);
            && ids != {} && ids <= Eligible(ps)
            && forall id | id in ids :: ps[id].details.merchantId == NextMerchant(ps)
  {
    var m := NextMerchant(ps);
    assert m in MerchantsOf(ps, Eligible(ps));
    var id :| id in Eligible(ps) && ps[id].details.merchantId == m;
    assert id in NextBatch(ps);
  }

  ghost function FileOf(ps: Payments, merchants: Merchants, ids: set<PaymentId>, m: MerchantId, day: Day): AchFile
    requires CanRender(ps, merchants, ids)
  {
    var items := ItemsOf(ps, merchants, ids);
    AchFile(m, day, |items|, Total(Group(items, Debit)), Total(Group(items, Credit)),
            RdfiTotal(items) % HASH_MODULUS, FileText(items, day))
  }

  function MarkSubmitted(ps: Payments, ids: set<PaymentId>, file: nat): Payments {
    map id | id in ps :: if id in ids then ps[id].(status := Submitted, file := Some(file)) else ps[id]
  }

  function SubmittedEvents(ps: Payments, ids: set<PaymentId>): map<EventKey, OutboxRow>
    requires ids <= ps.Keys
  {
    map id | id in ids :: Lifecycle(id, PaymentSubmitted) := NewEvent(ps[id], None)
  }

  /** What one generated file commits. */
  ghost function Submit(db: Db, ids: set<PaymentId>, m: MerchantId, day: Day): Db
    requires ids <= db.payments.Keys && CanRender(db.payments, db.merchants, ids)
  {
    var submitted := MarkSubmitted(db.payments, ids, |db.files|);
    db.(files := db.files + [FileOf(db.payments, db.merchants, ids, m, day)],
        payments := submitted,
        outbox := db.outbox + SubmittedEvents(submitted, ids))
  }

  /** `generate`: nothing to do, or one file for one merchant; any throw rolls everything back. */
  ghost function Generate(db: Db, day: Day): Result<Db> {
    if Eligible(db.payments) == {} then Ok(db)
    else
      var ids := NextBatch(db.payments);
      if !CanRender(db.payments, db.merchants, ids) then Err(BadRequest)
      else if exists id :: id in ids && Lifecycle(id, PaymentSubmitted) in db.outbox then Err(UniqueViolation)
      else Ok(Submit(db, ids, NextMerchant(db.payments), day))
  }

  /** The payments of a file that a caller may see. */
  function InScope(ps: Payments, file: nat, scope: Option<MerchantId>): set<PaymentId> {
    if scope.None? then Exported(ps, file) else OfMerchant(ps, Exported(ps, file), scope.value)
  }

  /** `downloadForScope`, for an administrator or for one merchant: the text is rendered again from the
      payments as they are now. */
  ghost function Download(db: Db, file: nat, scope: Option<MerchantId> := None): Result<string> {
    if file >= |db.files| || (scope.Some? && db.files[file].companyId != scope.value) then Err(NotFound)
    else
      var ids := InScope(db.payments, file, scope);
      if ids == {} then Err(NotFound)
      else if !CanRender(db.payments, db.merchants, ids) then Err(BadRequest)
      else Ok(FileText(ItemsOf(db.payments, db.merchants, ids), db.files[file].day))
  }
}
