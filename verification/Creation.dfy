/** Idempotent payment creation: the request, its canonical form, and the creating transaction. */
module Creation {
  import opened Text
  import opened Store

  /** `CreatePaymentDto`. */
  datatype Request = Request(merchantCode: string, direction: Direction, amountCents: int, currency: Option<string>,
                             externalReference: Option<string>, description: Option<string>, receiverName: string,
                             receiverAccountRef: string, routingNumber: string)

  /** What the validation pipe enforces before the service runs. */
  predicate WellFormed(r: Request) {
    && r.amountCents >= 1
    && (r.currency.Some? ==> |r.currency.value| == 3)
    && 1 <= |r.merchantCode| <= 100 && 1 <= |r.receiverName| <= 140 && 1 <= |r.receiverAccountRef| <= 255
    && AtMost(r.externalReference, 100) && AtMost(r.description, 255)
    && |r.routingNumber| == 9 && AllDigits(r.routingNumber)
  }

  predicate AtMost(s: Option<string>, n: nat) {
    s.Some? ==> |s.value| <= n
  }

  function UpperChar(c: char): char {
    if 'a' <= c <= 'z' then 'A' + (c - 'a') else c
  }

  function Upper(s: string): string {
    seq(|s|, i requires 0 <= i < |s| => UpperChar(s[i]))
  }

  /** The record that is hashed into the request fingerprint, and stored as the payment's columns. */
  function Canonical(r: Request, merchantId: MerchantId): Details {
    Details(merchantId, r.direction, r.amountCents, if r.currency.Some? then Upper(r.currency.value) else "USD",
            r.externalReference, r.description, r.receiverName, r.receiverAccountRef, r.routingNumber)
  }

  /** `${merchant.id}:${idempotencyKey}`. */
  function StoredKey(m: MerchantId, key: string): string {
    m + ":" + key
  }

  predicate KeyTaken(payments: map<PaymentId, Payment>, storedKey: string) {
    exists id :: id in payments && payments[id].idempotencyKey == storedKey
  }

  /** `createWithOutboxAndIdempotency`: payment, PAYMENT_RECEIVED event and idempotency record. */
  function Insert(db: Db, details: Details, key: string, id: PaymentId, now: int): Result<Db> {
    var storedKey := StoredKey(details.merchantId, key);
    if id in db.payments || KeyTaken(db.payments, storedKey) then Err(UniqueViolation)
    else
      var p := Payment(details, storedKey, now, Received, None, None, None);
      var db1 :- EmitEvent(db.(payments := db.payments[id := p]), id, PaymentReceived);
      var slot := (details.merchantId, key);
      if slot in db1.idempotency then Err(UniqueViolation)
      else Ok(db1.(idempotency := db1.idempotency[slot := IdempotencyRecord(id, details)]))
  }

  /** `create` up to the end of its transaction. */
  function Create(db: Db, r: Request, clientKey: string, caller: MerchantId, id: PaymentId, now: int): Result<Db> {
    var key := Trim(clientKey);
    if !WellFormed(r) || key == "" then Err(BadRequest)
    else if caller !in db.merchants || db.merchants[caller].profile.merchantCode != r.merchantCode then Err(NotFound)
    else Insert(db, Canonical(r, caller), key, id, now)
  }

  // ---------- What is stored, and which requests are the same ----------

  /** The upper-case form of a character, by its code. */
  predicate IsUpperOf(u: char, c: char) {
    if 'a' <= c <= 'z' then u as int == c as int - 32 else u == c
  }

  /** The currency a request asks for. */
  function Asked(currency: Option<string>): string {
    if currency.None? then "USD" else currency.value
  }

  /** Column by column, what is stored of a request. */
  predicate StoresFields(d: Details, r: Request, caller: MerchantId) {
    && d.merchantId == caller && d.direction == r.direction && d.amount == r.amountCents
    && d.externalReference == r.externalReference && d.description == r.description
    && d.receiverName == r.receiverName && d.receiverAccountRef == r.receiverAccountRef
    && d.routingNumber == r.routingNumber
    && |d.currency| == |Asked(r.currency)|
    && forall i | 0 <= i < |d.currency| :: IsUpperOf(d.currency[i], Asked(r.currency)[i])
  }

  /** The payment row of a request. */
  predicate Stores(p: Payment, r: Request, clientKey: string, caller: MerchantId, now: int) {
    && StoresFields(p.details, r, caller)
    && p.idempotencyKey == caller + ":" + Trim(clientKey) && p.createdAt == now
    && p.status.Received? && p.validationCode.None? && p.failureCode.None? && p.file.None?
  }

  /** The same letter, in whatever case. */
  predicate SameLetter(c: char, d: char) {
    || c == d
    || ('a' <= c <= 'z' && d as int == c as int - 32)
    || ('a' <= d <= 'z' && c as int == d as int - 32)
  }

  /** Two requests of one merchant are the same when all their fields are, the currency up to case and with its
      default. */
  predicate SameRequest(r: Request, r': Request) {
    && r.direction == r'.direction && r.amountCents == r'.amountCents
    && r.externalReference == r'.externalReference && r.description == r'.description
    && r.receiverName == r'.receiverName && r.receiverAccountRef == r'.receiverAccountRef
    && r.routingNumber == r'.routingNumber
    && |Asked(r.currency)| == |Asked(r'.currency)|
    && forall i | 0 <= i < |Asked(r.currency)| :: SameLetter(Asked(r.currency)[i], Asked(r'.currency)[i])
  }

  lemma UpperOf(s: string)
    ensures |Upper(s)| == |s| && forall i | 0 <= i < |s| :: IsUpperOf(Upper(s)[i], s[i])
  {
  }

  lemma CurrencyIsUpper(r: Request, m: MerchantId)
    ensures Canonical(r, m).currency == Upper(Asked(r.currency))
  {
    if r.currency.None? {
      assert Upper("USD") == "USD";
    }
  }

  lemma UpperComparesLetters(s: string, t: string)
    ensures Upper(s) == Upper(t) <==> |s| == |t| && forall i | 0 <= i < |s| :: SameLetter(s[i], t[i])
  {
    if Upper(s) == Upper(t) {
      forall i | 0 <= i < |s| ensures SameLetter(s[i], t[i]) {
        assert Upper(s)[i] == Upper(t)[i];
      }
    }
  }

  /** The stored fingerprint tells exactly the requests apart that differ in some field. */
  lemma FingerprintsCompareRequests(r: Request, r': Request, m: MerchantId)
    ensures Canonical(r, m) == Canonical(r', m) <==> SameRequest(r, r')
  {
    CurrencyIsUpper(r, m);
    CurrencyIsUpper(r', m);
    UpperComparesLetters(Asked(r.currency), Asked(r'.currency));
  }

  lemma CanonicalStoresFields(r: Request, caller: MerchantId)
    ensures StoresFields(Canonical(r, caller), r, caller)
  {
    CurrencyIsUpper(r, caller);
    UpperOf(Asked(r.currency));
  }

  /** What makes a request a bad one. */
  predicate Malformed(r: Request, clientKey: string) {
    || Trim(clientKey) == "" || r.amountCents < 1
    || (r.currency.Some? && |r.currency.value| != 3)
    || r.merchantCode == "" || r.receiverName == "" || r.receiverAccountRef == ""
    || |r.merchantCode| > 100 || |r.receiverName| > 140 || |r.receiverAccountRef| > 255
    || (r.externalReference.Some? && |r.externalReference.value| > 100)
    || (r.description.Some? && |r.description.value| > 255)
    || |r.routingNumber| != 9 || exists i | 0 <= i < |r.routingNumber| :: !('0' <= r.routingNumber[i] <= '9')
  }

  /** Exactly these requests are refused before anything is looked up, and the others exactly when the merchant code
      is not the caller's own. */
  lemma CreationRefuses(db: Db, r: Request, clientKey: string, caller: MerchantId, id: PaymentId, now: int)
    ensures Create(db, r, clientKey, caller, id, now) == Err(BadRequest) <==> Malformed(r, clientKey)
    ensures Create(db, r, clientKey, caller, id, now) == Err(NotFound) <==>
              && !Malformed(r, clientKey)
              && (caller in db.merchants ==> db.merchants[caller].profile.merchantCode != r.merchantCode)
  {
    assert AllDigits(r.routingNumber) <==>
           forall i | 0 <= i < |r.routingNumber| :: '0' <= r.routingNumber[i] <= '9';
  }

  /** A successful creation stores the request as it came, under the caller's own merchant code. */
  lemma CreationStores(db: Db, r: Request, clientKey: string, caller: MerchantId, id: PaymentId, now: int)
    ensures var created := Create(db, r, clientKey, caller, id, now);
            created.Ok? ==>
              && id !in db.payments && id in created.value.payments
              && Stores(created.value.payments[id], r, clientKey, caller, now)
              && created.value.payments == db.payments[id := created.value.payments[id]]
              && caller in db.merchants && db.merchants[caller].profile.merchantCode == r.merchantCode
              && r.amountCents >= 1 && Trim(clientKey) != ""
  {
    CanonicalStoresFields(r, caller);
  }
}
