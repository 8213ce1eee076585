/** Idempotency records, outbox claims and webhook deliveries: what always holds of them. */
module Records {
  import opened Text
  import opened Store
  import opened OutboxProtocol
  import opened Creation

  type Payments = map<PaymentId, Payment>
  type Merchants = map<MerchantId, Merchant>
  type IdempotencyTable = map<(MerchantId, string), IdempotencyRecord>
  type Deliveries = map<(EventKey, EndpointId), Payload>

  // ---------- Idempotency ----------

  predicate RecordOk(slot: (MerchantId, string), r: IdempotencyRecord, ps: Payments) {
    && r.paymentId in ps
    && ps[r.paymentId].idempotencyKey == StoredKey(slot.0, slot.1)
    && ps[r.paymentId].details.merchantId == slot.0
    && ps[r.paymentId].details == r.fingerprint
  }

  ghost predicate HasRecord(id: PaymentId, ps: Payments, table: IdempotencyTable)
    requires id in ps
  {
    exists slot :: slot in table && table[slot].paymentId == id && slot.0 == ps[id].details.merchantId
                   && ps[id].idempotencyKey == StoredKey(slot.0, slot.1)
  }

  /** A routing number as the validation pipe lets it through. */
  predicate NineDigits(s: string) {
    |s| == 9 && AllDigits(s)
  }

  ghost predicate Recorded(table: IdempotencyTable, ps: Payments, merchants: Merchants) {
    && (forall m | m in merchants :: ColonFree(m))
    && (forall id | id in ps :: ps[id].details.merchantId in merchants && NineDigits(ps[id].details.routingNumber))
    && (forall slot | slot in table :: RecordOk(slot, table[slot], ps))
    && (forall id | id in ps :: HasRecord(id, ps, table))
  }

  /** Rewriting payments without touching what was created keeps the records. */
  ghost predicate SameCreations(ps: Payments, qs: Payments) {
    && ps.Keys == qs.Keys
    && forall id | id in ps :: qs[id].details == ps[id].details && qs[id].idempotencyKey == ps[id].idempotencyKey
  }

  lemma RecordsAreStable(table: IdempotencyTable, ps: Payments, qs: Payments, merchants: Merchants, later: Merchants)
    requires Recorded(table, ps, merchants) && SameCreations(ps, qs)
    requires (forall m | m in later :: ColonFree(m)) && merchants.Keys <= later.Keys
    ensures Recorded(table, qs, later)
  {
    forall id | id in qs ensures HasRecord(id, qs, table) {
      assert HasRecord(id, ps, table);
    }
    forall slot | slot in table ensures RecordOk(slot, table[slot], qs) {
      assert RecordOk(slot, table[slot], ps);
    }
  }

  lemma InsertKeepsRecords(table: IdempotencyTable, ps: Payments, merchants: Merchants, d: Details, key: string,
                           id: PaymentId, p: Payment)
    requires Recorded(table, ps, merchants) && id !in ps && (d.merchantId, key) !in table
    requires p.details == d && p.idempotencyKey == StoredKey(d.merchantId, key)
    requires d.merchantId in merchants && NineDigits(d.routingNumber)
    ensures Recorded(table[(d.merchantId, key) := IdempotencyRecord(id, d)], ps[id := p], merchants)
  {
    var slot := (d.merchantId, key);
    var next := table[slot := IdempotencyRecord(id, d)];
    var qs := ps[id := p];
    forall x | x in qs ensures HasRecord(x, qs, next) {
      if x == id {
        assert slot in next;
      } else {
        assert HasRecord(x, ps, table);
        var own :| own in table && table[own].paymentId == x && own.0 == ps[x].details.merchantId
                   && ps[x].idempotencyKey == StoredKey(own.0, own.1);
        assert own in next;
      }
    }
    forall s | s in next ensures RecordOk(s, next[s], qs) {
      if s != slot {
        assert RecordOk(s, table[s], ps);
      }
    }
  }

  /** `merchantId:key` determines both parts when merchant ids contain no colon. */
  lemma StoredKeyIsInjective(m: MerchantId, key: string, m': MerchantId, key': string)
    requires ColonFree(m) && ColonFree(m')
    requires StoredKey(m, key) == StoredKey(m', key')
    ensures m == m' && key == key'
  {
    SplitAtColon(m, key, m', key');
  }

  // ---------- Outbox rows ----------

  ghost predicate Claimed(outbox: map<EventKey, OutboxRow>, maxAttempts: nat) {
    forall key | key in outbox :: Bounded(outbox[key].claim, maxAttempts)
  }

  predicate IsReceived(key: EventKey) {
    key.Lifecycle? && key.eventType.PaymentReceived?
  }

  /** Materialisation is recorded before an event other than PAYMENT_RECEIVED can be PROCESSED. */
  ghost predicate RowCovered(key: EventKey, row: OutboxRow, deliveries: Deliveries) {
    && (row.covered.Some? ==> forall e | e in row.covered.value :: (key, e) in deliveries)
    && (key.WebhookTest? ==> (key, key.endpoint) in deliveries)
    && (key.Lifecycle? ==>
          forall t | t in row.claim.handlers :: row.claim.handlers[t].PastMaterialisation? ==> row.covered.Some?)
    && (key.Lifecycle? && !IsReceived(key) && row.claim.status.Processed? ==> row.covered.Some?)
  }

  ghost predicate Covered(outbox: map<EventKey, OutboxRow>, deliveries: Deliveries) {
    forall key | key in outbox :: RowCovered(key, outbox[key], deliveries)
  }

  /** Claim steps keep coverage: only a handler past materialisation marks a row processed. */
  lemma StepIsCovered(key: EventKey, row: OutboxRow, step: RowStep, maxAttempts: nat, deliveries: Deliveries)
    requires RowCovered(key, row, deliveries)
    requires step.Advance? && step.phase.PastMaterialisation? && key.Lifecycle? ==> row.covered.Some?
    requires step.Complete? ==> IsReceived(key)
    ensures RowCovered(key, row.(claim := OutboxProtocol.Apply(row.claim, step, maxAttempts)), deliveries)
  {
  }
}
