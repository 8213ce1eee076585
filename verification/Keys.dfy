/** The texts of the deterministic keys, and that different keys never print alike. */
module Keys {
  import opened Text
  import opened Store

  function EntryPrefix(key: EntryKey): (prefix: string)
    ensures ColonFree(prefix)
  {
    match key
    case ReservationKey(_) => "reservation"
    case ReleaseKey(_) => "reservation-release"
    case SettlementKey(_) => "settlement"
    case ReturnKey(_) => "return"
    case DebitPostedKey(_) => "debit-posted"
    case DebitReturnKey(_) => "debit-return"
    case DemoFundingKey(_) => "demo-funding"
  }

  function EntrySubject(key: EntryKey): string {
    match key
    case DemoFundingKey(a) => a.merchantId + ":" + a.currency
    case _ => key.id
  }

  /** `LedgerEntry.entryKey`. */
  function EntryKeyText(key: EntryKey): string {
    EntryPrefix(key) + ":" + EntrySubject(key)
  }

  lemma PrefixesDiffer(k: EntryKey, l: EntryKey)
    requires EntryPrefix(k) == EntryPrefix(l)
    ensures k.DemoFundingKey? == l.DemoFundingKey? && (EntrySubject(k) == EntrySubject(l) && !k.DemoFundingKey? ==> k == l)
  {
  }

  /** The unique constraint on the text is a unique constraint on the key. */
  lemma EntryKeysAreDistinct(k: EntryKey, l: EntryKey)
    requires k.DemoFundingKey? ==> ColonFree(k.account.merchantId)
    requires l.DemoFundingKey? ==> ColonFree(l.account.merchantId)
    ensures EntryKeyText(k) == EntryKeyText(l) <==> k == l
  {
    if EntryKeyText(k) == EntryKeyText(l) {
      SplitAtColon(EntryPrefix(k), EntrySubject(k), EntryPrefix(l), EntrySubject(l));
      PrefixesDiffer(k, l);
      if k.DemoFundingKey? {
        SplitAtColon(k.account.merchantId, k.account.currency, l.account.merchantId, l.account.currency);
      }
    }
  }

  function TypeName(t: EventType): (name: string)
    ensures ColonFree(name)
  {
    match t
    case PaymentReceived => "PAYMENT_RECEIVED"
    case PaymentValidated => "PAYMENT_VALIDATED"
    case PaymentValidationFailed => "PAYMENT_VALIDATION_FAILED"
    case PaymentReserved => "PAYMENT_RESERVED"
    case PaymentSubmitted => "PAYMENT_SUBMITTED"
    case PaymentSettled => "PAYMENT_SETTLED"
    case PaymentReturned => "PAYMENT_RETURNED"
  }

  /** `OutboxEvent.eventKey`. */
  function EventKeyText(key: EventKey): string {
    match key
    case Lifecycle(id, t) => "payment" + ":" + (id + ":" + TypeName(t))
    case WebhookTest(e, sentAt) => "webhook-test" + ":" + (e + ":" + PrintInt(sentAt))
  }

  predicate IdIsColonFree(key: EventKey) {
    match key
    case Lifecycle(id, _) => ColonFree(id)
    case WebhookTest(e, _) => ColonFree(e)
  }

  lemma TypeNamesDiffer(t: EventType, u: EventType)
    requires TypeName(t) == TypeName(u)
    ensures t == u
  {
    assert |TypeName(t)| == |TypeName(u)|;
    assert TypeName(t)[8] == TypeName(u)[8];
    assert TypeName(t)[|TypeName(t)| - 2] == TypeName(u)[|TypeName(u)| - 2];
    assert TypeName(t)[10] == TypeName(u)[10];
  }

  lemma EventKeysAreDistinct(k: EventKey, l: EventKey)
    requires IdIsColonFree(k) && IdIsColonFree(l)
    ensures EventKeyText(k) == EventKeyText(l) <==> k == l
  {
    if k.Lifecycle? != l.Lifecycle? {
      assert EventKeyText(k)[0] != EventKeyText(l)[0];
    } else if EventKeyText(k) == EventKeyText(l) {
      if k.Lifecycle? {
        SplitAtColon("payment", k.id + ":" + TypeName(k.eventType), "payment", l.id + ":" + TypeName(l.eventType));
        SplitAtColon(k.id, TypeName(k.eventType), l.id, TypeName(l.eventType));
        TypeNamesDiffer(k.eventType, l.eventType);
      } else {
        SplitAtColon("webhook-test", k.endpoint + ":" + PrintInt(k.sentAt),
                     "webhook-test", l.endpoint + ":" + PrintInt(l.sentAt));
        SplitAtColon(k.endpoint, PrintInt(k.sentAt), l.endpoint, PrintInt(l.sentAt));
        PrintIntIsInjective(k.sentAt, l.sentAt);
      }
    }
  }
}
