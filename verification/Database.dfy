/** The database that the services share: one updatable table per entity, with transactions that
    roll back. `State` is the value the other modules reason about. */
module Database {
  import opened Store
  import opened OutboxProtocol
  import opened MapSums
  import opened Funding

  /** What a caller of a transaction sees: the error, or that it committed. */
  function Outcome<T>(r: Result<T>): Result<()> {
    match r
    case Ok(_) => Ok(())
    case Err(e) => Err(e)
  }

  /** A step that ends in state `now` with result `r` did what the specification says; after an
      error the state is whatever was written before it. */
  ghost predicate Does(spec: Result<Db>, r: Result<()>, now: Db) {
    r == Outcome(spec) && (spec.Ok? ==> now == spec.value)
  }

  ghost predicate Lists<T(!new)>(keys: seq<T>, s: set<T>) {
    && (forall x :: x in keys <==> x in s)
    && (forall i, j | 0 <= i < j < |keys| :: keys[i] != keys[j])
  }

  /** The rows of a query without ORDER BY: each once, in some order. */
  method Listing<T(==,!new)>(s: set<T>) returns (keys: seq<T>)
    ensures Lists(keys, s)
  {
    keys := [];
    var rest := s;
    while rest != {}
      invariant rest <= s && Lists(keys, s - rest)
    {
      var x :| x in rest;
      keys, rest := keys + [x], rest - {x};
    }
    assert s - rest == s;
  }

  function SetOf<T>(s: seq<T>): set<T> {
    set x | x in s
  }

  lemma NextListed<T>(s: seq<T>, i: nat)
    requires i < |s|
    ensures SetOf(s[..i + 1]) == SetOf(s[..i]) + {s[i]}
    ensures (forall j | 0 <= j < i :: s[j] != s[i]) ==> s[i] !in SetOf(s[..i])
  {
    assert s[..i + 1] == s[..i] + [s[i]];
  }

  lemma RestrictOneMore<K, V>(m: map<K, V>, keys: seq<K>)
    requires keys != [] && keys[|keys| - 1] in m
    requires forall i | 0 <= i < |keys| - 1 :: keys[i] != keys[|keys| - 1]
    ensures var before, last := keys[..|keys| - 1], keys[|keys| - 1];
            && Restrict(m, SetOf(keys)) == Restrict(m, SetOf(before))[last := m[last]]
            && last !in Restrict(m, SetOf(before))
  {
    NextListed(keys, |keys| - 1);
    assert keys[..|keys|] == keys;
  }

  lemma TakeNext<T>(s: seq<T>, i: nat)
    requires i < |s|
    ensures s[..i + 1] == s[..i] + [s[i]]
  {
  }

  lemma UpdateRight<K, V>(m: map<K, V>, n: map<K, V>, k: K, v: V)
    ensures (m + n)[k := v] == m + n[k := v]
  {
  }

  class Tables {
    var merchants: map<MerchantId, Merchant>
    var accounts: map<AccountId, AccountStatus>
    var payments: map<PaymentId, Payment>
    var holds: map<PaymentId, Hold>
    var ledger: map<EntryKey, Entry>
    var usage: map<(MerchantId, int), int>
    var outbox: map<EventKey, OutboxRow>
    var idempotency: map<(MerchantId, string), IdempotencyRecord>
    var files: seq<AchFile>
    var endpoints: map<EndpointId, Endpoint>
    var deliveries: map<(EventKey, EndpointId), Payload>
    var charges: seq<PaymentId>

    constructor ()
      ensures State() == EMPTY
    {
      merchants, accounts, payments, holds, ledger := map[], map[], map[], map[], map[];
      usage, outbox, idempotency, files := map[], map[], map[], [];
      endpoints, deliveries, charges := map[], map[], [];
    }

    function State(): Db
      reads this
    {
      Db(merchants, accounts, payments, holds, ledger, usage, outbox, idempotency, files, endpoints, deliveries,
         charges)
    }

    /** Puts the tables back to how they were when a transaction began. */
    method Rollback(saved: Db)
      modifies this
      ensures State() == saved
    {
      RestoreBooks(saved);
      RestoreRest(saved);
      assert saved.Db?;
    }

    method RestoreBooks(saved: Db)
      modifies `merchants, `accounts, `payments, `holds, `ledger, `usage
      ensures merchants == saved.merchants && accounts == saved.accounts && payments == saved.payments
      ensures holds == saved.holds && ledger == saved.ledger && usage == saved.usage
    {
      merchants, accounts, payments := saved.merchants, saved.accounts, saved.payments;
      holds, ledger, usage := saved.holds, saved.ledger, saved.usage;
    }

    method RestoreRest(saved: Db)
      modifies `outbox, `idempotency, `files, `endpoints, `deliveries, `charges
      ensures outbox == saved.outbox && idempotency == saved.idempotency && files == saved.files
      ensures endpoints == saved.endpoints && deliveries == saved.deliveries && charges == saved.charges
    {
      outbox, idempotency, files := saved.outbox, saved.idempotency, saved.files;
      endpoints, deliveries, charges := saved.endpoints, saved.deliveries, saved.charges;
    }

    method UpdatePayment(id: PaymentId, p: Payment)
      requires id in payments
      modifies this
      ensures State() == old(State()).(payments := old(payments)[id := p])
    {
      payments := payments[id := p];
    }

    method UpdateHold(id: PaymentId, h: Hold)
      modifies this
      ensures State() == SetHold(old(State()), id, h)
    {
      holds := holds[id := h];
    }

    /** `ledgerEntry.create`: fails on a key that exists. */
    method CreateEntry(key: EntryKey, e: Entry) returns (r: Result<()>)
      modifies this
      ensures Does(PostEntry(old(State()), key, e), r, State())
    {
      if key in ledger {
        return Err(UniqueViolation);
      }
      ledger := ledger[key := e];
      r := Ok(());
    }

    /** `outboxEvent.create` with the lifecycle event of the payment as it now stands. */
    method CreateEvent(id: PaymentId, t: EventType, returnCode: Option<string> := None) returns (r: Result<()>)
      requires id in payments
      modifies this
      ensures Does(EmitEvent(old(State()), id, t, returnCode), r, State())
    {
      var key := Lifecycle(id, t);
      if key in outbox {
        return Err(UniqueViolation);
      }
      outbox := outbox[key := NewEvent(payments[id], returnCode)];
      r := Ok(());
    }

    /** Updates the claim columns of an event. */
    method UpdateClaim(key: EventKey, claim: Claim)
      requires key in outbox
      modifies this
      ensures State() == old(State()).(outbox := old(outbox)[key := old(outbox)[key].(claim := claim)])
    {
      outbox := outbox[key := outbox[key].(claim := claim)];
    }

    /** `reservation.create`: one per payment. */
    method CreateHold(id: PaymentId, h: Hold) returns (r: Result<()>)
      modifies this
      ensures Does(if id in old(holds) then Err(UniqueViolation) else Ok(SetHold(old(State()), id, h)), r, State())
    {
      if id in holds {
        return Err(UniqueViolation);
      }
      holds := holds[id := h];
      r := Ok(());
    }

    /** Creates or updates the merchant's usage row of the payment's business day. */
    method WriteUsage(id: PaymentId)
      requires id in payments
      modifies this
      ensures State() == AddUsage(old(State()), id)
      ensures forall day |
                day * (24 * 60 * 60 * 1_000) <= payments[id].createdAt < (day + 1) * (24 * 60 * 60 * 1_000) ::
                var slot := (payments[id].details.merchantId, day);
                usage == old(usage)[slot := (if slot in old(usage) then old(usage)[slot] else 0)
                                            + payments[id].details.amount]
    {
      var p := payments[id];
      var slot := (p.details.merchantId, BusinessDate(p));
      if slot in usage {
        usage := usage[slot := usage[slot] + p.details.amount];
      } else {
        usage := usage[slot := p.details.amount];
      }
      charges := charges + [id];
    }

    /** The SQL sum over the account's ledger entries. */
    method PostedBalance(a: AccountId) returns (total: int)
      ensures total == Posted(State(), a)
    {
      total := 0;
      var rest := ledger;
      while rest != map[]
        invariant total + Sum(rest, ImpactOn(a)) == Posted(State(), a)
        decreases rest.Keys
      {
        var key :| key in rest;
        var e := rest[key];
        SumTake(rest, ImpactOn(a), key);
        if e.account == a {
          match e.entryType
          case InitialCredit | CreditPosted | ReturnEntry | Reversal | Adjustment => total := total + e.amount;
          case DebitPosted => total := total - e.amount;
          case _ =>
        }
        assert (rest - {key}).Keys == rest.Keys - {key};
        rest := rest - {key};
      }
    }

    /** The SQL sum over the account's ACTIVE reservations. */
    method ActiveReservations(a: AccountId) returns (total: int)
      ensures total == Reserved(State(), a)
    {
      total := 0;
      var rest := holds;
      while rest != map[]
        invariant total + Sum(rest, ActiveOn(a)) == Reserved(State(), a)
        decreases rest.Keys
      {
        var id :| id in rest;
        var h := rest[id];
        SumTake(rest, ActiveOn(a), id);
        if h.account == a && h.status.HoldActive? {
          total := total + h.amount;
        }
        assert (rest - {id}).Keys == rest.Keys - {id};
        rest := rest - {id};
      }
    }
  }
}
