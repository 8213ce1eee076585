/** Balances of a funding account, as the SQL aggregates compute them. */
module Funding {
  import opened Store
  import opened MapSums

  ghost function ImpactOn(a: AccountId): Entry -> int {
    (e: Entry) => if e.account == a then Impact(e) else 0
  }

  ghost function ActiveOn(a: AccountId): Hold -> int {
    (h: Hold) => if h.account == a && h.status.HoldActive? then h.amount else 0
  }

  ghost function Posted(db: Db, a: AccountId): int {
    Sum(db.ledger, ImpactOn(a))
  }

  ghost function Reserved(db: Db, a: AccountId): int {
    Sum(db.holds, ActiveOn(a))
  }

  ghost function Available(db: Db, a: AccountId): int {
    Posted(db, a) - Reserved(db, a)
  }

  predicate AccountUsable(db: Db, a: AccountId) {
    a in db.accounts && db.accounts[a].AccountActive?
  }

  function AddUsage(db: Db, id: PaymentId): Db
    requires id in db.payments
  {
    var p := db.payments[id];
    var slot := (p.details.merchantId, BusinessDate(p));
    db.(usage := db.usage[slot := Utilized(db.usage, slot.0, slot.1) + p.details.amount],
        charges := db.charges + [id])
  }
}
