/** The ledger listing's single pass over interleaved accounts, and its summary. */
module LedgerListing {
  import opened Store
  import opened MapSums
  import opened Funding
  import opened Database
  import Balances
  import Theorems
  import Sys = System

  /** The columns of a row that the pass computes. */
  datatype Row = Row(account: AccountId, debit: int, credit: int, impact: int, runningBalance: int)

  type Entries = seq<Entry>

  /** The balance of one account after the listed entries. */
  function BalanceOn(entries: Entries, a: AccountId): int {
    if entries == [] then 0
    else
      BalanceOn(entries[..|entries| - 1], a)
      + (if entries[|entries| - 1].account == a then Impact(entries[|entries| - 1]) else 0)
  }

  function RowAt(entries: Entries, i: nat): Row
    requires i < |entries|
  {
    var e := entries[i];
    Row(e.account, if e.entryType.DebitPosted? then e.amount else 0,
        if IsCredit(e.entryType) then e.amount else 0, Impact(e), BalanceOn(entries[..i + 1], e.account))
  }

  predicate IsCredit(t: EntryType) {
    t.InitialCredit? || t.CreditPosted? || t.ReturnEntry? || t.Reversal? || t.Adjustment?
  }

  /** `entryImpact`. */
  method EntryImpact(e: Entry) returns (impact: int)
    ensures impact == Impact(e)
  {
    if IsCredit(e.entryType) {
      return e.amount;
    }
    if e.entryType.DebitPosted? {
      return -e.amount;
    }
    impact := 0;
  }

  /** The running-balance pass. */
  method RunningBalances(entries: Entries) returns (rows: seq<Row>, balances: map<AccountId, int>)
    ensures |rows| == |entries| && forall i | 0 <= i < |entries| :: rows[i] == RowAt(entries, i)
    ensures forall a :: BalanceOn(entries, a) == if a in balances then balances[a] else 0
  {
    rows, balances := [], map[];
    for i := 0 to |entries|
      invariant |rows| == i && forall j | 0 <= j < i :: rows[j] == RowAt(entries, j)
      invariant forall a :: BalanceOn(entries[..i], a) == if a in balances then balances[a] else 0
    {
      var e := entries[i];
      assert entries[..i + 1][..i] == entries[..i];
      var impact := EntryImpact(e);
      var runningBalance := (if e.account in balances then balances[e.account] else 0) + impact;
      balances := balances[e.account := runningBalance];
      rows := rows + [Row(e.account, if e.entryType.DebitPosted? then e.amount else 0,
                          if IsCredit(e.entryType) then e.amount else 0, impact, runningBalance)];
    }
    assert entries[..|entries|] == entries;
  }

  // ---------- The pass ends on the posted balances ----------

  type Ledger = map<EntryKey, Entry>

  predicate InScope(a: AccountId, scope: Option<MerchantId>) {
    scope.None? || a.merchantId == scope.value
  }

  /** The entries of an unfiltered listing: all of them, or those of one merchant's accounts. */
  function ScopeKeys(l: Ledger, scope: Option<MerchantId>): set<EntryKey> {
    set k | k in l && InScope(l[k].account, scope)
  }

  function Listed(l: Ledger, keys: seq<EntryKey>): Entries
    requires forall i | 0 <= i < |keys| :: keys[i] in l
  {
    seq(|keys|, i requires 0 <= i < |keys| => l[keys[i]])
  }

  lemma ListedBefore(l: Ledger, keys: seq<EntryKey>)
    requires keys != [] && forall i | 0 <= i < |keys| :: keys[i] in l
    ensures Listed(l, keys)[..|keys| - 1] == Listed(l, keys[..|keys| - 1])
  {
  }

  lemma {:induction false} ListedBalance(l: Ledger, keys: seq<EntryKey>, a: AccountId)
    requires forall i | 0 <= i < |keys| :: keys[i] in l
    requires forall i, j | 0 <= i < j < |keys| :: keys[i] != keys[j]
    ensures BalanceOn(Listed(l, keys), a) == Sum(Restrict(l, SetOf(keys)), ImpactOn(a))
    decreases |keys|
  {
    if keys == [] {
      assert Restrict(l, SetOf(keys)) == map[];
    } else {
      var before, last := keys[..|keys| - 1], keys[|keys| - 1];
      ListedBalance(l, before, a);
      ListedBefore(l, keys);
      RestrictOneMore(l, keys);
      SumPut(Restrict(l, SetOf(before)), ImpactOn(a), last, l[last]);
    }
  }

  /** In whatever order the entries come, the last running balance of an account is its posted balance. */
  lemma ListingEndsOnPosted(db: Db, keys: seq<EntryKey>, scope: Option<MerchantId>, a: AccountId)
    requires Lists(keys, ScopeKeys(db.ledger, scope)) && InScope(a, scope)
    ensures forall i | 0 <= i < |keys| :: keys[i] in db.ledger
    ensures BalanceOn(Listed(db.ledger, keys), a) == Posted(db, a)
  {
    forall i | 0 <= i < |keys| ensures keys[i] in db.ledger {
      assert keys[i] in ScopeKeys(db.ledger, scope);
    }
    ListedBalance(db.ledger, keys, a);
    assert SetOf(keys) == ScopeKeys(db.ledger, scope);
    SumWithout(db.ledger, ImpactOn(a), SetOf(keys));
  }

  /** A listing of some of the entries, as a filter leaves them: an account ends on its posted balance exactly when
      the impacts of the entries left out cancel on it. */
  lemma FilteredListing(l: Ledger, keys: seq<EntryKey>, a: AccountId)
    requires forall i | 0 <= i < |keys| :: keys[i] in l
    requires forall i, j | 0 <= i < j < |keys| :: keys[i] != keys[j]
    ensures BalanceOn(Listed(l, keys), a) == Sum(l, ImpactOn(a)) - Sum(l - SetOf(keys), ImpactOn(a))
    ensures BalanceOn(Listed(l, keys), a) == Sum(l, ImpactOn(a)) <==> Sum(l - SetOf(keys), ImpactOn(a)) == 0
  {
    ListedBalance(l, keys, a);
    SumSplit(l, ImpactOn(a), SetOf(keys));
  }

  // ---------- The summary ----------

  function Credits(rows: seq<Row>): int {
    if rows == [] then 0 else Credits(rows[..|rows| - 1]) + rows[|rows| - 1].credit
  }

  function Debits(rows: seq<Row>): int {
    if rows == [] then 0 else Debits(rows[..|rows| - 1]) + rows[|rows| - 1].debit
  }

  function RowsOf(entries: Entries): seq<Row> {
    seq(|entries|, i requires 0 <= i < |entries| => RowAt(entries, i))
  }

  /** The balances of some accounts, summed. */
  ghost function SumBalances(entries: Entries, accounts: set<AccountId>): int {
    Sum(map a | a in accounts :: BalanceOn(entries, a), (x: int) => x)
  }

  lemma {:induction false} NetIsSumOfBalances(entries: Entries, accounts: set<AccountId>)
    requires forall i | 0 <= i < |entries| :: entries[i].account in accounts
    ensures Credits(RowsOf(entries)) - Debits(RowsOf(entries)) == SumBalances(entries, accounts)
    decreases |entries|
  {
    if entries == [] {
      NoBalances(accounts);
    } else {
      var before, e := entries[..|entries| - 1], entries[|entries| - 1];
      NetIsSumOfBalances(before, accounts);
      RowsOfPrefix(entries);
      OneMoreEntry(entries, accounts);
    }
  }

  lemma {:induction false} NoBalances(accounts: set<AccountId>)
    ensures SumBalances([], accounts) == 0
  {
    var zeros := map a | a in accounts :: BalanceOn([], a);
    SumWithout(zeros, (x: int) => x, {});
    assert Restrict(zeros, {}) == map[];
  }

  lemma RowsOfPrefix(entries: Entries)
    requires entries != []
    ensures RowsOf(entries)[..|entries| - 1] == RowsOf(entries[..|entries| - 1])
  {
    var before := entries[..|entries| - 1];
    forall i | 0 <= i < |before| ensures RowsOf(entries)[i] == RowsOf(before)[i] {
      assert entries[..i + 1] == before[..i + 1];
    }
  }

  lemma OneMoreEntry(entries: Entries, accounts: set<AccountId>)
    requires entries != [] && entries[|entries| - 1].account in accounts
    ensures SumBalances(entries, accounts)
         == SumBalances(entries[..|entries| - 1], accounts) + Impact(entries[|entries| - 1])
  {
    var before, e := entries[..|entries| - 1], entries[|entries| - 1];
    var was := map a | a in accounts :: BalanceOn(before, a);
    assert (map a | a in accounts :: BalanceOn(entries, a)) == was[e.account := BalanceOn(entries, e.account)];
    SumPut(was, (x: int) => x, e.account, BalanceOn(entries, e.account));
  }

  ghost predicate Covers(accounts: set<AccountId>, entries: Entries, scope: Option<MerchantId>) {
    && (forall i | 0 <= i < |entries| :: entries[i].account in accounts)
    && (forall a | a in accounts :: InScope(a, scope))
  }

  ghost function PostedOf(db: Db, accounts: set<AccountId>): map<AccountId, int> {
    map a | a in accounts :: Posted(db, a)
  }

  /** `netPositionCents` of an unfiltered listing is the sum of the posted balances of its accounts. */
  lemma NetPositionIsPosted(db: Db, keys: seq<EntryKey>, scope: Option<MerchantId>, accounts: set<AccountId>)
    requires Lists(keys, ScopeKeys(db.ledger, scope)) && forall i | 0 <= i < |keys| :: keys[i] in db.ledger
    requires Covers(accounts, Listed(db.ledger, keys), scope)
    ensures var rows := RowsOf(Listed(db.ledger, keys));
            Credits(rows) - Debits(rows) == Sum(PostedOf(db, accounts), (x: int) => x)
  {
    var entries := Listed(db.ledger, keys);
    NetIsSumOfBalances(entries, accounts);
    forall a | a in accounts ensures BalanceOn(entries, a) == Posted(db, a) {
      ListingEndsOnPosted(db, keys, scope, a);
    }
    assert (map a | a in accounts :: BalanceOn(entries, a)) == PostedOf(db, accounts);
  }

  /** What a payment status sum says an account holds. */
  ghost function ClosedForm(db: Db, a: AccountId): int {
    Balances.InitialCredits(db.ledger, a) - Balances.SettledDebits(db.payments, a) + Balances.ReturnedCredits(db.payments, a)
  }

  /** On every reachable state that is what the payments' statuses say. */
  lemma NetPositionFollowsStatuses(db: Db, keys: seq<EntryKey>, scope: Option<MerchantId>, accounts: set<AccountId>,
                                   maxAttempts: nat)
    requires Sys.Reachable(db, maxAttempts) && maxAttempts >= 1
    requires Lists(keys, ScopeKeys(db.ledger, scope)) && forall i | 0 <= i < |keys| :: keys[i] in db.ledger
    requires Covers(accounts, Listed(db.ledger, keys), scope)
    ensures var rows := RowsOf(Listed(db.ledger, keys));
            Credits(rows) - Debits(rows) == Sum(map a | a in accounts :: ClosedForm(db, a), (x: int) => x)
  {
    NetPositionIsPosted(db, keys, scope, accounts);
    forall a | a in accounts ensures Posted(db, a) == ClosedForm(db, a) {
      Theorems.FundingIsNeverOversubscribed(db, a, maxAttempts);
    }
    assert (map a | a in accounts :: ClosedForm(db, a)) == PostedOf(db, accounts);
  }

  // ---------- Sorting ----------

  lemma {:induction false} RemovingARow(rows: seq<Row>, k: nat)
    requires k < |rows|
    ensures var rest := rows[..k] + rows[k + 1..];
            Credits(rows) == Credits(rest) + rows[k].credit && Debits(rows) == Debits(rest) + rows[k].debit
    decreases |rows|
  {
    var rest, before, last := rows[..k] + rows[k + 1..], rows[..|rows| - 1], rows[|rows| - 1];
    if k == |rows| - 1 {
      assert rest == before;
    } else {
      RemovingARow(before, k);
      assert rest == (before[..k] + before[k + 1..]) + [last];
      assert rest[..|rest| - 1] == before[..k] + before[k + 1..];
    }
  }

  lemma SameLength<T>(a: seq<T>, b: seq<T>)
    requires multiset(a) == multiset(b)
    ensures |a| == |b|
  {
    assert |multiset(a)| == |a| && |multiset(b)| == |b|;
  }

  lemma ListedInBoth<T>(a: seq<T>, b: seq<T>, x: T)
    requires multiset(a) == multiset(b) && x in a
    ensures x in b
  {
    assert multiset(a)[x] > 0;
    assert multiset(b)[x] > 0;
  }

  lemma CutOut<T>(b: seq<T>, k: nat)
    requires k < |b|
    ensures multiset(b) == multiset(b[..k] + b[k + 1..]) + multiset{b[k]}
  {
    assert b == b[..k] + [b[k]] + b[k + 1..];
  }

  lemma CancelOne<T>(m: multiset<T>, n: multiset<T>, x: T)
    requires m + multiset{x} == n + multiset{x}
    ensures m == n
  {
    assert m == (m + multiset{x}) - multiset{x} && n == (n + multiset{x}) - multiset{x};
  }

  lemma WithoutOne<T>(a: seq<T>, b: seq<T>, k: nat)
    requires multiset(a) == multiset(b) && a != [] && k < |b| && b[k] == a[|a| - 1]
    ensures multiset(a[..|a| - 1]) == multiset(b[..k] + b[k + 1..])
  {
    assert a == a[..|a| - 1] + [b[k]];
    CutOut(b, k);
    CancelOne(multiset(a[..|a| - 1]), multiset(b[..k] + b[k + 1..]), b[k]);
  }

  /** The summary is taken after the rows are sorted, by whatever column: that does not change it. */
  lemma {:induction false} SortingKeepsTheSummary(rows: seq<Row>, sorted: seq<Row>)
    requires multiset(rows) == multiset(sorted)
    ensures Credits(rows) == Credits(sorted) && Debits(rows) == Debits(sorted)
    decreases |rows|
  {
    SameLength(rows, sorted);
    if rows == [] {
      assert sorted == [];
    } else {
      var last := rows[|rows| - 1];
      ListedInBoth(rows, sorted, last);
      var k :| 0 <= k < |sorted| && sorted[k] == last;
      WithoutOne(rows, sorted, k);
      SortingKeepsTheSummary(rows[..|rows| - 1], sorted[..k] + sorted[k + 1..]);
      RemovingARow(sorted, k);
    }
  }
}
