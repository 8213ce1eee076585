/** Stored files, and why rendering one again at any later time gives the same text. */
module Rendering {
  import opened Text
  import opened Store
  import opened Nacha
  import opened Exports

  /** The file that the payments now assigned to it would produce. */
  ghost function Regenerate(f: nat, ps: Payments, merchants: Merchants, m: MerchantId, day: Day): Option<AchFile> {
    var ids := Exported(ps, f);
    if ids != {} && CanRender(ps, merchants, ids) && (forall id | id in ids :: ps[id].details.merchantId == m)
    then Some(FileOf(ps, merchants, ids, m, day))
    else None
  }

  ghost predicate FileOk(f: nat, file: AchFile, ps: Payments, merchants: Merchants) {
    Regenerate(f, ps, merchants, file.companyId, file.day) == Some(file)
  }

  ghost predicate EachFileOk(files: seq<AchFile>, ps: Payments, merchants: Merchants) {
    forall f | 0 <= f < |files| :: FileOk(f, files[f], ps, merchants)
  }

  ghost predicate AssignedBelow(ps: Payments, n: nat) {
    forall id | id in ps :: ps[id].file.Some? ==> ps[id].file.value < n
  }

  ghost predicate FilesOk(files: seq<AchFile>, ps: Payments, merchants: Merchants) {
    AssignedBelow(ps, |files|) && EachFileOk(files, ps, merchants)
  }

  ghost predicate SameProfiles(merchants: Merchants, later: Merchants) {
    forall m | m in merchants :: m in later && later[m].profile == merchants[m].profile
  }

  /** Same rows, same details, same file assignment; statuses and codes may differ. */
  ghost predicate SameExports(ps: Payments, qs: Payments) {
    && ps.Keys == qs.Keys
    && forall id | id in ps :: ps[id].details == qs[id].details && ps[id].file == qs[id].file
  }

  lemma ItemsAreStable(ps: Payments, qs: Payments, merchants: Merchants, later: Merchants, ids: set<PaymentId>)
    requires CanRender(ps, merchants, ids) && SameProfiles(merchants, later)
    requires forall id | id in ids :: id in qs && qs[id].details == ps[id].details
    ensures CanRender(qs, later, ids)
    ensures ItemsOf(qs, later, ids) == ItemsOf(ps, merchants, ids)
  {
    forall id | id in ids ensures HasItem(qs, later, id) && RoutingIsNumeric(qs[id].details) {
      assert HasItem(ps, merchants, id);
    }
    var order := Sorted(ids);
    forall i | 0 <= i < |order|
      ensures HasItem(ps, merchants, order[i]) && HasItem(qs, later, order[i])
      ensures ItemAt(ps, merchants, order[i]) == ItemAt(qs, later, order[i])
    {
      assert order[i] in ids;
    }
    assert Items(qs, later, order) == Items(ps, merchants, order);
  }

  ghost predicate DetailsPersist(ps: Payments, qs: Payments) {
    forall id | id in ps :: id in qs && qs[id].details == ps[id].details
  }

  lemma FileIsStable(f: nat, file: AchFile, ps: Payments, qs: Payments, merchants: Merchants, later: Merchants)
    requires FileOk(f, file, ps, merchants) && SameProfiles(merchants, later)
    requires Exported(ps, f) == Exported(qs, f) && DetailsPersist(ps, qs)
    ensures FileOk(f, file, qs, later)
  {
    ItemsAreStable(ps, qs, merchants, later, Exported(ps, f));
  }

  lemma FilesAreStable(files: seq<AchFile>, ps: Payments, qs: Payments, merchants: Merchants, later: Merchants)
    requires EachFileOk(files, ps, merchants) && SameProfiles(merchants, later) && DetailsPersist(ps, qs)
    requires forall f | 0 <= f < |files| :: Exported(ps, f) == Exported(qs, f)
    ensures EachFileOk(files, qs, later)
  {
    forall f | 0 <= f < |files| ensures FileOk(f, files[f], qs, later) {
      FileIsStable(f, files[f], ps, qs, merchants, later);
    }
  }

  lemma SettlementsKeepFiles(files: seq<AchFile>, ps: Payments, qs: Payments, merchants: Merchants, later: Merchants)
    requires FilesOk(files, ps, merchants) && SameProfiles(merchants, later) && SameExports(ps, qs)
    ensures FilesOk(files, qs, later)
  {
    forall f | 0 <= f < |files| ensures Exported(ps, f) == Exported(qs, f) {
    }
    FilesAreStable(files, ps, qs, merchants, later);
  }

  lemma NewPaymentKeepsFiles(files: seq<AchFile>, ps: Payments, merchants: Merchants, id: PaymentId, p: Payment)
    requires FilesOk(files, ps, merchants) && id !in ps && p.file.None?
    ensures FilesOk(files, ps[id := p], merchants)
  {
    forall f | 0 <= f < |files| ensures Exported(ps, f) == Exported(ps[id := p], f) {
    }
    FilesAreStable(files, ps, ps[id := p], merchants, merchants);
  }

  lemma EarlierFilesAreStable(files: seq<AchFile>, ps: Payments, merchants: Merchants, ids: set<PaymentId>)
    requires FilesOk(files, ps, merchants)
    requires forall id | id in ids :: id in ps && ps[id].file.None?
    ensures EachFileOk(files, MarkSubmitted(ps, ids, |files|), merchants)
  {
    var qs := MarkSubmitted(ps, ids, |files|);
    forall f | 0 <= f < |files| ensures Exported(ps, f) == Exported(qs, f) {
    }
    FilesAreStable(files, ps, qs, merchants, merchants);
  }

  lemma NewFileIsOk(ps: Payments, merchants: Merchants, ids: set<PaymentId>, n: nat, m: MerchantId, day: Day)
    requires ids != {} && CanRender(ps, merchants, ids) && AssignedBelow(ps, n)
    requires forall id | id in ids :: id in ps && ps[id].details.merchantId == m
    ensures FileOk(n, FileOf(ps, merchants, ids, m, day), MarkSubmitted(ps, ids, n), merchants)
  {
    var qs := MarkSubmitted(ps, ids, n);
    assert Exported(qs, n) == ids;
    ItemsAreStable(ps, qs, merchants, merchants, ids);
  }

  lemma AppendKeeps<T>(s: seq<T>, x: T, p: (nat, T) -> bool)
    requires (forall i | 0 <= i < |s| :: p(i, s[i])) && p(|s|, x)
    ensures forall i | 0 <= i < |s + [x]| :: p(i, (s + [x])[i])
  {
  }

  lemma AppendFile(files: seq<AchFile>, file: AchFile, ps: Payments, merchants: Merchants)
    requires EachFileOk(files, ps, merchants) && FileOk(|files|, file, ps, merchants)
    ensures EachFileOk(files + [file], ps, merchants)
  {
    AppendKeeps(files, file, (f: nat, x: AchFile) => FileOk(f, x, ps, merchants));
  }

  lemma AssignedAfterSubmit(ps: Payments, ids: set<PaymentId>, n: nat)
    requires AssignedBelow(ps, n)
    ensures AssignedBelow(MarkSubmitted(ps, ids, n), n + 1)
  {
  }

  /** A further export adds its own file and leaves every earlier one alone. */
  lemma SubmitKeepsFiles(db: Db, ids: set<PaymentId>, m: MerchantId, day: Day)
    requires FilesOk(db.files, db.payments, db.merchants)
    requires ids != {} && ids <= db.payments.Keys && CanRender(db.payments, db.merchants, ids)
    requires forall id | id in ids :: db.payments[id].file.None? && db.payments[id].details.merchantId == m
    ensures var d := Submit(db, ids, m, day); FilesOk(d.files, d.payments, d.merchants)
  {
    AssignedAfterSubmit(db.payments, ids, |db.files|);
    EarlierFilesAreStable(db.files, db.payments, db.merchants, ids);
    NewFileIsOk(db.payments, db.merchants, ids, |db.files|, m, day);
    AppendFile(db.files, FileOf(db.payments, db.merchants, ids, m, day),
               MarkSubmitted(db.payments, ids, |db.files|), db.merchants);
  }

  /** The stored text is what the file's own payments render to. */
  ghost predicate Whole(db: Db, f: nat)
    requires f < |db.files|
  {
    var ids, file := Exported(db.payments, f), db.files[f];
    && ids != {} && CanRender(db.payments, db.merchants, ids)
    && OfMerchant(db.payments, ids, file.companyId) == ids
    && FileText(ItemsOf(db.payments, db.merchants, ids), file.day) == file.digestOf
  }

  lemma FileIsWhole(db: Db, f: nat)
    requires FilesOk(db.files, db.payments, db.merchants) && f < |db.files|
    ensures Whole(db, f)
  {
    assert FileOk(f, db.files[f], db.payments, db.merchants);
  }

  lemma DownloadOfWhole(db: Db, f: nat, scope: Option<MerchantId>)
    requires f < |db.files| && Whole(db, f)
    ensures Download(db, f, scope) == if scope.None? || scope.value == db.files[f].companyId
                                      then Ok(db.files[f].digestOf) else Err(NotFound)
  {
  }

  /** Downloading a stored file gives exactly the text its hash was taken of; the merchant whose file it
      is gets the same text, any other merchant none. */
  lemma DownloadMatches(db: Db, f: nat, scope: Option<MerchantId>)
    requires FilesOk(db.files, db.payments, db.merchants) && f < |db.files|
    ensures Download(db, f, scope) == if scope.None? || scope.value == db.files[f].companyId
                                      then Ok(db.files[f].digestOf) else Err(NotFound)
  {
    FileIsWhole(db, f);
    DownloadOfWhole(db, f, scope);
  }
}
