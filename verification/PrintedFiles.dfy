/** What a downloaded file shows, column by column, of the stored payments and of their merchant. */
module PrintedFiles {
  import opened Text
  import opened Store
  import opened Nacha
  import opened NachaRecords
  import opened NachaReading
  import opened NachaText
  import opened Exports
  import opened Rendering
  import opened Records
  import Effects
  import ExportAll
  import Invariants
  import Safety
  import System
  import Theorems

  // ---------- What a reader sees ----------

  /** The value stands in the column, cut off or followed by blanks. */
  predicate Shows(line: string, from: nat, width: nat, value: string) {
    && from + width <= |line|
    && forall i | 0 <= i < width :: line[from + i] == if i < |value| then value[i] else ' '
  }

  predicate ShowsNumber(line: string, from: nat, width: nat, n: nat) {
    && from + width <= |line|
    && AllDigits(line[from..from + width]) && Value(line[from..from + width]) == n
  }

  /** Year, month and day of the month, two digits each. */
  predicate ShowsDate(line: string, from: nat, day: Day) {
    && ShowsNumber(line, from, 2, day.year % 100)
    && ShowsNumber(line, from + 2, 2, day.month)
    && ShowsNumber(line, from + 4, 2, day.date)
  }

  /** A file header: it starts with '1' and shows the date. */
  predicate StartsFile(line: string, day: Day) {
    StartsWith(line, '1') && (day.year >= 10 ==> ShowsDate(line, 23, day))
  }

  /** An entry: transaction code, routing prefix, check digit, account, amount, receiver, running number. */
  predicate PrintsPayment(line: string, d: Details, number: nat) {
    && |line| == 94 && |d.routingNumber| == 9 && d.amount > 0
    && line[..3] == (match d.direction case Debit => "627" case Credit => "622")
    && line[3..11] == d.routingNumber[..8] && line[11] == d.routingNumber[8]
    && Shows(line, 12, 17, d.receiverAccountRef)
    && ShowsNumber(line, 29, 10, d.amount % 10_000_000_000)
    && Shows(line, 54, 22, d.receiverName)
    && ShowsNumber(line, 78, 15, number % 1_000_000_000_000_000)
  }

  /** A batch header: service class, the merchant's name and code, and the date. */
  predicate PrintsCompany(line: string, profile: Profile, direction: Direction, day: Day) {
    && |line| == 94
    && line[..4] == (match direction case Debit => "5225" case Credit => "5220")
    && Shows(line, 4, 16, profile.legalName)
    && Shows(line, 40, 10, profile.merchantCode)
    && (day.year >= 10 ==> ShowsDate(line, 63, day))
  }

  /** A batch control: the number of entries and the merchant's code. */
  predicate PrintsControl(line: string, profile: Profile, entries: nat) {
    && |line| == 94 && line[..4] == "8200"
    && ShowsNumber(line, 4, 6, entries % 1_000_000)
    && Shows(line, 40, 10, profile.merchantCode)
  }

  /** A batch: its header, one entry for each payment in the given order, its control; no lines without payments. */
  predicate PrintsBatch(lines: seq<string>, ps: Payments, ids: seq<PaymentId>, direction: Direction,
                        profile: Profile, day: Day) {
    if ids == [] then lines == []
    else
      && |lines| == |ids| + 2
      && PrintsCompany(lines[0], profile, direction, day)
      && (forall i | 0 <= i < |ids| ::
            && ids[i] in ps && ps[ids[i]].details.direction == direction
            && PrintsPayment(lines[i + 1], ps[ids[i]].details, i + 1))
      && PrintsControl(lines[|ids| + 1], profile, |ids|)
  }

  function Extent(ids: seq<PaymentId>): nat {
    if ids == [] then 0 else |ids| + 2
  }

  /** A file: its header, the batch of the debits, the batch of the credits, the file control and fillers. */
  predicate PrintsFile(lines: seq<string>, ps: Payments, debits: seq<PaymentId>, credits: seq<PaymentId>,
                       profile: Profile, day: Day) {
    var d, c := 1 + Extent(debits), 1 + Extent(debits) + Extent(credits);
    && c < |lines| && |lines| % 10 == 0
    && StartsFile(lines[0], day)
    && PrintsBatch(lines[1..d], ps, debits, Debit, profile, day)
    && PrintsBatch(lines[d..c], ps, credits, Credit, profile, day)
    && forall i | c <= i < |lines| :: StartsWith(lines[i], '9')
  }

  /** The payments of a file that go in one direction. */
  function ExportedIn(ps: Payments, f: nat, direction: Direction): set<PaymentId> {
    set id | id in ps && ps[id].file == Some(f) && ps[id].details.direction == direction
  }

  /** The part of the value that the column shows has no line break. */
  predicate ShownClean(value: string, width: nat) {
    forall i | 0 <= i < |value| && i < width :: value[i] != '\n'
  }

  ghost predicate CleanFile(ps: Payments, f: nat, profile: Profile) {
    && ShownClean(profile.legalName, 16) && ShownClean(profile.merchantCode, 10)
    && forall id | id in ps && ps[id].file == Some(f) ::
         ShownClean(ps[id].details.receiverAccountRef, 17) && ShownClean(ps[id].details.receiverName, 22)
  }

  // ---------- Columns ----------

  lemma FieldShows(line: string, from: nat, width: nat, value: string)
    requires width > 0 && from + width <= |line| && line[from..from + width] == Field(value, width)
    ensures Shows(line, from, width, value)
  {
    forall i | 0 <= i < width ensures line[from + i] == if i < |value| then value[i] else ' ' {
      assert line[from + i] == line[from..from + width][i];
    }
  }

  lemma NumeralShows(line: string, from: nat, width: nat, n: nat)
    requires width > 0 && from + width <= |line| && line[from..from + width] == Digits(Decimal(n), width)
    ensures ShowsNumber(line, from, width, n % Pow10(width))
  {
    NumberReadsBack(n, width);
  }

  lemma FifteenDigits()
    ensures Pow10(15) == 1_000_000_000_000_000 && Pow10(10) == 10_000_000_000 && Pow10(6) == 1_000_000
    ensures Pow10(2) == 100
  {
    assert Pow10(2) == 100;
    assert Pow10(4) == 10_000;
    assert Pow10(6) == 1_000_000;
    assert Pow10(8) == 100_000_000;
    assert Pow10(10) == 10_000_000_000;
    assert Pow10(12) == 1_000_000_000_000;
    assert Pow10(14) == 100_000_000_000_000;
  }

  lemma DateIs(day: Day)
    requires day.year >= 10 && day.month < 100 && day.date < 100
    ensures Yymmdd(day) == Digits(Decimal(day.year), 2) + Digits(Decimal(day.month), 2) + Digits(Decimal(day.date), 2)
  {
    assert |Decimal(day.year)| >= 2 && |Decimal(day.month)| <= 2 && |Decimal(day.date)| <= 2;
    TwoDigits(Decimal(day.month));
    TwoDigits(Decimal(day.date));
    LastTwo(Decimal(day.year));
  }

  lemma TwoDigits(s: string)
    requires |s| <= 2
    ensures PadTo2(s) == Digits(s, 2)
  {
    assert Repeat('0', 0) + s == s;
  }

  lemma LastTwo(s: string)
    requires |s| >= 2
    ensures (if |s| > 2 then s[|s| - 2..] else s) == Digits(s, 2)
  {
    var kept := if |s| > 2 then s[|s| - 2..] else s;
    assert Repeat('0', 0) + kept == kept;
  }

  lemma TwoDigitsShow(line: string, from: nat, n: nat)
    requires from + 2 <= |line| && line[from..from + 2] == Digits(Decimal(n), 2)
    ensures ShowsNumber(line, from, 2, n % 100)
  {
    FifteenDigits();
    NumeralShows(line, from, 2, n);
  }

  lemma SixDigitsShow(line: string, from: nat, y: nat, m: nat, d: nat)
    requires from + 6 <= |line|
    requires line[from..from + 6] == Digits(Decimal(y), 2) + Digits(Decimal(m), 2) + Digits(Decimal(d), 2)
    ensures ShowsNumber(line, from, 2, y % 100) && ShowsNumber(line, from + 2, 2, m % 100)
    ensures ShowsNumber(line, from + 4, 2, d % 100)
  {
    Slices(line, from, Digits(Decimal(y), 2), Digits(Decimal(m), 2), Digits(Decimal(d), 2));
    TwoDigitsShow(line, from, y);
    TwoDigitsShow(line, from + 2, m);
    TwoDigitsShow(line, from + 4, d);
  }

  /** Wherever the file's date stands, it reads as year, month and day. */
  lemma DateShows(line: string, from: nat, day: Day)
    requires day.year >= 10 && day.month < 100 && day.date < 100
    requires |Yymmdd(day)| == 6 ==> from + 6 <= |line| && line[from..from + 6] == Yymmdd(day)
    ensures ShowsDate(line, from, day)
  {
    DateIs(day);
    SixDigitsShow(line, from, day.year, day.month, day.date);
  }

  lemma Slices(line: string, from: nat, y: string, m: string, d: string)
    requires |y| == |m| == |d| == 2 && from + 6 <= |line| && line[from..from + 6] == y + m + d
    ensures line[from..from + 2] == y && line[from + 2..from + 4] == m && line[from + 4..from + 6] == d
  {
    Within(line, from, 0, 2, y + m + d);
    Within(line, from, 2, 2, y + m + d);
    Within(line, from, 4, 2, y + m + d);
  }

  lemma Within(line: string, from: nat, skip: nat, width: nat, text: string)
    requires skip + width <= |text| && from + |text| <= |line| && line[from..from + |text|] == text
    ensures line[from + skip..from + skip + width] == text[skip..skip + width]
  {
    var shown, given := line[from + skip..from + skip + width], text[skip..skip + width];
    forall i | 0 <= i < width ensures shown[i] == given[i] {
      assert line[from..from + |text|][skip + i] == line[from + skip + i];
    }
  }

  // ---------- Entries ----------

  lemma FirstColumns(head: string, code: string, rdfi: string, account: string, amount: string)
    requires head == "6" + code + rdfi + account + amount && |code| == 2 && |rdfi| == 8
    ensures head[..3] == "6" + code && head[3..11] == rdfi
  {
    TextAt("", "6" + code, rdfi + account + amount, head);
    TextAt("6" + code, rdfi, account + amount, head);
  }

  lemma EntryStart(direction: Direction, item: Item)
    requires NineDigits(item.routingNumber)
    ensures EntryHead(direction, item)[..3] == (match direction case Debit => "627" case Credit => "622")
    ensures EntryHead(direction, item)[3..11] == item.routingNumber[..8]
  {
    CodesDiffer(direction);
    EightDigits(item);
    FirstColumns(EntryHead(direction, item), Code(direction), Digits(Rdfi(item), 8), AccountText(item),
                 Cents(item.amount));
  }

  lemma EightDigits(item: Item)
    requires NineDigits(item.routingNumber)
    ensures Digits(Rdfi(item), 8) == item.routingNumber[..8]
  {
    assert Repeat('0', 0) + Rdfi(item) == Rdfi(item);
  }

  lemma EntryCheckDigit(direction: Direction, item: Item)
    requires NineDigits(item.routingNumber)
    ensures EntryHead(direction, item)[11] == item.routingNumber[8]
  {
    var before := "6" + Code(direction) + Digits(Rdfi(item), 8);
    TextAt(before, AccountText(item), Cents(item.amount), EntryHead(direction, item));
    assert EntryHead(direction, item)[11] == EntryHead(direction, item)[11..29][0];
  }

  lemma EntryAmountShows(direction: Direction, item: Item)
    requires item.amount > 0
    ensures ShowsNumber(EntryHead(direction, item), 29, 10, item.amount % 10_000_000_000)
  {
    var before := "6" + Code(direction) + Digits(Rdfi(item), 8) + AccountText(item);
    TextAt(before, Cents(item.amount), "", EntryHead(direction, item));
    CentsReadBack(item.amount);
  }

  /** Padding on the right leaves every column as it is. */
  lemma PadKeepsColumn(line: string, pad: string, from: nat, width: nat)
    requires from + width <= |line|
    ensures (line + pad)[from..from + width] == line[from..from + width]
  {
  }

  lemma EntryShows(line: string, d: Details, item: Item, index: nat)
    requires line == EntryLine(d.direction, item, index) + " "
    requires item.receiverAccountRef == d.receiverAccountRef && item.receiverName == d.receiverName
    ensures Shows(line, 12, 17, d.receiverAccountRef) && Shows(line, 54, 22, d.receiverName)
    ensures ShowsNumber(line, 78, 15, (index + 1) % 1_000_000_000_000_000)
  {
    var entry := EntryLine(d.direction, item, index);
    EntryNamesReceiver(d.direction, item, index);
    PadKeepsColumn(entry, " ", 12, 17);
    PadKeepsColumn(entry, " ", 54, 22);
    PadKeepsColumn(entry, " ", 78, 15);
    FieldShows(line, 12, 17, d.receiverAccountRef);
    FieldShows(line, 54, 22, d.receiverName);
    FifteenDigits();
    NumeralShows(line, 78, 15, index + 1);
  }

  lemma EntryPrints(d: Details, profile: Profile, index: nat)
    requires NineDigits(d.routingNumber) && d.amount > 0
    ensures PrintsPayment(EntryLine(d.direction, ItemOf(d, profile), index) + " ", d, index + 1)
  {
    var item := ItemOf(d, profile);
    var head, tail := EntryHead(d.direction, item), EntryTail(item, index) + " ";
    var line := EntryLine(d.direction, item, index) + " ";
    assert line == head + tail;
    EntryStart(d.direction, item);
    EntryCheckDigit(d.direction, item);
    EntryAmountShows(d.direction, item);
    EntryShows(line, d, item, index);
    PadKeepsColumn(head, tail, 0, 3);
    PadKeepsColumn(head, tail, 3, 8);
    PadKeepsColumn(head, tail, 29, 10);
    assert line[11] == head[11];
  }

  // ---------- Batch headers and controls ----------

  lemma HeaderPrints(profile: Profile, direction: Direction, day: Day)
    requires day.month < 100 && day.date < 100
    ensures var header := BatchHeader(direction, Company(profile.legalName, profile.merchantCode), Yymmdd(day));
            PrintsCompany(Field(header, WIDTH), profile, direction, day)
  {
    var company := Company(profile.legalName, profile.merchantCode);
    var header := BatchHeader(direction, company, Yymmdd(day));
    ShortDates(day);
    var pad := Repeat(' ', WIDTH - |header|);
    var line := header + pad;
    HeaderNamesCompany(direction, company, Yymmdd(day));
    PadKeepsColumn(header, pad, 0, 4);
    PadKeepsColumn(header, pad, 4, 16);
    PadKeepsColumn(header, pad, 40, 10);
    FieldShows(line, 4, 16, profile.legalName);
    FieldShows(line, 40, 10, profile.merchantCode);
    HeaderClass(direction, company, Yymmdd(day));
    if day.year >= 10 {
      HeaderShowsDate(direction, company, day, pad);
    }
  }

  lemma HeaderShowsDate(direction: Direction, company: Company, day: Day, pad: string)
    requires day.year >= 10 && day.month < 100 && day.date < 100
    ensures ShowsDate(BatchHeader(direction, company, Yymmdd(day)) + pad, 63, day)
  {
    var header := BatchHeader(direction, company, Yymmdd(day));
    DateIs(day);
    HeaderDate(direction, company, Yymmdd(day));
    PadKeepsColumn(header, pad, 63, 6);
    DateShows(header + pad, 63, day);
  }

  lemma HeaderClass(direction: Direction, company: Company, yymmdd: string)
    ensures BatchHeader(direction, company, yymmdd)[..4] == (match direction case Debit => "5225" case Credit => "5220")
  {
    var start, name := HeaderStart(direction), Field(company.legalName, 16);
    Regrouped(start, name, Field("", 20), Field(company.merchantCode, 10), HeaderEnd(yymmdd));
    assert Repeat('0', 0) == "";
    assert HeaderStart(direction) == match direction case Debit => "5225" case Credit => "5220";
  }

  lemma HeaderDate(direction: Direction, company: Company, yymmdd: string)
    requires |yymmdd| == 6
    ensures BatchHeader(direction, company, yymmdd)[63..69] == yymmdd
  {
    var front := HeaderStart(direction) + Field(company.legalName, 16) + Field("", 20)
                 + Field(company.merchantCode, 10);
    var before := "PPD" + Field("", 10);
    var after := Field("", 3) + "1" + Digits("12345678", 8) + "0000001";
    assert HeaderEnd(yymmdd) == before + yymmdd + after;
    TextAt(before, yymmdd, after, HeaderEnd(yymmdd));
    Sliced(front, HeaderEnd(yymmdd), 13, 19);
  }

  lemma FileHeaderPrints(day: Day)
    requires day.month < 100 && day.date < 100
    ensures StartsFile(Field(FileHeader(Yymmdd(day)), WIDTH), day)
  {
    var y := Yymmdd(day);
    ShortDates(day);
    if day.year >= 10 {
      DateIs(day);
      var header := FileHeader(y);
      TextAt("101 123456789 987654321", y, "0000A094101DESTINATION            ORIGIN                  ", header);
      PadKeepsColumn(header, Repeat(' ', WIDTH - |header|), 23, 6);
      DateShows(header + Repeat(' ', WIDTH - |header|), 23, day);
    }
  }

  lemma ControlPrints(group: seq<Item>, profile: Profile)
    requires Renderable(group)
    ensures var control := BatchControl(group, Company(profile.legalName, profile.merchantCode));
            PrintsControl(Field(control, WIDTH), profile, |group|)
  {
    var company := Company(profile.legalName, profile.merchantCode);
    var totals, rest := BatchTotals(group), BatchTrailer(company) + Repeat(' ', 4);
    var line := Field(BatchControl(group, company), WIDTH);
    assert line == totals + rest;
    ControlStart(group);
    PadKeepsColumn(totals, rest, 0, 4);
    PadKeepsColumn(totals, rest, 4, 6);
    TrailerStart(company, Repeat(' ', 4));
    Sliced(totals, rest, 0, 10);
    FieldShows(line, 40, 10, profile.merchantCode);
  }

  lemma TrailerStart(company: Company, pad: string)
    ensures (BatchTrailer(company) + pad)[0..10] == Field(company.merchantCode, 10)
  {
    var code := Field(company.merchantCode, 10);
    var rest := Field("", 19) + Field("", 6) + Digits("12345678", 8) + "0000001";
    assert BatchTrailer(company) + pad == code + (rest + pad);
    TextAt("", code, rest + pad, BatchTrailer(company) + pad);
  }

  lemma ControlStart(group: seq<Item>)
    requires Renderable(group)
    ensures BatchTotals(group)[..4] == "8200"
    ensures ShowsNumber(BatchTotals(group), 4, 6, |group| % 1_000_000)
  {
    var count := Digits(Decimal(|group|), 6);
    var rest := HashText(group) + AmountsText(group);
    assert Repeat('0', 0) == "";
    assert Digits("200", 3) == "200";
    assert BatchTotals(group) == "8200" + count + rest;
    TextAt("", "8200", count + rest, BatchTotals(group));
    TextAt("8200", count, rest, BatchTotals(group));
    FifteenDigits();
    NumeralShows(BatchTotals(group), 4, 6, |group|);
  }

  // ---------- The listing of a file ----------

  /** The ids of one direction, in the order they have. */
  function InDirection(ps: Payments, ids: seq<PaymentId>, direction: Direction): (r: seq<PaymentId>)
    requires forall i | 0 <= i < |ids| :: ids[i] in ps
    ensures forall x :: x in r <==> x in ids && ps[x].details.direction == direction
  {
    if ids == [] then []
    else if ps[ids[0]].details.direction == direction then [ids[0]] + InDirection(ps, ids[1..], direction)
    else InDirection(ps, ids[1..], direction)
  }

  lemma {:induction false} SublistAscends(ps: Payments, ids: seq<PaymentId>, direction: Direction)
    requires (forall i | 0 <= i < |ids| :: ids[i] in ps) && Ascends(ids)
    ensures Ascends(InDirection(ps, ids, direction))
  {
    if ids != [] {
      var rest := InDirection(ps, ids[1..], direction);
      SublistAscends(ps, ids[1..], direction);
      forall j | 0 <= j < |rest| ensures Less(ids[0], rest[j]) {
        assert rest[j] in rest && rest[j] in ids[1..];
        var k :| 0 <= k < |ids[1..]| && ids[1..][k] == rest[j];
        assert ids[k + 1] == rest[j];
      }
    }
  }

  ghost predicate HaveItems(ps: Payments, merchants: Merchants, ids: seq<PaymentId>) {
    forall i | 0 <= i < |ids| :: HasItem(ps, merchants, ids[i])
  }

  lemma ItemsCons(ps: Payments, merchants: Merchants, ids: seq<PaymentId>)
    requires ids != [] && HaveItems(ps, merchants, ids)
    ensures HaveItems(ps, merchants, ids[1..])
    ensures Items(ps, merchants, ids) == [ItemAt(ps, merchants, ids[0])] + Items(ps, merchants, ids[1..])
  {
  }

  lemma GroupCons(item: Item, rest: seq<Item>, direction: Direction)
    ensures Group([item] + rest, direction)
         == if item.direction == direction then [item] + Group(rest, direction) else Group(rest, direction)
  {
    assert ([item] + rest)[1..] == rest;
  }

  lemma {:induction false} GroupIsListed(ps: Payments, merchants: Merchants, ids: seq<PaymentId>, direction: Direction)
    requires HaveItems(ps, merchants, ids)
    ensures var r := InDirection(ps, ids, direction);
            && HaveItems(ps, merchants, r)
            && Group(Items(ps, merchants, ids), direction) == Items(ps, merchants, r)
  {
    if ids != [] {
      var rest := InDirection(ps, ids[1..], direction);
      ItemsCons(ps, merchants, ids);
      GroupCons(ItemAt(ps, merchants, ids[0]), Items(ps, merchants, ids[1..]), direction);
      GroupIsListed(ps, merchants, ids[1..], direction);
      if ps[ids[0]].details.direction == direction {
        assert ([ids[0]] + rest)[1..] == rest;
        ItemsCons(ps, merchants, [ids[0]] + rest);
      }
    }
  }

  /** The group of a direction lists the payments of that direction by ascending id. */
  lemma GroupLists(ps: Payments, merchants: Merchants, f: nat, direction: Direction)
    requires CanRender(ps, merchants, Exported(ps, f))
    ensures var ids := Sorted(ExportedIn(ps, f, direction));
            && HaveItems(ps, merchants, ids)
            && Group(ItemsOf(ps, merchants, Exported(ps, f)), direction) == Items(ps, merchants, ids)
  {
    var order := Sorted(Exported(ps, f));
    forall i | 0 <= i < |order| ensures HasItem(ps, merchants, order[i]) {
      assert order[i] in Exported(ps, f);
    }
    GroupIsListed(ps, merchants, order, direction);
    SublistAscends(ps, order, direction);
    SortedIsUnique(ExportedIn(ps, f, direction), InDirection(ps, order, direction));
  }

  // ---------- The file ----------

  /** What the rows of a stored file are like in every reachable state. */
  ghost predicate Rows(ps: Payments, merchants: Merchants, ids: set<PaymentId>, m: MerchantId) {
    && m in merchants
    && forall id | id in ids ::
         && id in ps && ps[id].details.merchantId == m
         && ps[id].details.amount > 0 && NineDigits(ps[id].details.routingNumber)
  }

  lemma RowOf(ps: Payments, merchants: Merchants, f: nat, m: MerchantId, direction: Direction, i: nat)
    requires Rows(ps, merchants, Exported(ps, f), m) && i < |Sorted(ExportedIn(ps, f, direction))|
    ensures var id := Sorted(ExportedIn(ps, f, direction))[i];
            && id in ps && ps[id].details.merchantId == m && ps[id].details.direction == direction
            && ps[id].details.amount > 0 && NineDigits(ps[id].details.routingNumber)
  {
    var id := Sorted(ExportedIn(ps, f, direction))[i];
    assert id in Sorted(ExportedIn(ps, f, direction));
    assert id in ExportedIn(ps, f, direction) && id in Exported(ps, f);
  }

  lemma PaddedEntry(direction: Direction, item: Item, index: nat)
    ensures Field(EntryLine(direction, item, index), WIDTH) == EntryLine(direction, item, index) + " "
  {
    assert Repeat(' ', 1) == " ";
  }

  lemma PaddedConcat(a: seq<string>, b: seq<string>)
    ensures Padded(a + b) == Padded(a) + Padded(b)
  {
  }

  lemma EntryOfRow(ps: Payments, merchants: Merchants, f: nat, m: MerchantId, direction: Direction, i: nat)
    requires Rows(ps, merchants, Exported(ps, f), m) && i < |Sorted(ExportedIn(ps, f, direction))|
    ensures var id := Sorted(ExportedIn(ps, f, direction))[i];
            && HasItem(ps, merchants, id) && ps[id].details.direction == direction
            && PrintsPayment(Field(EntryLine(direction, ItemAt(ps, merchants, id), i), WIDTH), ps[id].details, i + 1)
  {
    var id := Sorted(ExportedIn(ps, f, direction))[i];
    RowOf(ps, merchants, f, m, direction, i);
    EntryPrints(ps[id].details, merchants[m].profile, i);
    PaddedEntry(direction, ItemAt(ps, merchants, id), i);
  }

  lemma BatchOfRows(lines: seq<string>, ps: Payments, merchants: Merchants, f: nat, m: MerchantId,
                    direction: Direction, day: Day)
    requires Rows(ps, merchants, Exported(ps, f), m)
    requires var ids := Sorted(ExportedIn(ps, f, direction));
             && ids != [] && HaveItems(ps, merchants, ids) && |lines| == |ids| + 2
             && forall i | 0 <= i < |ids| ::
                  lines[i + 1] == Field(EntryLine(direction, ItemAt(ps, merchants, ids[i]), i), WIDTH)
    ensures var ids, profile := Sorted(ExportedIn(ps, f, direction)), merchants[m].profile;
            PrintsCompany(lines[0], profile, direction, day) && PrintsControl(lines[|ids| + 1], profile, |ids|) ==>
              PrintsBatch(lines, ps, ids, direction, profile, day)
  {
    var ids := Sorted(ExportedIn(ps, f, direction));
    forall i | 0 <= i < |ids|
      ensures ids[i] in ps && ps[ids[i]].details.direction == direction
      ensures PrintsPayment(lines[i + 1], ps[ids[i]].details, i + 1)
    {
      EntryOfRow(ps, merchants, f, m, direction, i);
    }
  }

  /** The batch of one direction prints the payments of that direction. */
  lemma BatchPrints(ps: Payments, merchants: Merchants, f: nat, m: MerchantId, direction: Direction, day: Day)
    requires CanRender(ps, merchants, Exported(ps, f)) && Rows(ps, merchants, Exported(ps, f), m)
    requires day.month < 100 && day.date < 100
    ensures PrintsBatch(Padded(Batch(ItemsOf(ps, merchants, Exported(ps, f)), direction, Yymmdd(day))), ps,
                        Sorted(ExportedIn(ps, f, direction)), direction, merchants[m].profile, day)
  {
    var items, ids := ItemsOf(ps, merchants, Exported(ps, f)), Sorted(ExportedIn(ps, f, direction));
    GroupLists(ps, merchants, f, direction);
    if ids != [] {
      BatchIsListed(ps, merchants, f, m, direction, Yymmdd(day));
      HeaderPrints(merchants[m].profile, direction, day);
      ControlPrints(Group(items, direction), merchants[m].profile);
      BatchOfRows(Padded(Batch(items, direction, Yymmdd(day))), ps, merchants, f, m, direction, day);
    }
  }

  lemma ItemsAt(ps: Payments, merchants: Merchants, ids: seq<PaymentId>)
    requires HaveItems(ps, merchants, ids)
    ensures forall i | 0 <= i < |ids| :: Items(ps, merchants, ids)[i] == ItemAt(ps, merchants, ids[i])
  {
  }

  lemma GroupStarts(ps: Payments, merchants: Merchants, f: nat, m: MerchantId, direction: Direction)
    requires CanRender(ps, merchants, Exported(ps, f)) && Rows(ps, merchants, Exported(ps, f), m)
    requires Sorted(ExportedIn(ps, f, direction)) != []
    ensures var ids, profile := Sorted(ExportedIn(ps, f, direction)), merchants[m].profile;
            && HaveItems(ps, merchants, ids)
            && Group(ItemsOf(ps, merchants, Exported(ps, f)), direction) == Items(ps, merchants, ids)
            && Items(ps, merchants, ids)[0].company == Company(profile.legalName, profile.merchantCode)
  {
    GroupLists(ps, merchants, f, direction);
    RowOf(ps, merchants, f, m, direction, 0);
  }

  lemma BatchIsListed(ps: Payments, merchants: Merchants, f: nat, m: MerchantId, direction: Direction, yymmdd: string)
    requires CanRender(ps, merchants, Exported(ps, f)) && Rows(ps, merchants, Exported(ps, f), m)
    requires Sorted(ExportedIn(ps, f, direction)) != []
    ensures var ids, items := Sorted(ExportedIn(ps, f, direction)), ItemsOf(ps, merchants, Exported(ps, f));
            var lines, profile := Padded(Batch(items, direction, yymmdd)), merchants[m].profile;
            var company := Company(profile.legalName, profile.merchantCode);
            && HaveItems(ps, merchants, ids) && |lines| == |ids| + 2 && |Group(items, direction)| == |ids|
            && Renderable(Group(items, direction))
            && lines[0] == Field(BatchHeader(direction, company, yymmdd), WIDTH)
            && (forall i | 0 <= i < |ids| ::
                  lines[i + 1] == Field(EntryLine(direction, ItemAt(ps, merchants, ids[i]), i), WIDTH))
            && lines[|ids| + 1] == Field(BatchControl(Group(items, direction), company), WIDTH)
  {
    var items, ids, profile := ItemsOf(ps, merchants, Exported(ps, f)), Sorted(ExportedIn(ps, f, direction)),
                               merchants[m].profile;
    GroupStarts(ps, merchants, f, m, direction);
    BatchIs(items, direction, yymmdd, Items(ps, merchants, ids), Company(profile.legalName, profile.merchantCode));
    ItemsAt(ps, merchants, ids);
  }

  /** A batch, line by line. */
  lemma BatchIs(items: seq<Item>, direction: Direction, yymmdd: string, group: seq<Item>, company: Company)
    requires Renderable(items) && Group(items, direction) == group != [] && group[0].company == company
    ensures var lines := Padded(Batch(items, direction, yymmdd));
            && Renderable(group) && |lines| == |group| + 2
            && lines[0] == Field(BatchHeader(direction, company, yymmdd), WIDTH)
            && (forall i | 0 <= i < |group| :: lines[i + 1] == Field(EntryLine(direction, group[i], i), WIDTH))
            && lines[|group| + 1] == Field(BatchControl(group, company), WIDTH)
  {
    GroupIsRenderable(items, direction);
    var entries := EntryLines(direction, group);
    Framed(BatchHeader(direction, company, yymmdd), entries, BatchControl(group, company));
    forall i | 0 <= i < |group| ensures entries[i] == EntryLine(direction, group[i], i) {
    }
  }

  lemma Framed(header: string, entries: seq<string>, control: string)
    ensures var lines := Padded([header] + entries + [control]);
            && |lines| == |entries| + 2 && lines[0] == Field(header, WIDTH)
            && (forall i | 0 <= i < |entries| :: lines[i + 1] == Field(entries[i], WIDTH))
            && lines[|entries| + 1] == Field(control, WIDTH)
  {
    var batch := [header] + entries + [control];
    forall i | 0 <= i < |entries| ensures Padded(batch)[i + 1] == Field(entries[i], WIDTH) {
      assert batch[i + 1] == entries[i];
    }
  }

  /** The end of a file: the control record and its fillers. */
  predicate EndsFile(tail: seq<string>) {
    tail != [] && forall i | 0 <= i < |tail| :: StartsWith(tail[i], '9')
  }

  lemma TailPrints(items: seq<Item>, body: nat)
    requires Renderable(items)
    ensures EndsFile(Padded(Tail(items, body)))
  {
    TailIs(items, body);
  }

  lemma Parts(a: seq<string>, b: seq<string>, c: seq<string>, d: seq<string>)
    ensures var s := a + b + c + d;
            && s[|a|..|a| + |b|] == b && s[|a| + |b|..|a| + |b| + |c|] == c
            && (forall i | 0 <= i < |a| :: s[i] == a[i])
            && forall i | |a| + |b| + |c| <= i < |s| :: s[i] == d[i - |a| - |b| - |c|]
  {
  }

  /** A file put together from its parts. */
  lemma PartsPrint(lines: seq<string>, first: string, d: seq<string>, c: seq<string>, tail: seq<string>, ps: Payments,
                   debits: seq<PaymentId>, credits: seq<PaymentId>, profile: Profile, day: Day)
    ensures lines == [first] + d + c + tail && |lines| % 10 == 0 && StartsFile(first, day) && EndsFile(tail)
            && PrintsBatch(d, ps, debits, Debit, profile, day) && PrintsBatch(c, ps, credits, Credit, profile, day) ==>
              PrintsFile(lines, ps, debits, credits, profile, day)
  {
    Parts([first], d, c, tail);
  }

  lemma RecordsInParts(items: seq<Item>, ps: Payments, debits: seq<PaymentId>, credits: seq<PaymentId>,
                       profile: Profile, day: Day)
    requires Renderable(items)
    ensures var y := Yymmdd(day);
            && StartsFile(Field(FileHeader(y), WIDTH), day)
            && PrintsBatch(Padded(Batch(items, Debit, y)), ps, debits, Debit, profile, day)
            && PrintsBatch(Padded(Batch(items, Credit, y)), ps, credits, Credit, profile, day) ==>
              PrintsFile(Padded(Lines(items, y)), ps, debits, credits, profile, day)
  {
    var y := Yymmdd(day);
    LinesInParts(items, y);
    LinesAreBlocked(items, y);
    TailPrints(items, |Body(items, y)|);
    PartsPrint(Padded(Lines(items, y)), Field(FileHeader(y), WIDTH), Padded(Batch(items, Debit, y)),
               Padded(Batch(items, Credit, y)), Padded(Tail(items, |Body(items, y)|)), ps, debits, credits, profile,
               day);
  }

  lemma RecordsPrint(ps: Payments, merchants: Merchants, f: nat, m: MerchantId, day: Day)
    requires CanRender(ps, merchants, Exported(ps, f)) && Rows(ps, merchants, Exported(ps, f), m)
    requires day.month < 100 && day.date < 100
    ensures PrintsFile(Padded(Lines(ItemsOf(ps, merchants, Exported(ps, f)), Yymmdd(day))), ps,
                       Sorted(ExportedIn(ps, f, Debit)), Sorted(ExportedIn(ps, f, Credit)), merchants[m].profile, day)
  {
    FileHeaderPrints(day);
    BatchPrints(ps, merchants, f, m, Debit, day);
    BatchPrints(ps, merchants, f, m, Credit, day);
    RecordsInParts(ItemsOf(ps, merchants, Exported(ps, f)), ps, Sorted(ExportedIn(ps, f, Debit)),
                   Sorted(ExportedIn(ps, f, Credit)), merchants[m].profile, day);
  }

  lemma LinesInParts(items: seq<Item>, y: string)
    requires Renderable(items)
    ensures Padded(Lines(items, y)) == [Field(FileHeader(y), WIDTH)] + Padded(Batch(items, Debit, y))
                                       + Padded(Batch(items, Credit, y)) + Padded(Tail(items, |Body(items, y)|))
  {
    var first, d, c := [FileHeader(y)], Batch(items, Debit, y), Batch(items, Credit, y);
    PaddedConcat(first, d);
    PaddedConcat(first + d, c);
    PaddedConcat(first + d + c, Tail(items, |Body(items, y)|));
    assert Padded(first) == [Field(FileHeader(y), WIDTH)];
  }

  lemma LinesAreBlocked(items: seq<Item>, y: string)
    requires Renderable(items)
    ensures |Padded(Lines(items, y))| % 10 == 0
  {
    BlocksAreFull(items, y);
    assert |Padded(Lines(items, y))| == |Lines(items, y)|;
  }

  // ---------- When a file is clean ----------

  lemma ShownIsKept(value: string, width: nat)
    ensures ShownClean(value, width) <==> NoBreak(Kept(value, width))
  {
  }

  ghost predicate CleanRow(d: Details) {
    ShownClean(d.receiverAccountRef, 17) && ShownClean(d.receiverName, 22)
  }

  lemma ReceiverIsClean(d: Details, profile: Profile)
    requires NineDigits(d.routingNumber)
    ensures CleanReceiver(ItemOf(d, profile)) <==> CleanRow(d)
  {
    ShownIsKept(d.receiverAccountRef, 17);
    ShownIsKept(d.receiverName, 22);
    assert IsDigit(d.routingNumber[8]);
  }

  lemma ReceiversAreClean(ps: Payments, merchants: Merchants, f: nat, m: MerchantId)
    requires CanRender(ps, merchants, Exported(ps, f)) && Rows(ps, merchants, Exported(ps, f), m)
    ensures CleanReceivers(ItemsOf(ps, merchants, Exported(ps, f))) <==>
            forall id | id in Exported(ps, f) :: CleanRow(ps[id].details)
  {
    var order, items := Sorted(Exported(ps, f)), ItemsOf(ps, merchants, Exported(ps, f));
    forall i | 0 <= i < |order|
      ensures order[i] in Exported(ps, f) && (CleanReceiver(items[i]) <==> CleanRow(ps[order[i]].details))
    {
      assert order[i] in order;
      ReceiverIsClean(ps[order[i]].details, merchants[m].profile);
    }
    if CleanReceivers(items) {
      forall id | id in Exported(ps, f) ensures CleanRow(ps[id].details) {
        assert id in order;
        var i :| 0 <= i < |order| && order[i] == id;
        assert CleanReceiver(items[i]);
      }
    }
  }

  lemma CompaniesAreClean(items: seq<Item>, company: Company)
    requires Renderable(items) && items != [] && forall i | 0 <= i < |items| :: items[i].company == company
    ensures CleanBatch(Group(items, Debit)) && CleanBatch(Group(items, Credit)) <==> CleanCompany(company)
  {
    NachaReading.GroupsCover(items);
    var d, c := Group(items, Debit), Group(items, Credit);
    assert d != [] ==> d[0] in items;
    assert c != [] ==> c[0] in items;
  }

  lemma CompanyOfItems(ps: Payments, merchants: Merchants, f: nat, m: MerchantId)
    requires CanRender(ps, merchants, Exported(ps, f)) && Rows(ps, merchants, Exported(ps, f), m)
    ensures var items, profile := ItemsOf(ps, merchants, Exported(ps, f)), merchants[m].profile;
            forall i | 0 <= i < |items| :: items[i].company == Company(profile.legalName, profile.merchantCode)
  {
    var order, items := Sorted(Exported(ps, f)), ItemsOf(ps, merchants, Exported(ps, f));
    forall i | 0 <= i < |items| ensures items[i] == ItemOf(ps[order[i]].details, merchants[m].profile) {
      assert order[i] in order;
    }
  }

  lemma CleanIs(ps: Payments, merchants: Merchants, f: nat, m: MerchantId)
    requires CanRender(ps, merchants, Exported(ps, f)) && Rows(ps, merchants, Exported(ps, f), m)
    requires Exported(ps, f) != {}
    ensures Clean(ItemsOf(ps, merchants, Exported(ps, f))) <==> CleanFile(ps, f, merchants[m].profile)
  {
    var profile := merchants[m].profile;
    ReceiversAreClean(ps, merchants, f, m);
    CompanyOfItems(ps, merchants, f, m);
    CompaniesAreClean(ItemsOf(ps, merchants, Exported(ps, f)), Company(profile.legalName, profile.merchantCode));
    ShownIsKept(profile.legalName, 16);
    ShownIsKept(profile.merchantCode, 10);
    forall id ensures id in Exported(ps, f) <==> id in ps && ps[id].file == Some(f) {
    }
  }

  // ---------- The stored and downloaded text ----------

  lemma StoredRows(db: Db, f: nat, maxAttempts: nat)
    requires Invariants.Inv(db, maxAttempts) && f < |db.files|
    ensures Whole(db, f) && Rows(db.payments, db.merchants, Exported(db.payments, f), db.files[f].companyId)
  {
    var ids, m := Exported(db.payments, f), db.files[f].companyId;
    FileIsWhole(db, f);
    assert OfMerchant(db.payments, ids, m) == ids;
    forall id | id in ids
      ensures db.payments[id].details.merchantId == m && m in db.merchants
      ensures db.payments[id].details.amount > 0 && NineDigits(db.payments[id].details.routingNumber)
    {
      assert id in OfMerchant(db.payments, ids, m);
      Safety.MerchantIsKnown(db, id);
      Effects.SliceOf(db, id);
    }
    var id :| id in ids;
  }

  /** The text of a stored file, split at its line breaks, has all lines 94 wide exactly when nothing that it shows
      contains a line break. Then it is a file header with the file's date, the batch of the debits and the batch of
      the credits, each with its merchant's name and code and one entry for every exported payment by ascending
      id, and a file control with its fillers; no other line is an entry. */
  lemma FilePrintsPayments(db: Db, f: nat, maxAttempts: nat)
    requires System.Reachable(db, maxAttempts) && maxAttempts >= 1 && f < |db.files|
    requires db.files[f].day.month < 100 && db.files[f].day.date < 100
    ensures var file := db.files[f];
            && Download(db, f) == Ok(file.digestOf) && file.companyId in db.merchants
            && (forall id | id in db.payments && db.payments[id].file == Some(f) ::
                  db.payments[id].details.merchantId == file.companyId)
            && var lines, profile := Split(file.digestOf), db.merchants[file.companyId].profile;
               && ((forall i | 0 <= i < |lines| :: |lines[i]| == 94) <==> CleanFile(db.payments, f, profile))
               && (CleanFile(db.payments, f, profile) ==>
                     && PrintsFile(lines, db.payments, Sorted(ExportedIn(db.payments, f, Debit)),
                                   Sorted(ExportedIn(db.payments, f, Credit)), profile, file.day)
                     && Entries(lines) == |set id | id in db.payments && db.payments[id].file == Some(f)|)
  {
    Theorems.ReachableIsSafe(db, maxAttempts);
    StoredRows(db, f, maxAttempts);
    DownloadOfWhole(db, f, None);
    WholePrints(db, f);
    EntriesOfFile(Split(db.files[f].digestOf), db.payments, f, db.merchants[db.files[f].companyId].profile,
                  db.files[f].day);
  }

  lemma WholePrints(db: Db, f: nat)
    requires f < |db.files| && Whole(db, f)
    requires Rows(db.payments, db.merchants, Exported(db.payments, f), db.files[f].companyId)
    requires db.files[f].day.month < 100 && db.files[f].day.date < 100
    ensures var file := db.files[f];
            var lines, profile := Split(file.digestOf), db.merchants[file.companyId].profile;
            && (Wide(lines) <==> CleanFile(db.payments, f, profile))
            && (CleanFile(db.payments, f, profile) ==>
                  PrintsFile(lines, db.payments, Sorted(ExportedIn(db.payments, f, Debit)),
                             Sorted(ExportedIn(db.payments, f, Credit)), profile, file.day))
  {
    var ids, file := Exported(db.payments, f), db.files[f];
    CleanIs(db.payments, db.merchants, f, file.companyId);
    TextSplitsBack(ItemsOf(db.payments, db.merchants, ids), file.day);
    RecordsPrint(db.payments, db.merchants, f, file.companyId, file.day);
  }

  /** The lines that a reader takes for entries. */
  function Entries(lines: seq<string>): nat {
    if lines == [] then 0 else (if StartsWith(lines[0], '6') then 1 else 0) + Entries(lines[1..])
  }

  lemma {:induction false} EntriesConcat(a: seq<string>, b: seq<string>)
    ensures Entries(a + b) == Entries(a) + Entries(b)
    decreases |a|
  {
    if a == [] {
      assert a + b == b;
    } else {
      EntriesConcat(a[1..], b);
      assert (a + b)[1..] == a[1..] + b;
    }
  }

  lemma {:induction false} AllEntries(lines: seq<string>, all: bool)
    requires forall i | 0 <= i < |lines| :: StartsWith(lines[i], '6') == all
    ensures Entries(lines) == if all then |lines| else 0
  {
    if lines != [] {
      AllEntries(lines[1..], all);
    }
  }

  lemma StartsEntry(line: string, d: Details, number: nat)
    requires PrintsPayment(line, d, number)
    ensures StartsWith(line, '6')
  {
    assert line[0] == line[..3][0];
  }

  lemma EntriesOfBatch(lines: seq<string>, ps: Payments, ids: seq<PaymentId>, direction: Direction, profile: Profile,
                       day: Day)
    ensures PrintsBatch(lines, ps, ids, direction, profile, day) ==> Entries(lines) == |ids|
  {
    if ids != [] && PrintsBatch(lines, ps, ids, direction, profile, day) {
      var n := |ids| + 1;
      assert lines == lines[..1] + (lines[1..n] + lines[n..]);
      EntriesConcat(lines[..1], lines[1..n] + lines[n..]);
      EntriesConcat(lines[1..n], lines[n..]);
      assert lines[0][0] == lines[0][..4][0] && lines[n][0] == lines[n][..4][0];
      forall i | 0 <= i < |ids| ensures StartsWith(lines[1..n][i], '6') {
        assert lines[1..n][i] == lines[i + 1] && ids[i] in ps;
        StartsEntry(lines[i + 1], ps[ids[i]].details, i + 1);
      }
      AllEntries(lines[..1], false);
      AllEntries(lines[1..n], true);
      AllEntries(lines[n..], false);
    }
  }

  lemma EntriesOfParts(lines: seq<string>, ps: Payments, debits: seq<PaymentId>, credits: seq<PaymentId>,
                       profile: Profile, day: Day)
    requires PrintsFile(lines, ps, debits, credits, profile, day)
    ensures Entries(lines) == |debits| + |credits|
  {
    var d, c := 1 + Extent(debits), 1 + Extent(debits) + Extent(credits);
    InFour(lines, 1, d, c);
    AllEntries(lines[..1], false);
    EntriesOfBatch(lines[1..d], ps, debits, Debit, profile, day);
    EntriesOfBatch(lines[d..c], ps, credits, Credit, profile, day);
    AllEntries(lines[c..], false);
  }

  /** Such a file has exactly as many entries as payments were exported with it. */
  lemma EntriesOfFile(lines: seq<string>, ps: Payments, f: nat, profile: Profile, day: Day)
    ensures PrintsFile(lines, ps, Sorted(ExportedIn(ps, f, Debit)), Sorted(ExportedIn(ps, f, Credit)), profile, day) ==>
              Entries(lines) == |set id | id in ps && ps[id].file == Some(f)|
  {
    var debits, credits := Sorted(ExportedIn(ps, f, Debit)), Sorted(ExportedIn(ps, f, Credit));
    if PrintsFile(lines, ps, debits, credits, profile, day) {
      EntriesOfParts(lines, ps, debits, credits, profile, day);
      BothDirections(ps, f);
    }
  }

  lemma BothDirections(ps: Payments, f: nat)
    ensures |set id | id in ps && ps[id].file == Some(f)|
         == |Sorted(ExportedIn(ps, f, Debit))| + |Sorted(ExportedIn(ps, f, Credit))|
  {
    assert (set id | id in ps && ps[id].file == Some(f)) == ExportedIn(ps, f, Debit) + ExportedIn(ps, f, Credit);
    assert ExportedIn(ps, f, Debit) !! ExportedIn(ps, f, Credit);
  }

  lemma EntriesSplit(lines: seq<string>, i: nat)
    requires i <= |lines|
    ensures Entries(lines) == Entries(lines[..i]) + Entries(lines[i..])
  {
    assert lines == lines[..i] + lines[i..];
    EntriesConcat(lines[..i], lines[i..]);
  }

  lemma InFour(lines: seq<string>, i: nat, j: nat, k: nat)
    requires i <= j <= k <= |lines|
    ensures Entries(lines) == Entries(lines[..i]) + Entries(lines[i..j]) + Entries(lines[j..k]) + Entries(lines[k..])
  {
    EntriesSplit(lines, k);
    EntriesSplit(lines[..k], j);
    EntriesSplit(lines[..j], i);
    assert lines[..k][..j] == lines[..j] && lines[..k][j..] == lines[j..k];
    assert lines[..j][..i] == lines[..i] && lines[..j][i..] == lines[i..j];
  }

  // ---------- The stored totals ----------

  /** The file control states the file's stored totals, each in the width of its column. */
  predicate StatesTotals(control: string, file: AchFile) {
    && file.debitTotal >= 0 && file.creditTotal >= 0
    && Num(control, 13, 8) == file.totalEntries % 100_000_000
    && Num(control, 21, 10) == file.entryHash
    && Num(control, 31, 10) == file.debitTotal % 10_000_000_000
    && Num(control, 41, 10) == file.creditTotal % 10_000_000_000
  }

  lemma ControlStatesTotals(items: seq<Item>, file: AchFile)
    requires Renderable(items) && Payable(items) && Clean(items) && file.day.month < 100 && file.day.date < 100
    requires file.totalEntries == |items| && file.entryHash == RdfiTotal(items) % HASH_MODULUS
    requires file.debitTotal == Total(Group(items, Debit)) && file.creditTotal == Total(Group(items, Credit))
    requires file.digestOf == FileText(items, file.day)
    ensures var control := ControlOf(Split(file.digestOf)); control.Some? && StatesTotals(control.value, file)
  {
    TextSplitsBack(items, file.day);
    TextAddsUp(items, file.day);
    FileControlReadsBack(items, file.day);
  }

  lemma ItemsArePayable(ps: Payments, merchants: Merchants, f: nat, m: MerchantId)
    requires CanRender(ps, merchants, Exported(ps, f)) && Rows(ps, merchants, Exported(ps, f), m)
    ensures Payable(ItemsOf(ps, merchants, Exported(ps, f)))
  {
    var order, items := Sorted(Exported(ps, f)), ItemsOf(ps, merchants, Exported(ps, f));
    forall i | 0 <= i < |items| ensures items[i].amount >= 0 {
      assert order[i] in order;
    }
  }

  lemma WholeStatesTotals(db: Db, f: nat)
    requires FilesOk(db.files, db.payments, db.merchants) && f < |db.files|
    requires Rows(db.payments, db.merchants, Exported(db.payments, f), db.files[f].companyId)
    requires db.files[f].day.month < 100 && db.files[f].day.date < 100
    requires CleanFile(db.payments, f, db.merchants[db.files[f].companyId].profile)
    ensures var control := ControlOf(Split(db.files[f].digestOf));
            control.Some? && StatesTotals(control.value, db.files[f])
  {
    var ids, m := Exported(db.payments, f), db.files[f].companyId;
    assert FileOk(f, db.files[f], db.payments, db.merchants);
    ItemsArePayable(db.payments, db.merchants, f, m);
    CleanIs(db.payments, db.merchants, f, m);
    ControlStatesTotals(ItemsOf(db.payments, db.merchants, ids), db.files[f]);
  }

  /** What is stored about a file: the count and the sums of the payments exported with it, which the control record
      of its text states too. */
  lemma StoredTotalsAreShown(db: Db, f: nat, maxAttempts: nat)
    requires System.Reachable(db, maxAttempts) && maxAttempts >= 1 && f < |db.files|
    requires db.files[f].day.month < 100 && db.files[f].day.date < 100
    ensures var file, ids := db.files[f], (set id | id in db.payments && db.payments[id].file == Some(f));
            && file.totalEntries == |ids|
            && file.debitTotal == ExportAll.AmountOf(db.payments, ids, Debit)
            && file.creditTotal == ExportAll.AmountOf(db.payments, ids, Credit)
            && file.companyId in db.merchants
            && (CleanFile(db.payments, f, db.merchants[file.companyId].profile) ==>
                  ControlOf(Split(file.digestOf)).Some?
                  && StatesTotals(ControlOf(Split(file.digestOf)).value, file))
  {
    Theorems.ReachableIsSafe(db, maxAttempts);
    StoredRows(db, f, maxAttempts);
    StoredSums(db, f);
    if CleanFile(db.payments, f, db.merchants[db.files[f].companyId].profile) {
      WholeStatesTotals(db, f);
    }
  }

  lemma StoredSums(db: Db, f: nat)
    requires FilesOk(db.files, db.payments, db.merchants) && f < |db.files|
    ensures var file, ids := db.files[f], (set id | id in db.payments && db.payments[id].file == Some(f));
            && file.totalEntries == |ids|
            && file.debitTotal == ExportAll.AmountOf(db.payments, ids, Debit)
            && file.creditTotal == ExportAll.AmountOf(db.payments, ids, Credit)
  {
    var file := db.files[f];
    assert FileOk(f, file, db.payments, db.merchants);
    ExportAll.FileTotals(db.payments, db.merchants, Exported(db.payments, f), file.companyId, file.day);
    assert Exported(db.payments, f) == set id | id in db.payments && db.payments[id].file == Some(f);
  }
}
