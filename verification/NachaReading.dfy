/** Reading a generated file back: what its entry, batch control and file control records add up to. */
module NachaReading {
  import opened Text
  import opened Store
  import opened Nacha
  import opened NachaRecords

  /** The numeric column of a record. */
  function Num(line: string, from: nat, width: nat): nat {
    if from + width <= |line| && AllDigits(line[from..from + width]) then Value(line[from..from + width]) else 0
  }

  datatype Totals = Totals(entries: nat, hash: nat, debit: nat, credit: nat)

  const NOTHING := Totals(0, 0, 0, 0)

  function Plus(a: Totals, b: Totals): Totals {
    Totals(a.entries + b.entries, a.hash + b.hash, a.debit + b.debit, a.credit + b.credit)
  }

  /** What one entry contributes; transaction code 27 is a debit and 22 a credit. */
  function EntryOf(line: string): Totals {
    if !StartsWith(line, '6') || |line| < 39 then NOTHING
    else
      var amount := Num(line, 29, 10);
      Totals(1, Num(line, 3, 8), if line[1..3] == "27" then amount else 0, if line[1..3] == "22" then amount else 0)
  }

  /** What a batch control claims. */
  function BatchOf(line: string): Totals {
    if !StartsWith(line, '8') || |line| < 40 then NOTHING
    else Totals(Num(line, 4, 6), Num(line, 10, 10), Num(line, 20, 10), Num(line, 30, 10))
  }

  /** What a file control claims. */
  function FileOf(line: string): Totals {
    Totals(Num(line, 13, 8), Num(line, 21, 10), Num(line, 31, 10), Num(line, 41, 10))
  }

  function SumOf(lines: seq<string>, f: string -> Totals): Totals {
    if lines == [] then NOTHING else Plus(f(lines[0]), SumOf(lines[1..], f))
  }

  lemma {:induction false} SumOfConcat(a: seq<string>, b: seq<string>, f: string -> Totals)
    ensures SumOf(a + b, f) == Plus(SumOf(a, f), SumOf(b, f))
    decreases |a|
  {
    if a == [] {
      assert a + b == b;
    } else {
      var rest := a[1..];
      SumOfConcat(rest, b, f);
      assert a + b == [a[0]] + (rest + b);
      SumOfCons(a[0], rest + b, f);
    }
  }

  lemma SumOfCons(line: string, rest: seq<string>, f: string -> Totals)
    ensures SumOf([line] + rest, f) == Plus(f(line), SumOf(rest, f))
  {
    assert ([line] + rest)[1..] == rest;
  }

  lemma {:induction false} SumOfNothing(lines: seq<string>, f: string -> Totals)
    requires forall i | 0 <= i < |lines| :: f(lines[i]) == NOTHING
    ensures SumOf(lines, f) == NOTHING
    decreases |lines|
  {
    if lines != [] {
      var rest := lines[1..];
      forall i | 0 <= i < |rest| ensures f(rest[i]) == NOTHING {
        assert rest[i] == lines[i + 1];
      }
      SumOfNothing(rest, f);
      assert f(lines[0]) == NOTHING;
    }
  }

  lemma {:induction false} SumOfSame(a: seq<string>, b: seq<string>, f: string -> Totals)
    requires |a| == |b| && forall i | 0 <= i < |a| :: f(a[i]) == f(b[i])
    ensures SumOf(a, f) == SumOf(b, f)
  {
    if a != [] {
      forall i | 0 <= i < |a[1..]| ensures f(a[1..][i]) == f(b[1..][i]) {
        assert a[1..][i] == a[i + 1] && b[1..][i] == b[i + 1];
      }
      SumOfSame(a[1..], b[1..], f);
    }
  }

  // ---------- Columns ----------

  lemma ColumnAt(before: string, column: string, after: string)
    ensures var line := before + column + after;
            && |before| + |column| <= |line|
            && line[|before|..|before| + |column|] == column
            && (AllDigits(column) ==> Num(line, |before|, |column|) == Value(column))
  {
    assert (before + column + after)[|before|..|before| + |column|] == column;
  }

  lemma TenDigits()
    ensures Pow10(10) == HASH_MODULUS && Pow10(8) == 100_000_000 && Pow10(6) == 1_000_000
  {
    assert Pow10(2) == 100;
    assert Pow10(4) == 10_000;
    assert Pow10(6) == 1_000_000;
    assert Pow10(8) == 100_000_000;
  }

  /** `cents(v)` reads back as v modulo 10^10. */
  lemma CentsReadBack(v: nat)
    ensures AllDigits(Cents(v)) && Value(Cents(v)) == v % HASH_MODULUS
  {
    TenDigits();
    NumberReadsBack(v, 10);
  }

  lemma RdfiReadsBack(item: Item)
    requires AllDigits(Rdfi(item))
    ensures AllDigits(Digits(Rdfi(item), 8)) && Value(Digits(Rdfi(item), 8)) == Value(Rdfi(item))
  {
    TenDigits();
    DigitsReadsBack(Rdfi(item), 8);
    ValueBelowPow10(Rdfi(item));
    Pow10Grows(|Rdfi(item)|, 8);
  }

  /** Padding a record on the right changes none of its columns. */
  lemma PaddingKeepsNum(line: string, pad: string, from: nat, width: nat)
    requires from + width <= |line|
    ensures Num(line + pad, from, width) == Num(line, from, width)
  {
    assert (line + pad)[from..from + width] == line[from..from + width];
  }

  lemma PaddingKeepsEntry(line: string, pad: string)
    requires 39 <= |line|
    ensures EntryOf(line + pad) == EntryOf(line)
  {
    PaddingKeepsNum(line, pad, 29, 10);
    PaddingKeepsNum(line, pad, 3, 8);
    assert (line + pad)[1..3] == line[1..3];
  }

  lemma PaddingKeepsBatch(line: string, pad: string)
    requires 40 <= |line|
    ensures BatchOf(line + pad) == BatchOf(line)
  {
    PaddingKeepsNum(line, pad, 4, 6);
    PaddingKeepsNum(line, pad, 10, 10);
    PaddingKeepsNum(line, pad, 20, 10);
    PaddingKeepsNum(line, pad, 30, 10);
  }

  // ---------- Entries ----------

  function Code(direction: Direction): string {
    Digits(if direction.Debit? then "27" else "22", 2)
  }

  function OfAmount(direction: Direction, hash: nat, amount: nat): Totals {
    Totals(1, hash, if direction.Debit? then amount else 0, if direction.Credit? then amount else 0)
  }

  lemma EntryCode(direction: Direction, item: Item)
    ensures EntryHead(direction, item)[0] == '6' && EntryHead(direction, item)[1..3] == Code(direction)
  {
    var rest := Digits(Rdfi(item), 8) + AccountText(item) + Cents(item.amount);
    assert EntryHead(direction, item) == "6" + Code(direction) + rest;
    ColumnAt("6", Code(direction), rest);
  }

  lemma EntryRdfi(direction: Direction, item: Item)
    requires AllDigits(Rdfi(item))
    ensures Num(EntryHead(direction, item), 3, 8) == Value(Rdfi(item))
  {
    var rdfi := Digits(Rdfi(item), 8);
    var rest := AccountText(item) + Cents(item.amount);
    assert EntryHead(direction, item) == ("6" + Code(direction)) + rdfi + rest;
    RdfiReadsBack(item);
    ColumnAt("6" + Code(direction), rdfi, rest);
  }

  lemma EntryAmount(direction: Direction, item: Item)
    requires item.amount >= 0
    ensures Num(EntryHead(direction, item), 29, 10) == item.amount % HASH_MODULUS
  {
    var before := "6" + Code(direction) + Digits(Rdfi(item), 8) + AccountText(item);
    assert EntryHead(direction, item) == before + Cents(item.amount) + "";
    CentsReadBack(item.amount);
    ColumnAt(before, Cents(item.amount), "");
  }

  lemma CodesDiffer(direction: Direction)
    ensures (Code(direction) == "27") == direction.Debit? && (Code(direction) == "22") == direction.Credit?
  {
    if direction.Debit? {
      assert Code(direction) == "27" && Code(direction)[1] != "22"[1];
    } else {
      assert Code(direction) == "22" && Code(direction)[1] != "27"[1];
    }
  }

  lemma EntryReads(direction: Direction, item: Item, index: nat)
    requires AllDigits(Rdfi(item)) && item.amount >= 0
    ensures EntryOf(EntryLine(direction, item, index))
         == OfAmount(direction, Value(Rdfi(item)), item.amount % HASH_MODULUS)
  {
    var head := EntryHead(direction, item);
    EntryCode(direction, item);
    EntryRdfi(direction, item);
    EntryAmount(direction, item);
    CodesDiffer(direction);
    PaddingKeepsEntry(head, EntryTail(item, index));
  }

  /** What the entries of one direction carry. */
  function Carries(direction: Direction, group: seq<Item>): Totals
    requires Renderable(group) && Total(group) >= 0
  {
    Totals(|group|, RdfiTotal(group), if direction.Debit? then Total(group) else 0,
           if direction.Credit? then Total(group) else 0)
  }

  predicate Payable(items: seq<Item>) {
    forall i | 0 <= i < |items| :: items[i].amount >= 0
  }

  lemma {:induction false} TotalIsNonNegative(items: seq<Item>)
    requires Payable(items)
    ensures Total(items) >= 0
  {
    if items != [] {
      TotalIsNonNegative(items[1..]);
    }
  }

  /** t reads v: the same count and hash, amounts congruent modulo 10^10 and never larger. */
  predicate Reads(t: Totals, v: Totals) {
    && t.entries == v.entries && t.hash == v.hash
    && t.debit <= v.debit && t.debit % HASH_MODULUS == v.debit % HASH_MODULUS
    && t.credit <= v.credit && t.credit % HASH_MODULUS == v.credit % HASH_MODULUS
  }

  lemma SumsReadAlike(x: nat, y: nat, x': nat, y': nat)
    requires x <= y && x % HASH_MODULUS == y % HASH_MODULUS && x' <= y' && x' % HASH_MODULUS == y' % HASH_MODULUS
    ensures x + x' <= y + y' && (x + x') % HASH_MODULUS == (y + y') % HASH_MODULUS
  {
    ModuloAdds(x, x');
    ModuloAdds(y, y');
  }

  lemma ReadsPlus(t: Totals, v: Totals, t': Totals, v': Totals)
    requires Reads(t, v) && Reads(t', v')
    ensures Reads(Plus(t, t'), Plus(v, v'))
  {
    SumsReadAlike(t.debit, v.debit, t'.debit, v'.debit);
    SumsReadAlike(t.credit, v.credit, t'.credit, v'.credit);
  }

  lemma CarriesCons(direction: Direction, group: seq<Item>)
    requires Renderable(group) && Payable(group) && group != []
    ensures AllDigits(Rdfi(group[0])) && Total(group) >= 0 && Total(group[1..]) >= 0
    ensures Carries(direction, group)
         == Plus(OfAmount(direction, Value(Rdfi(group[0])), group[0].amount), Carries(direction, group[1..]))
  {
    TotalIsNonNegative(group[1..]);
  }

  lemma NarrowAmountReads(direction: Direction, hash: nat, amount: nat)
    ensures Reads(OfAmount(direction, hash, amount % HASH_MODULUS), OfAmount(direction, hash, amount))
  {
    ModuloAdds(amount, 0);
  }

  lemma EntryIsRead(direction: Direction, item: Item, index: nat)
    requires AllDigits(Rdfi(item)) && item.amount >= 0
    ensures Reads(EntryOf(EntryLine(direction, item, index)), OfAmount(direction, Value(Rdfi(item)), item.amount))
  {
    EntryReads(direction, item, index);
    NarrowAmountReads(direction, Value(Rdfi(item)), item.amount);
  }

  ghost predicate AreEntries(lines: seq<string>, direction: Direction, group: seq<Item>, start: nat) {
    |lines| == |group| && forall i | 0 <= i < |group| :: lines[i] == EntryLine(direction, group[i], start + i)
  }

  lemma EntriesTail(lines: seq<string>, direction: Direction, group: seq<Item>, start: nat)
    requires AreEntries(lines, direction, group, start) && group != []
    ensures AreEntries(lines[1..], direction, group[1..], start + 1)
    ensures lines[0] == EntryLine(direction, group[0], start)
  {
    forall i | 0 <= i < |group[1..]| ensures lines[1..][i] == EntryLine(direction, group[1..][i], start + 1 + i) {
      assert lines[1..][i] == lines[i + 1] && start + 1 + i == start + (i + 1);
    }
  }

  lemma {:induction false} EntriesRead(direction: Direction, group: seq<Item>, lines: seq<string>, start: nat)
    requires Renderable(group) && Payable(group) && AreEntries(lines, direction, group, start)
    ensures Total(group) >= 0 && Reads(SumOf(lines, EntryOf), Carries(direction, group))
    decreases |group|
  {
    if group != [] {
      EntriesTail(lines, direction, group, start);
      EntriesRead(direction, group[1..], lines[1..], start + 1);
      CarriesCons(direction, group);
      EntryIsRead(direction, group[0], start);
      var first := OfAmount(direction, Value(Rdfi(group[0])), group[0].amount);
      ReadsPlus(EntryOf(lines[0]), first, SumOf(lines[1..], EntryOf), Carries(direction, group[1..]));
    }
  }

  // ---------- Batches ----------

  lemma {:induction false} GroupOfGroup(items: seq<Item>, direction: Direction, other: Direction)
    ensures Group(Group(items, direction), other) == if other == direction then Group(items, direction) else []
  {
    if items != [] {
      GroupOfGroup(items[1..], direction, other);
      if items[0].direction == direction {
        assert ([items[0]] + Group(items[1..], direction))[1..] == Group(items[1..], direction);
      }
    }
  }

  lemma {:induction false} GroupIsPayable(items: seq<Item>, direction: Direction)
    requires Payable(items)
    ensures Payable(Group(items, direction))
  {
  }

  /** What a batch control of this direction claims. */
  function Claims(direction: Direction, group: seq<Item>): Totals
    requires Renderable(group) && Total(group) >= 0
  {
    Claimed(Carries(direction, group))
  }

  function Claimed(v: Totals): Totals {
    Totals(v.entries % 1_000_000, v.hash % HASH_MODULUS, v.debit % HASH_MODULUS, v.credit % HASH_MODULUS)
  }

  lemma TenDigitNumber(n: nat)
    requires n < HASH_MODULUS
    ensures AllDigits(Digits(Decimal(n), 10)) && Value(Digits(Decimal(n), 10)) == n
  {
    TenDigits();
    NumberReadsBack(n, 10);
  }

  lemma HashReadsBack(items: seq<Item>)
    requires Renderable(items)
    ensures AllDigits(HashText(items)) && Value(HashText(items)) == RdfiTotal(items) % HASH_MODULUS
  {
    TenDigitNumber(RdfiTotal(items) % HASH_MODULUS);
  }

  lemma AmountsReadBack(before: string, items: seq<Item>)
    requires Total(Group(items, Debit)) >= 0 && Total(Group(items, Credit)) >= 0
    ensures var line := before + AmountsText(items);
            && Num(line, |before|, 10) == Total(Group(items, Debit)) % HASH_MODULUS
            && Num(line, |before| + 10, 10) == Total(Group(items, Credit)) % HASH_MODULUS
  {
    var debit, credit := Cents(Total(Group(items, Debit))), Cents(Total(Group(items, Credit)));
    assert before + AmountsText(items) == before + debit + credit == (before + debit) + credit + "";
    CentsReadBack(Total(Group(items, Debit)));
    CentsReadBack(Total(Group(items, Credit)));
    ColumnAt(before, debit, credit);
    ColumnAt(before + debit, credit, "");
  }

  lemma ControlCount(group: seq<Item>)
    requires Renderable(group)
    ensures BatchTotals(group)[0] == '8' && Num(BatchTotals(group), 4, 6) == |group| % 1_000_000
  {
    var count := Digits(Decimal(|group|), 6);
    var start := "8" + Digits("200", 3);
    assert BatchTotals(group) == start + count + (HashText(group) + AmountsText(group));
    TenDigits();
    NumberReadsBack(|group|, 6);
    ColumnAt(start, count, HashText(group) + AmountsText(group));
  }

  lemma ControlHash(group: seq<Item>)
    requires Renderable(group)
    ensures Num(BatchTotals(group), 10, 10) == RdfiTotal(group) % HASH_MODULUS
  {
    HashReadsBack(group);
    ColumnAt("8" + Digits("200", 3) + Digits(Decimal(|group|), 6), HashText(group), AmountsText(group));
  }

  lemma ControlAmounts(group: seq<Item>)
    requires Renderable(group) && Total(Group(group, Debit)) >= 0 && Total(Group(group, Credit)) >= 0
    ensures var line := BatchTotals(group);
            && Num(line, 20, 10) == Total(Group(group, Debit)) % HASH_MODULUS
            && Num(line, 30, 10) == Total(Group(group, Credit)) % HASH_MODULUS
  {
    AmountsReadBack("8" + Digits("200", 3) + Digits(Decimal(|group|), 6) + HashText(group), group);
  }

  lemma TotalsRead(group: seq<Item>, direction: Direction)
    requires Renderable(group) && Total(group) >= 0
    requires Group(group, Debit) == if direction.Debit? then group else []
    requires Group(group, Credit) == if direction.Credit? then group else []
    ensures BatchOf(BatchTotals(group)) == Claims(direction, group)
  {
    ControlCount(group);
    ControlHash(group);
    ControlAmounts(group);
  }

  lemma ControlReads(group: seq<Item>, direction: Direction, company: Company)
    requires Renderable(group) && Total(group) >= 0
    requires Group(group, Debit) == if direction.Debit? then group else []
    requires Group(group, Credit) == if direction.Credit? then group else []
    ensures BatchOf(BatchControl(group, company)) == Claims(direction, group)
  {
    TotalsRead(group, direction);
    PaddingKeepsBatch(BatchTotals(group), BatchTrailer(company));
  }

  // ---------- The file control ----------

  /** What a whole file carries. */
  function CarriedBy(items: seq<Item>): Totals
    requires Renderable(items) && Total(Group(items, Debit)) >= 0 && Total(Group(items, Credit)) >= 0
  {
    Totals(|items|, RdfiTotal(items), Total(Group(items, Debit)), Total(Group(items, Credit)))
  }

  lemma FileCount(batches: nat, blocks: string, items: seq<Item>)
    requires Renderable(items) && |blocks| == 6
    ensures Num(FileTotals(batches, blocks, items), 13, 8) == |items| % 100_000_000
  {
    var count := Digits(Decimal(|items|), 8);
    var start := "9" + Digits(Decimal(batches), 6) + blocks;
    assert FileTotals(batches, blocks, items) == start + count + (HashText(items) + AmountsText(items));
    TenDigits();
    NumberReadsBack(|items|, 8);
    ColumnAt(start, count, HashText(items) + AmountsText(items));
  }

  lemma FileHash(batches: nat, blocks: string, items: seq<Item>)
    requires Renderable(items) && |blocks| == 6
    ensures Num(FileTotals(batches, blocks, items), 21, 10) == RdfiTotal(items) % HASH_MODULUS
  {
    HashReadsBack(items);
    ColumnAt("9" + Digits(Decimal(batches), 6) + blocks + Digits(Decimal(|items|), 8), HashText(items),
             AmountsText(items));
  }

  lemma FileAmounts(batches: nat, blocks: string, items: seq<Item>)
    requires Renderable(items) && |blocks| == 6
    requires Total(Group(items, Debit)) >= 0 && Total(Group(items, Credit)) >= 0
    ensures var line := FileTotals(batches, blocks, items);
            && Num(line, 31, 10) == Total(Group(items, Debit)) % HASH_MODULUS
            && Num(line, 41, 10) == Total(Group(items, Credit)) % HASH_MODULUS
  {
    AmountsReadBack("9" + Digits(Decimal(batches), 6) + blocks + Digits(Decimal(|items|), 8) + HashText(items), items);
  }

  lemma PaddingKeepsFile(line: string, pad: string)
    requires 51 <= |line|
    ensures FileOf(line + pad) == FileOf(line)
  {
    PaddingKeepsNum(line, pad, 13, 8);
    PaddingKeepsNum(line, pad, 21, 10);
    PaddingKeepsNum(line, pad, 31, 10);
    PaddingKeepsNum(line, pad, 41, 10);
  }

  /** The columns of the control record, each modulo its width. */
  function Narrowed(v: Totals): Totals {
    Totals(v.entries % 100_000_000, v.hash % HASH_MODULUS, v.debit % HASH_MODULUS, v.credit % HASH_MODULUS)
  }

  lemma FileControlReads(batches: nat, blocks: string, items: seq<Item>)
    requires Renderable(items) && |blocks| == 6
    requires Total(Group(items, Debit)) >= 0 && Total(Group(items, Credit)) >= 0
    ensures FileOf(FileControl(batches, blocks, items)) == Narrowed(CarriedBy(items))
  {
    FileCount(batches, blocks, items);
    FileHash(batches, blocks, items);
    FileAmounts(batches, blocks, items);
    PaddingKeepsFile(FileTotals(batches, blocks, items), Field("", 39));
  }

  // ---------- The whole file ----------

  lemma {:induction false} GroupsCover(items: seq<Item>)
    requires Renderable(items)
    ensures var d, c := Group(items, Debit), Group(items, Credit);
            && Renderable(d) && Renderable(c)
            && |d| + |c| == |items| && RdfiTotal(d) + RdfiTotal(c) == RdfiTotal(items)
  {
    if items != [] {
      GroupsCover(items[1..]);
      GroupIsRenderable(items, Debit);
      GroupIsRenderable(items, Credit);
      var d, c := Group(items[1..], Debit), Group(items[1..], Credit);
      assert ([items[0]] + d)[1..] == d && ([items[0]] + c)[1..] == c;
    }
  }

  lemma SplitOf(items: seq<Item>)
    requires Renderable(items) && Payable(items)
    ensures var d, c := Group(items, Debit), Group(items, Credit);
            && Renderable(d) && Renderable(c) && Total(d) >= 0 && Total(c) >= 0
            && CarriedBy(items) == Plus(Carries(Debit, d), Carries(Credit, c))
  {
    GroupsCover(items);
    GroupIsPayable(items, Debit);
    GroupIsPayable(items, Credit);
    TotalIsNonNegative(Group(items, Debit));
    TotalIsNonNegative(Group(items, Credit));
  }

  lemma HeadersCarryNothing(yymmdd: string, direction: Direction, company: Company)
    ensures EntryOf(FileHeader(yymmdd)) == NOTHING && BatchOf(FileHeader(yymmdd)) == NOTHING
    ensures EntryOf(BatchHeader(direction, company, yymmdd)) == NOTHING
    ensures BatchOf(BatchHeader(direction, company, yymmdd)) == NOTHING
  {
    assert FileHeader(yymmdd)[0] == '1';
    assert BatchHeader(direction, company, yymmdd)[0] == '5';
  }

  lemma PlusNothing(t: Totals)
    ensures Plus(t, NOTHING) == t && Plus(NOTHING, t) == t
  {
  }

  lemma SumOfThree(first: seq<string>, middle: seq<string>, last: seq<string>, f: string -> Totals)
    ensures SumOf(first + middle + last, f) == Plus(Plus(SumOf(first, f), SumOf(middle, f)), SumOf(last, f))
  {
    SumOfConcat(first + middle, last, f);
    SumOfConcat(first, middle, f);
  }

  lemma SumOfOne(line: string, f: string -> Totals)
    ensures SumOf([line], f) == f(line)
  {
    SumOfCons(line, [], f);
    assert [line] + [] == [line];
  }

  lemma EntriesAreNoControls(direction: Direction, group: seq<Item>)
    ensures SumOf(EntryLines(direction, group), BatchOf) == NOTHING
  {
    var lines := EntryLines(direction, group);
    forall i | 0 <= i < |lines| ensures BatchOf(lines[i]) == NOTHING {
      assert lines[i] == EntryLine(direction, group[i], i);
      assert EntryLine(direction, group[i], i)[0] == '6';
    }
    SumOfNothing(lines, BatchOf);
  }

  lemma ControlIsNoEntry(group: seq<Item>, company: Company)
    requires Renderable(group)
    ensures EntryOf(BatchControl(group, company)) == NOTHING
  {
    ControlCount(group);
    assert BatchControl(group, company)[0] == BatchTotals(group)[0];
  }

  /** A batch given by its parts. */
  lemma SumOfFramed(header: string, entries: seq<string>, control: string, f: string -> Totals)
    requires f(header) == NOTHING
    ensures SumOf([header] + entries + [control], f) == Plus(SumOf(entries, f), f(control))
  {
    SumOfThree([header], entries, [control], f);
    SumOfOne(header, f);
    SumOfOne(control, f);
    PlusNothing(SumOf(entries, f));
  }

  lemma EntriesOfBatch(header: string, entries: seq<string>, control: string)
    requires EntryOf(header) == NOTHING && EntryOf(control) == NOTHING
    ensures SumOf([header] + entries + [control], EntryOf) == SumOf(entries, EntryOf)
  {
    SumOfFramed(header, entries, control, EntryOf);
    PlusNothing(SumOf(entries, EntryOf));
  }

  lemma ControlsOfBatch(header: string, entries: seq<string>, control: string)
    requires BatchOf(header) == NOTHING && SumOf(entries, BatchOf) == NOTHING
    ensures SumOf([header] + entries + [control], BatchOf) == BatchOf(control)
  {
    SumOfFramed(header, entries, control, BatchOf);
    PlusNothing(BatchOf(control));
  }

  function HeaderOf(items: seq<Item>, direction: Direction, yymmdd: string): string
    requires Group(items, direction) != []
  {
    BatchHeader(direction, Group(items, direction)[0].company, yymmdd)
  }

  lemma BatchEntriesRead(items: seq<Item>, direction: Direction, yymmdd: string)
    requires Renderable(items) && Payable(items)
    ensures var group := Group(items, direction);
            && Renderable(group) && Total(group) >= 0
            && Reads(SumOf(Batch(items, direction, yymmdd), EntryOf), Carries(direction, group))
  {
    var group := Group(items, direction);
    GroupIsRenderable(items, direction);
    GroupIsPayable(items, direction);
    EntriesRead(direction, group, EntryLines(direction, group), 0);
    if group != [] {
      HeadersCarryNothing(yymmdd, direction, group[0].company);
      ControlIsNoEntry(group, group[0].company);
      EntriesOfBatch(HeaderOf(items, direction, yymmdd), EntryLines(direction, group),
                     BatchControl(group, group[0].company));
    }
  }

  lemma BatchControlsRead(items: seq<Item>, direction: Direction, yymmdd: string)
    requires Renderable(items) && Payable(items)
    ensures var group := Group(items, direction);
            && Renderable(group) && Total(group) >= 0
            && SumOf(Batch(items, direction, yymmdd), BatchOf) == Claims(direction, group)
  {
    var group := Group(items, direction);
    GroupIsRenderable(items, direction);
    GroupIsPayable(items, direction);
    TotalIsNonNegative(group);
    if group != [] {
      GroupOfGroup(items, direction, Debit);
      GroupOfGroup(items, direction, Credit);
      ControlReads(group, direction, group[0].company);
      HeadersCarryNothing(yymmdd, direction, group[0].company);
      EntriesAreNoControls(direction, group);
      ControlsOfBatch(HeaderOf(items, direction, yymmdd), EntryLines(direction, group),
                      BatchControl(group, group[0].company));
    }
  }

  lemma TailCarriesNothing(items: seq<Item>, body: nat)
    requires Renderable(items)
    ensures SumOf(Tail(items, body), EntryOf) == NOTHING && SumOf(Tail(items, body), BatchOf) == NOTHING
  {
    var tail := Tail(items, body);
    TailIs(items, body);
    assert FILLER[0] == '9';
    SumOfNothing(tail, EntryOf);
    SumOfNothing(tail, BatchOf);
  }

  lemma SumOfFile(header: seq<string>, debits: seq<string>, credits: seq<string>, tail: seq<string>,
                  f: string -> Totals)
    requires SumOf(header, f) == NOTHING && SumOf(tail, f) == NOTHING
    ensures SumOf(header + debits + credits + tail, f) == Plus(SumOf(debits, f), SumOf(credits, f))
  {
    SumOfConcat(header + debits + credits, tail, f);
    PlusNothing(SumOf(header + debits + credits, f));
    SumOfThree(header, debits, credits, f);
    PlusNothing(SumOf(debits, f));
  }

  lemma SumOfLines(items: seq<Item>, yymmdd: string)
    requires Renderable(items)
    ensures var d, c := Batch(items, Debit, yymmdd), Batch(items, Credit, yymmdd);
            && SumOf(Lines(items, yymmdd), EntryOf) == Plus(SumOf(d, EntryOf), SumOf(c, EntryOf))
            && SumOf(Lines(items, yymmdd), BatchOf) == Plus(SumOf(d, BatchOf), SumOf(c, BatchOf))
  {
    var d, c := Batch(items, Debit, yymmdd), Batch(items, Credit, yymmdd);
    var header := [FileHeader(yymmdd)];
    var tail := Tail(items, |Body(items, yymmdd)|);
    HeadersCarryNothing(yymmdd, Debit, Company("", ""));
    SumOfOne(FileHeader(yymmdd), EntryOf);
    SumOfOne(FileHeader(yymmdd), BatchOf);
    TailCarriesNothing(items, |Body(items, yymmdd)|);
    SumOfFile(header, d, c, tail, EntryOf);
    SumOfFile(header, d, c, tail, BatchOf);
  }

  lemma SumOfPadded(lines: seq<string>)
    requires Fit(lines)
    ensures SumOf(Padded(lines), EntryOf) == SumOf(lines, EntryOf)
    ensures SumOf(Padded(lines), BatchOf) == SumOf(lines, BatchOf)
  {
    PaddingOnly(lines);
    forall i | 0 <= i < |lines|
      ensures EntryOf(Padded(lines)[i]) == EntryOf(lines[i]) && BatchOf(Padded(lines)[i]) == BatchOf(lines[i])
    {
      PaddingKeepsEntry(lines[i], Repeat(' ', WIDTH - |lines[i]|));
      PaddingKeepsBatch(lines[i], Repeat(' ', WIDTH - |lines[i]|));
    }
    SumOfSame(Padded(lines), lines, EntryOf);
    SumOfSame(Padded(lines), lines, BatchOf);
  }

  lemma EntriesReadBack(items: seq<Item>, day: Day)
    requires Renderable(items) && Payable(items) && day.month < 100 && day.date < 100
    ensures Total(Group(items, Debit)) >= 0 && Total(Group(items, Credit)) >= 0
    ensures Reads(SumOf(Padded(Lines(items, Yymmdd(day))), EntryOf), CarriedBy(items))
  {
    var y := Yymmdd(day);
    var d, c := Group(items, Debit), Group(items, Credit);
    LinesFit(items, day);
    SumOfPadded(Lines(items, y));
    SumOfLines(items, y);
    BatchEntriesRead(items, Debit, y);
    BatchEntriesRead(items, Credit, y);
    SplitOf(items);
    ReadsPlus(SumOf(Batch(items, Debit, y), EntryOf), Carries(Debit, d),
              SumOf(Batch(items, Credit, y), EntryOf), Carries(Credit, c));
  }

  lemma ControlsReadBack(items: seq<Item>, day: Day)
    requires Renderable(items) && Payable(items) && day.month < 100 && day.date < 100
    ensures var d, c := Group(items, Debit), Group(items, Credit);
            && Renderable(d) && Renderable(c) && Total(d) >= 0 && Total(c) >= 0
            && SumOf(Padded(Lines(items, Yymmdd(day))), BatchOf) == Plus(Claims(Debit, d), Claims(Credit, c))
  {
    var y := Yymmdd(day);
    LinesFit(items, day);
    SumOfPadded(Lines(items, y));
    SumOfLines(items, y);
    BatchControlsRead(items, Debit, y);
    BatchControlsRead(items, Credit, y);
  }

  lemma {:induction false} FirstNineOfPadded(lines: seq<string>)
    requires Fit(lines)
    ensures FirstNine(Padded(lines)) == FirstNine(lines)
  {
    PaddingOnly(lines);
    forall i | 0 <= i < |lines| ensures StartsWith(Padded(lines)[i], '9') == StartsWith(lines[i], '9') {
      assert Padded(lines)[i][0] == lines[i][0];
    }
    var i, j := FirstNine(lines), FirstNine(Padded(lines));
    assert !(i < j) && !(j < i);
  }

  lemma FileControlReadsBack(items: seq<Item>, day: Day)
    requires Renderable(items) && day.month < 100 && day.date < 100
    requires Total(Group(items, Debit)) >= 0 && Total(Group(items, Credit)) >= 0
    ensures var control := ControlOf(Padded(Lines(items, Yymmdd(day))));
            control.Some? && FileOf(control.value) == Narrowed(CarriedBy(items))
  {
    var lines := Lines(items, Yymmdd(day));
    LinesFit(items, day);
    BlocksAreFull(items, Yymmdd(day));
    FirstNineOfPadded(lines);
    var line := ControlOf(lines).value;
    FileControlReads(BatchCount(items), Digits(Decimal(|lines| / 10), 6), items);
    PaddingKeepsFile(line, Repeat(' ', WIDTH - |line|));
  }

  /** Two readings of the same file agree modulo 10^10 in hash and amounts. */
  predicate Congruent(a: Totals, b: Totals) {
    && a.hash % HASH_MODULUS == b.hash % HASH_MODULUS
    && a.debit % HASH_MODULUS == b.debit % HASH_MODULUS
    && a.credit % HASH_MODULUS == b.credit % HASH_MODULUS
  }

  predicate Fits(v: Totals) {
    v.entries < 1_000_000 && v.hash < HASH_MODULUS && v.debit < HASH_MODULUS && v.credit < HASH_MODULUS
  }

  lemma ModuloAdds(x: nat, y: nat)
    ensures (x % HASH_MODULUS + y % HASH_MODULUS) % HASH_MODULUS == (x + y) % HASH_MODULUS
    ensures x + y < HASH_MODULUS ==> x % HASH_MODULUS + y % HASH_MODULUS == x + y
  {
  }

  lemma CountsAdd(x: nat, y: nat)
    ensures (x % 1_000_000 + y % 1_000_000) % 1_000_000 == (x + y) % 1_000_000
    ensures x + y < 1_000_000 ==> x % 1_000_000 + y % 1_000_000 == x + y
  {
  }

  /** One field of a claim: c holds the sum of two narrowed values, v the sum of the values. */
  predicate FieldAddsUp(c: nat, v: nat, width: nat)
    requires width > 0
  {
    c % width == v % width && (v < width ==> c == v)
  }

  lemma ClaimedAddsUp(x: Totals, y: Totals)
    ensures var c, v := Plus(Claimed(x), Claimed(y)), Plus(x, y);
            && FieldAddsUp(c.entries, v.entries, 1_000_000) && FieldAddsUp(c.hash, v.hash, HASH_MODULUS)
            && FieldAddsUp(c.debit, v.debit, HASH_MODULUS) && FieldAddsUp(c.credit, v.credit, HASH_MODULUS)
  {
    CountsAdd(x.entries, y.entries);
    ModuloAdds(x.hash, y.hash);
    ModuloAdds(x.debit, y.debit);
    ModuloAdds(x.credit, y.credit);
  }

  lemma FieldsAddUp(c: Totals, v: Totals)
    requires FieldAddsUp(c.entries, v.entries, 1_000_000) && FieldAddsUp(c.hash, v.hash, HASH_MODULUS)
    requires FieldAddsUp(c.debit, v.debit, HASH_MODULUS) && FieldAddsUp(c.credit, v.credit, HASH_MODULUS)
    ensures Congruent(c, v) && c.entries % 1_000_000 == v.entries % 1_000_000 && (Fits(v) ==> c == v)
  {
  }

  lemma ClaimsAddUp(d: seq<Item>, c: seq<Item>, v: Totals)
    requires Renderable(d) && Renderable(c) && Total(d) >= 0 && Total(c) >= 0
    requires v == Plus(Carries(Debit, d), Carries(Credit, c))
    ensures var claims := Plus(Claims(Debit, d), Claims(Credit, c));
            && Congruent(claims, v) && claims.entries % 1_000_000 == v.entries % 1_000_000
            && (Fits(v) ==> claims == v)
  {
    ClaimedAddsUp(Carries(Debit, d), Carries(Credit, c));
    FieldsAddUp(Plus(Claims(Debit, d), Claims(Credit, c)), v);
  }

  /** The three levels of a file add up: what its entry lines carry, what its batch controls claim and what its
      file control claims agree modulo the width of each field, and are the true totals `v` of the payments
      whenever those fit their fields. */
  ghost predicate AddsUp(lines: seq<string>, v: Totals) {
    var entries, batches := SumOf(lines, EntryOf), SumOf(lines, BatchOf);
    && ControlOf(lines).Some?
    && var control := FileOf(ControlOf(lines).value);
       && control == Narrowed(entries) == Narrowed(v)
       && Congruent(batches, entries) && batches.entries % 1_000_000 == entries.entries % 1_000_000
       && entries.entries == v.entries
       && (Fits(v) ==> control == batches == entries == v)
  }

  /** A generated file adds up to the payments it carries. */
  lemma FileAddsUp(items: seq<Item>, day: Day)
    requires Renderable(items) && Payable(items) && day.month < 100 && day.date < 100
    ensures Total(Group(items, Debit)) >= 0 && Total(Group(items, Credit)) >= 0
    ensures AddsUp(Padded(Lines(items, Yymmdd(day))), CarriedBy(items)) && CarriedBy(items).entries == |items|
  {
    var d, c := Group(items, Debit), Group(items, Credit);
    EntriesReadBack(items, day);
    ControlsReadBack(items, day);
    FileControlReadsBack(items, day);
    SplitOf(items);
    ClaimsAddUp(d, c, CarriedBy(items));
    ReadingsAgree(SumOf(Padded(Lines(items, Yymmdd(day))), EntryOf), CarriedBy(items));
  }

  lemma ReadingsAgree(t: Totals, v: Totals)
    requires Reads(t, v)
    ensures Narrowed(t) == Narrowed(v) && Congruent(t, v)
    ensures Fits(v) ==> t == v && Narrowed(v) == v
  {
    if Fits(v) {
      assert t.debit == v.debit && t.credit == v.credit;
    }
  }

  // ---------- The parties ----------

  lemma TextAt(before: string, column: string, after: string, line: string)
    requires line == before + column + after
    ensures |before| + |column| <= |line| && line[|before|..|before| + |column|] == column
  {
  }

  lemma TailColumns(item: Item, index: nat)
    ensures EntryTail(item, index)[15..37] == Field(item.receiverName, 22)
    ensures EntryTail(item, index)[39..54] == Digits(Decimal(index + 1), 15)
  {
    var blank, name, number := Field("", 15), Field(item.receiverName, 22), Digits(Decimal(index + 1), 15);
    assert EntryTail(item, index) == blank + name + (" 0" + number);
    TextAt(blank, name, " 0" + number, EntryTail(item, index));
    TextAt(blank + name + " 0", number, "", EntryTail(item, index));
  }

  lemma Sliced(head: string, tail: string, i: nat, j: nat)
    requires i <= j <= |tail|
    ensures (head + tail)[|head| + i..|head| + j] == tail[i..j]
  {
  }

  lemma SlicedHead(head: string, tail: string, i: nat, j: nat)
    requires i <= j <= |head|
    ensures (head + tail)[i..j] == head[i..j]
  {
  }

  /** Where an entry names the receiver's account and the receiver, and where its number stands. */
  lemma EntryNamesReceiver(direction: Direction, item: Item, index: nat)
    ensures EntryLine(direction, item, index)[12..29] == Field(item.receiverAccountRef, 17)
    ensures EntryLine(direction, item, index)[54..76] == Field(item.receiverName, 22)
    ensures EntryLine(direction, item, index)[78..93] == Digits(Decimal(index + 1), 15)
  {
    var head, tail := EntryHead(direction, item), EntryTail(item, index);
    AccountColumn(direction, item);
    SlicedHead(head, tail, 12, 29);
    TailColumns(item, index);
    Sliced(head, tail, 15, 37);
    Sliced(head, tail, 39, 54);
  }

  lemma AccountColumn(direction: Direction, item: Item)
    ensures EntryHead(direction, item)[12..29] == Field(item.receiverAccountRef, 17)
  {
    var digit := [if |item.routingNumber| > 8 then item.routingNumber[8] else '0'];
    var before := "6" + Code(direction) + Digits(Rdfi(item), 8) + digit;
    assert EntryHead(direction, item) == before + Field(item.receiverAccountRef, 17) + Cents(item.amount);
    TextAt(before, Field(item.receiverAccountRef, 17), Cents(item.amount), EntryHead(direction, item));
  }

  lemma CompanyName(direction: Direction, company: Company, yymmdd: string)
    ensures BatchHeader(direction, company, yymmdd)[4..20] == Field(company.legalName, 16)
  {
    var start, name := HeaderStart(direction), Field(company.legalName, 16);
    var rest := Field("", 20) + Field(company.merchantCode, 10) + HeaderEnd(yymmdd);
    Regrouped(start, name, Field("", 20), Field(company.merchantCode, 10), HeaderEnd(yymmdd));
    TextAt(start, name, rest, BatchHeader(direction, company, yymmdd));
  }

  lemma Regrouped(a: string, b: string, c: string, d: string, e: string)
    ensures a + b + c + d + e == a + b + (c + d + e)
  {
  }

  /** Where a batch names its company. */
  lemma HeaderNamesCompany(direction: Direction, company: Company, yymmdd: string)
    ensures BatchHeader(direction, company, yymmdd)[4..20] == Field(company.legalName, 16)
    ensures BatchHeader(direction, company, yymmdd)[40..50] == Field(company.merchantCode, 10)
  {
    var before := HeaderStart(direction) + Field(company.legalName, 16) + Field("", 20);
    CompanyName(direction, company, yymmdd);
    TextAt(before, Field(company.merchantCode, 10), HeaderEnd(yymmdd), BatchHeader(direction, company, yymmdd));
  }
}
