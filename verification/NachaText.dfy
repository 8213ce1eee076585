/** The joined text of a file, as it is hashed and downloaded: when splitting it at its line breaks gives back
    the records. */
module NachaText {
  import opened Text
  import opened Store
  import opened Nacha
  import opened NachaRecords
  import opened NachaReading
  import Effects
  import Exports
  import System
  import Theorems
  import Witnesses

  // ---------- Splitting ----------

  predicate NoBreak(s: string) {
    forall i | 0 <= i < |s| :: s[i] != '\n'
  }

  ghost predicate Unbroken(lines: seq<string>) {
    forall i | 0 <= i < |lines| :: NoBreak(lines[i])
  }

  /** `text.split('\n')`. */
  function Split(text: string): (lines: seq<string>)
    ensures |lines| >= 1
  {
    if text == "" then [""]
    else
      var rest := Split(text[1..]);
      if text[0] == '\n' then [""] + rest else [[text[0]] + rest[0]] + rest[1..]
  }

  lemma {:induction false} SplitsUnbroken(text: string)
    ensures Unbroken(Split(text))
  {
    if text != "" {
      SplitsUnbroken(text[1..]);
    }
  }

  lemma {:induction false} SplitLine(line: string)
    requires NoBreak(line)
    ensures Split(line) == [line]
  {
    if line != "" {
      SplitLine(line[1..]);
      assert [line[0]] + line[1..] == line;
    }
  }

  lemma {:induction false} SplitBreak(line: string, rest: string)
    requires NoBreak(line)
    ensures Split(line + "\n" + rest) == [line] + Split(rest)
  {
    var text := line + "\n" + rest;
    if line == "" {
      assert text[1..] == rest;
    } else {
      SplitBreak(line[1..], rest);
      assert text[1..] == line[1..] + "\n" + rest;
      assert [line[0]] + line[1..] == line;
    }
  }

  lemma {:induction false} SplitJoin(lines: seq<string>)
    requires lines != [] && Unbroken(lines)
    ensures Split(Join(lines)) == lines
  {
    if |lines| == 1 {
      SplitLine(lines[0]);
    } else {
      SplitJoin(lines[1..]);
      SplitBreak(lines[0], Join(lines[1..]));
      assert lines == [lines[0]] + lines[1..];
    }
  }

  /** Splitting undoes joining exactly when no line contains a break. */
  lemma JoinSplitsBack(lines: seq<string>)
    requires lines != []
    ensures Split(Join(lines)) == lines <==> Unbroken(lines)
  {
    if Unbroken(lines) {
      SplitJoin(lines);
    }
    SplitsUnbroken(Join(lines));
  }

  // ---------- Widths ----------

  ghost predicate Wide(lines: seq<string>) {
    forall i | 0 <= i < |lines| :: |lines[i]| == WIDTH
  }

  lemma {:induction false} WideJoin(lines: seq<string>)
    requires lines != [] && Wide(lines)
    ensures |Join(lines)| == (WIDTH + 1) * |lines| - 1
  {
    if |lines| > 1 {
      WideJoin(lines[1..]);
    }
  }

  lemma {:induction false} JoinSplit(text: string)
    ensures Join(Split(text)) == text
  {
    if text != "" {
      var rest := Split(text[1..]);
      JoinSplit(text[1..]);
      JoinCons(text[0], rest);
    }
  }

  lemma JoinCons(c: char, rest: seq<string>)
    requires rest != []
    ensures Join([""] + rest) == "\n" + Join(rest)
    ensures Join([[c] + rest[0]] + rest[1..]) == [c] + Join(rest)
  {
    JoinHead("", rest);
    JoinLonger(c, rest[0], rest[1..]);
    assert "" + "\n" == "\n" && rest == [rest[0]] + rest[1..];
  }

  lemma JoinLonger(c: char, line: string, rest: seq<string>)
    ensures Join([[c] + line] + rest) == [c] + Join([line] + rest)
  {
    JoinHead([c] + line, rest);
    JoinHead(line, rest);
    if rest != [] {
      RegroupedJoin(c, line, "\n", Join(rest));
    }
  }

  lemma RegroupedJoin(c: char, line: string, nl: string, rest: string)
    ensures [c] + line + nl + rest == [c] + (line + nl + rest)
  {
  }

  lemma JoinHead(line: string, rest: seq<string>)
    ensures Join([line] + rest) == if rest == [] then line else line + "\n" + Join(rest)
  {
    assert ([line] + rest)[1..] == rest;
  }

  function Breaks(s: string): nat {
    if s == "" then 0 else (if s[0] == '\n' then 1 else 0) + Breaks(s[1..])
  }

  lemma {:induction false} BreaksOfConcat(a: string, b: string)
    ensures Breaks(a + b) == Breaks(a) + Breaks(b)
    decreases |a|
  {
    if a == "" {
      assert a + b == b;
    } else {
      BreaksOfConcat(a[1..], b);
      assert (a + b)[1..] == a[1..] + b;
    }
  }

  lemma {:induction false} NoBreakIsZero(s: string)
    ensures NoBreak(s) <==> Breaks(s) == 0
  {
    if s != "" {
      NoBreakIsZero(s[1..]);
      assert s == [s[0]] + s[1..];
    }
  }

  lemma {:induction false} SplitCounts(text: string)
    ensures |Split(text)| == Breaks(text) + 1
  {
    if text != "" {
      SplitCounts(text[1..]);
    }
  }

  lemma {:induction false} JoinCounts(lines: seq<string>)
    requires lines != []
    ensures Breaks(Join(lines)) >= |lines| - 1
    ensures Breaks(Join(lines)) == |lines| - 1 ==> Unbroken(lines)
  {
    NoBreakIsZero(lines[0]);
    if |lines| > 1 {
      JoinCounts(lines[1..]);
      BreaksOfConcat(lines[0] + "\n", Join(lines[1..]));
      BreaksOfConcat(lines[0], "\n");
      assert lines == [lines[0]] + lines[1..];
    }
  }

  /** Lines of full width are split into lines of full width exactly when none of them contains a break. */
  lemma WideSplitsWide(lines: seq<string>)
    requires lines != [] && Wide(lines)
    ensures Wide(Split(Join(lines))) <==> Unbroken(lines)
  {
    var split := Split(Join(lines));
    if Unbroken(lines) {
      SplitJoin(lines);
    }
    if Wide(split) {
      JoinSplit(Join(lines));
      WideJoin(lines);
      WideJoin(split);
      SplitCounts(Join(lines));
      JoinCounts(lines);
    }
  }

  // ---------- The records ----------

  lemma NoBreakConcat(a: string, b: string)
    ensures NoBreak(a + b) <==> NoBreak(a) && NoBreak(b)
  {
    assert NoBreak(a + b) ==> forall i | 0 <= i < |a| :: a[i] == (a + b)[i];
    assert NoBreak(a + b) ==> forall i | 0 <= i < |b| :: b[i] == (a + b)[|a| + i];
  }

  function Kept(value: string, length: nat): string {
    if |value| > length then value[..length] else value
  }

  lemma FieldBreaks(value: string, length: nat)
    requires length > 0
    ensures NoBreak(Field(value, length)) <==> NoBreak(Kept(value, length))
  {
    NoBreakConcat(Kept(value, length), Repeat(' ', length - |Kept(value, length)|));
  }

  lemma DigitsHaveNoBreak(value: string, length: nat)
    requires length > 0 && NoBreak(value)
    ensures NoBreak(Digits(value, length))
  {
    var kept := if |value| > length then value[|value| - length..] else value;
    NoBreakConcat(Repeat('0', length - |kept|), kept);
  }

  lemma NumbersHaveNoBreak(n: int)
    ensures NoBreak(PrintInt(n)) && NoBreak(Cents(n))
    ensures n >= 0 ==> NoBreak(Decimal(n))
  {
    if n < 0 {
      NoBreakConcat("-", Decimal(-n));
    }
    DigitsHaveNoBreak(PrintInt(n), 10);
  }

  lemma NumeralHasNoBreak(n: nat, length: nat)
    requires length > 0
    ensures NoBreak(Digits(Decimal(n), length))
  {
    DigitsHaveNoBreak(Decimal(n), length);
  }

  lemma DateHasNoBreak(day: Day)
    ensures NoBreak(Yymmdd(day))
  {
    var year := Decimal(day.year);
    var yy := if |year| > 2 then year[|year| - 2..] else year;
    PadHasNoBreak(Decimal(day.month));
    PadHasNoBreak(Decimal(day.date));
    NoBreakConcat(yy, PadTo2(Decimal(day.month)));
    NoBreakConcat(yy + PadTo2(Decimal(day.month)), PadTo2(Decimal(day.date)));
  }

  lemma PadHasNoBreak(s: string)
    requires NoBreak(s)
    ensures NoBreak(PadTo2(s))
  {
    if |s| < 2 {
      NoBreakConcat(Repeat('0', 2 - |s|), s);
    }
  }

  lemma NoBreakIn3(a: string, b: string, c: string)
    ensures NoBreak(a + b + c) <==> NoBreak(a) && NoBreak(b) && NoBreak(c)
  {
    NoBreakConcat(a + b, c);
    NoBreakConcat(a, b);
  }

  lemma NoBreakIn5(a: string, b: string, c: string, d: string, e: string)
    ensures NoBreak(a + b + c + d + e) <==> NoBreak(a) && NoBreak(b) && NoBreak(c) && NoBreak(d) && NoBreak(e)
  {
    NoBreakIn3(a + b + c, d, e);
    NoBreakIn3(a, b, c);
  }

  lemma BlanksHaveNoBreak(n: nat)
    requires n > 0
    ensures NoBreak(Field("", n))
  {
    FieldBreaks("", n);
  }

  lemma NamesHaveNoBreak()
    ensures NoBreak("0000A094101DESTINATION            ORIGIN                  ")
  {
    var names, blanks := "0000A094101DESTINATION            ", "ORIGIN" + Repeat(' ', 18);
    assert NoBreak(names) && NoBreak("ORIGIN");
    NoBreakConcat("ORIGIN", Repeat(' ', 18));
    NoBreakConcat(names, blanks);
    assert names + blanks == "0000A094101DESTINATION            ORIGIN                  ";
  }

  lemma FileHeaderHasNoBreak(yymmdd: string)
    requires NoBreak(yymmdd)
    ensures NoBreak(FileHeader(yymmdd))
  {
    NamesHaveNoBreak();
    NoBreakIn3("101 123456789 987654321", yymmdd, "0000A094101DESTINATION            ORIGIN                  ");
  }

  lemma HeaderStartHasNoBreak(direction: Direction)
    ensures NoBreak(HeaderStart(direction))
  {
    DigitsHaveNoBreak(if direction.Debit? then "225" else "220", 3);
    NoBreakConcat("5", Digits(if direction.Debit? then "225" else "220", 3));
  }

  lemma HeaderEndHasNoBreak(yymmdd: string)
    requires NoBreak(yymmdd)
    ensures NoBreak(HeaderEnd(yymmdd))
  {
    BlanksHaveNoBreak(10);
    BlanksHaveNoBreak(3);
    DigitsHaveNoBreak("12345678", 8);
    NoBreakIn5("PPD", Field("", 10), yymmdd, Field("", 3), "1");
    NoBreakIn3("PPD" + Field("", 10) + yymmdd + Field("", 3) + "1", Digits("12345678", 8), "0000001");
  }

  /** What of a company reaches the file. */
  predicate CleanCompany(company: Company) {
    NoBreak(Kept(company.legalName, 16)) && NoBreak(Kept(company.merchantCode, 10))
  }

  lemma BatchHeaderBreaks(direction: Direction, company: Company, yymmdd: string)
    requires NoBreak(yymmdd)
    ensures NoBreak(BatchHeader(direction, company, yymmdd)) <==> CleanCompany(company)
  {
    HeaderStartHasNoBreak(direction);
    HeaderEndHasNoBreak(yymmdd);
    FieldBreaks(company.legalName, 16);
    FieldBreaks(company.merchantCode, 10);
    BlanksHaveNoBreak(20);
    NoBreakIn5(HeaderStart(direction), Field(company.legalName, 16), Field("", 20), Field(company.merchantCode, 10),
               HeaderEnd(yymmdd));
  }

  function CheckDigit(item: Item): char {
    if |item.routingNumber| > 8 then item.routingNumber[8] else '0'
  }

  /** What of a receiver reaches the file. */
  predicate CleanReceiver(item: Item) {
    CheckDigit(item) != '\n' && NoBreak(Kept(item.receiverAccountRef, 17)) && NoBreak(Kept(item.receiverName, 22))
  }

  lemma AccountBreaks(item: Item)
    ensures NoBreak(AccountText(item)) <==> CheckDigit(item) != '\n' && NoBreak(Kept(item.receiverAccountRef, 17))
  {
    FieldBreaks(item.receiverAccountRef, 17);
    NoBreakConcat([CheckDigit(item)], Field(item.receiverAccountRef, 17));
    assert [CheckDigit(item)][0] == CheckDigit(item);
  }

  lemma EntryTailBreaks(item: Item, index: nat)
    ensures NoBreak(EntryTail(item, index)) <==> NoBreak(Kept(item.receiverName, 22))
  {
    BlanksHaveNoBreak(15);
    FieldBreaks(item.receiverName, 22);
    NumeralHasNoBreak(index + 1, 15);
    NoBreakIn3(Field("", 15), Field(item.receiverName, 22), " 0");
    NoBreakConcat(Field("", 15) + Field(item.receiverName, 22) + " 0", Digits(Decimal(index + 1), 15));
  }

  lemma EntryBreaks(direction: Direction, item: Item, index: nat)
    requires AllDigits(Rdfi(item))
    ensures NoBreak(EntryLine(direction, item, index)) <==> CleanReceiver(item)
  {
    var code := if direction.Debit? then "27" else "22";
    DigitsHaveNoBreak(code, 2);
    DigitsHaveNoBreak(Rdfi(item), 8);
    NumbersHaveNoBreak(item.amount);
    AccountBreaks(item);
    EntryTailBreaks(item, index);
    NoBreakIn5("6", Digits(code, 2), Digits(Rdfi(item), 8), AccountText(item), Cents(item.amount));
    NoBreakConcat(EntryHead(direction, item), EntryTail(item, index));
  }

  lemma TotalsHaveNoBreak(items: seq<Item>)
    requires Renderable(items)
    ensures NoBreak(HashText(items)) && NoBreak(AmountsText(items))
  {
    NumeralHasNoBreak(RdfiTotal(items) % HASH_MODULUS, 10);
    NumbersHaveNoBreak(Total(Group(items, Debit)));
    NumbersHaveNoBreak(Total(Group(items, Credit)));
    NoBreakConcat(Cents(Total(Group(items, Debit))), Cents(Total(Group(items, Credit))));
  }

  lemma BatchControlBreaks(group: seq<Item>, company: Company)
    requires Renderable(group)
    ensures NoBreak(BatchControl(group, company)) <==> NoBreak(Kept(company.merchantCode, 10))
  {
    TotalsHaveNoBreak(group);
    NumeralHasNoBreak(|group|, 6);
    DigitsHaveNoBreak("200", 3);
    NoBreakIn5("8", Digits("200", 3), Digits(Decimal(|group|), 6), HashText(group), AmountsText(group));
    BlanksHaveNoBreak(19);
    BlanksHaveNoBreak(6);
    DigitsHaveNoBreak("12345678", 8);
    FieldBreaks(company.merchantCode, 10);
    NoBreakIn5(Field(company.merchantCode, 10), Field("", 19), Field("", 6), Digits("12345678", 8), "0000001");
    NoBreakConcat(BatchTotals(group), BatchTrailer(company));
  }

  lemma FileControlHasNoBreak(batches: nat, blocks: nat, items: seq<Item>)
    requires Renderable(items)
    ensures NoBreak(FileControl(batches, Digits(Decimal(blocks), 6), items))
  {
    TotalsHaveNoBreak(items);
    NumeralHasNoBreak(batches, 6);
    NumeralHasNoBreak(blocks, 6);
    NumeralHasNoBreak(|items|, 8);
    BlanksHaveNoBreak(39);
    NoBreakIn5("9", Digits(Decimal(batches), 6), Digits(Decimal(blocks), 6), Digits(Decimal(|items|), 8),
               HashText(items));
    NoBreakConcat("9" + Digits(Decimal(batches), 6) + Digits(Decimal(blocks), 6) + Digits(Decimal(|items|), 8)
                  + HashText(items), AmountsText(items));
    NoBreakConcat(FileTotals(batches, Digits(Decimal(blocks), 6), items), Field("", 39));
  }

  // ---------- The file ----------

  lemma UnbrokenConcat(a: seq<string>, b: seq<string>)
    ensures Unbroken(a + b) <==> Unbroken(a) && Unbroken(b)
  {
    assert Unbroken(a + b) ==> forall i | 0 <= i < |a| :: a[i] == (a + b)[i];
    assert Unbroken(a + b) ==> forall i | 0 <= i < |b| :: b[i] == (a + b)[|a| + i];
  }

  ghost predicate CleanReceivers(items: seq<Item>) {
    forall i | 0 <= i < |items| :: CleanReceiver(items[i])
  }

  /** A batch names the company of its first payment. */
  predicate CleanBatch(group: seq<Item>) {
    group == [] || CleanCompany(group[0].company)
  }

  /** No line break in the parts of the receivers and companies that the file shows. */
  ghost predicate Clean(items: seq<Item>) {
    CleanReceivers(items) && CleanBatch(Group(items, Debit)) && CleanBatch(Group(items, Credit))
  }

  lemma EntriesBreak(direction: Direction, group: seq<Item>)
    requires Renderable(group)
    ensures Unbroken(EntryLines(direction, group)) <==> CleanReceivers(group)
  {
    forall i | 0 <= i < |group| ensures NoBreak(EntryLines(direction, group)[i]) <==> CleanReceiver(group[i]) {
      EntryBreaks(direction, group[i], i);
    }
    assert |EntryLines(direction, group)| == |group|;
  }

  lemma BatchBreaks(items: seq<Item>, direction: Direction, yymmdd: string)
    requires Renderable(items) && NoBreak(yymmdd)
    ensures var group := Group(items, direction);
            Unbroken(Batch(items, direction, yymmdd)) <==> CleanReceivers(group) && CleanBatch(group)
  {
    var group := Group(items, direction);
    GroupIsRenderable(items, direction);
    if group != [] {
      var header := BatchHeader(direction, group[0].company, yymmdd);
      var control := BatchControl(group, group[0].company);
      BatchHeaderBreaks(direction, group[0].company, yymmdd);
      BatchControlBreaks(group, group[0].company);
      EntriesBreak(direction, group);
      FrameBreaks(header, EntryLines(direction, group), control);
    }
  }

  lemma FrameBreaks(header: string, entries: seq<string>, control: string)
    ensures Unbroken([header] + entries + [control]) <==> NoBreak(header) && Unbroken(entries) && NoBreak(control)
  {
    UnbrokenConcat([header] + entries, [control]);
    UnbrokenConcat([header], entries);
    assert [header][0] == header && [control][0] == control;
  }

  lemma TailHasNoBreak(items: seq<Item>, body: nat)
    requires Renderable(items)
    ensures Unbroken(Tail(items, body))
  {
    TailIs(items, body);
    FileControlHasNoBreak(BatchCount(items), BlockCount(body + 1), items);
    assert NoBreak(FILLER);
  }

  lemma {:induction false} GroupsCover(items: seq<Item>)
    ensures CleanReceivers(items) <==> CleanReceivers(Group(items, Debit)) && CleanReceivers(Group(items, Credit))
  {
    if items != [] {
      var rest, direction := items[1..], items[0].direction;
      GroupsCover(rest);
      assert items == [items[0]] + rest;
      CleanCons(items[0], rest);
      CleanCons(items[0], Group(rest, direction));
    }
  }

  lemma CleanCons(item: Item, rest: seq<Item>)
    ensures CleanReceivers([item] + rest) <==> CleanReceiver(item) && CleanReceivers(rest)
  {
    assert forall i | 0 <= i < |rest| :: rest[i] == ([item] + rest)[i + 1];
    assert ([item] + rest)[0] == item;
  }

  lemma LinesBreak(items: seq<Item>, yymmdd: string)
    requires Renderable(items) && NoBreak(yymmdd)
    ensures Unbroken(Lines(items, yymmdd)) <==> Clean(items)
  {
    var header, debits, credits := [FileHeader(yymmdd)], Batch(items, Debit, yymmdd), Batch(items, Credit, yymmdd);
    FileHeaderHasNoBreak(yymmdd);
    assert Unbroken(header);
    BatchBreaks(items, Debit, yymmdd);
    BatchBreaks(items, Credit, yymmdd);
    GroupsCover(items);
    TailHasNoBreak(items, |Body(items, yymmdd)|);
    UnbrokenConcat(header, debits);
    UnbrokenConcat(header + debits, credits);
    UnbrokenConcat(Body(items, yymmdd), Tail(items, |Body(items, yymmdd)|));
  }

  lemma PaddedBreaks(lines: seq<string>)
    requires Fit(lines)
    ensures Unbroken(Padded(lines)) <==> Unbroken(lines)
  {
    PaddingOnly(lines);
    forall i | 0 <= i < |lines| ensures NoBreak(Padded(lines)[i]) <==> NoBreak(lines[i]) {
      NoBreakConcat(lines[i], Repeat(' ', WIDTH - |lines[i]|));
    }
  }

  lemma RecordsBreak(items: seq<Item>, day: Day)
    requires Renderable(items) && day.month < 100 && day.date < 100
    ensures var lines := Padded(Lines(items, Yymmdd(day)));
            lines != [] && Wide(lines) && (Unbroken(lines) <==> Clean(items))
  {
    LinesFit(items, day);
    DateHasNoBreak(day);
    LinesBreak(items, Yymmdd(day));
    PaddedBreaks(Lines(items, Yymmdd(day)));
  }

  /** The hashed and downloaded text splits back into its records exactly when no name, account or code that it
      shows contains a line break; otherwise some line of it is not 94 wide. */
  lemma TextSplitsBack(items: seq<Item>, day: Day)
    requires Renderable(items) && day.month < 100 && day.date < 100
    ensures Split(FileText(items, day)) == Padded(Lines(items, Yymmdd(day))) <==> Clean(items)
    ensures Wide(Split(FileText(items, day))) <==> Clean(items)
  {
    RecordsBreak(items, day);
    JoinSplitsBack(Padded(Lines(items, Yymmdd(day))));
    WideSplitsWide(Padded(Lines(items, Yymmdd(day))));
  }

  /** Read from a clean text, the three levels of the file add up. */
  lemma TextAddsUp(items: seq<Item>, day: Day)
    requires Renderable(items) && Payable(items) && Clean(items) && day.month < 100 && day.date < 100
    ensures Total(Group(items, Debit)) >= 0 && Total(Group(items, Credit)) >= 0
    ensures var lines := Split(FileText(items, day));
            |lines| % 10 == 0 && Wide(lines) && AddsUp(lines, CarriedBy(items))
  {
    TextSplitsBack(items, day);
    BlocksAreFull(items, Yymmdd(day));
    FileAddsUp(items, day);
  }

  const TORN := [Item(Debit, 1, "123456789", "1", "a\nb", Company("c", "m"))]

  /** A receiver's name with a line break tears its entry in two. */
  lemma BreakTearsAnEntry(day: Day)
    requires day.month < 100 && day.date < 100
    ensures Renderable(TORN) && !Wide(Split(FileText(TORN, day)))
  {
    assert Kept(TORN[0].receiverName, 22)[1] == '\n';
    assert !CleanReceiver(TORN[0]);
    TextSplitsBack(TORN, day);
  }

  // ---------- A torn file is generated and downloaded ----------

  lemma OneItem(ps: Exports.Payments, merchants: Exports.Merchants, id: PaymentId)
    requires Exports.CanRender(ps, merchants, {id})
    ensures var items := Exports.ItemsOf(ps, merchants, {id});
            && Renderable(items) && |items| == 1 && items[0].receiverName == ps[id].details.receiverName
  {
    assert Sorted({id})[0] in {id};
  }

  lemma BrokenNameIsUnclean(items: seq<Item>)
    requires items != [] && items[0].receiverName == TORN[0].receiverName
    ensures !Clean(items)
  {
    assert Kept(items[0].receiverName, 22)[1] == '\n';
    assert !CleanReceiver(items[0]);
  }

  lemma TornText(db: Db, d: Db, id: PaymentId, day: Day)
    requires day.month < 100 && day.date < 100 && Witnesses.ExportsAlone(db, d, id, day) && db.files == []
    requires db.payments[id].details.receiverName == TORN[0].receiverName
    ensures |d.files| == 1 && !Wide(Split(d.files[0].digestOf))
  {
    var items := Exports.ItemsOf(db.payments, db.merchants, {id});
    OneItem(db.payments, db.merchants, id);
    BrokenNameIsUnclean(items);
    TextSplitsBack(items, day);
  }

  lemma VerdictOf(c: Witnesses.Case)
    ensures var d := Effects.ToVerdict(Witnesses.Asked(c), "p", None);
            d.files == [] && "p" in d.payments && d.payments["p"].details == c.Details()
  {
  }

  /** A request for such a receiver is accepted, validated and exported: the file that is hashed, and that every
      later download returns, has a line that is not 94 wide. */
  lemma BreakIsDownloaded(day: Day, maxAttempts: nat)
    requires day.month < 100 && day.date < 100 && maxAttempts >= 1
    ensures exists db ::
              && System.Reachable(db, maxAttempts) && |db.files| == 1
              && Exports.Download(db, 0) == Ok(db.files[0].digestOf) && !Wide(Split(db.files[0].digestOf))
  {
    var c := Witnesses.Case(1, 1, 1, TORN[0].receiverName, Debit);
    var d := Witnesses.ExportedArrives(c, day, maxAttempts);
    VerdictOf(c);
    TornText(Effects.ToVerdict(Witnesses.Asked(c), "p", None), d, "p", day);
    Theorems.DownloadsNeverChange(d, [], 0, None, maxAttempts);
  }
}
