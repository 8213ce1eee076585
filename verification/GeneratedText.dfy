/** The worker's own line-building statements, proved to give the text that the API renders. */
module GeneratedText {
  import opened Text
  import opened Store
  import opened Nacha
  import opened NachaRecords
  import opened NachaRenderer

  // ---------- Filters and sums ----------

  /** `filter((p) => p.direction === direction)`. */
  method OfDirection(items: seq<Item>, direction: Direction) returns (group: seq<Item>)
    ensures group == Group(items, direction)
  {
    group := [];
    for i := 0 to |items|
      invariant group + Group(items[i..], direction) == Group(items, direction)
    {
      assert items[i..][1..] == items[i + 1..];
      if items[i].direction == direction {
        group := group + [items[i]];
      }
    }
  }

  /** `reduce((sum, p) => sum + p.amountCents, 0)`. */
  method SumOfAmounts(items: seq<Item>) returns (sum: int)
    ensures sum == Total(items)
  {
    sum := 0;
    for i := 0 to |items|
      invariant sum + Total(items[i..]) == Total(items)
    {
      assert items[i..][1..] == items[i + 1..];
      sum := sum + items[i].amount;
    }
  }

  /** `reduce((sum, p) => sum + BigInt(p.routingNumber.slice(0, 8)), 0)`. */
  method SumOfPrefixes(items: seq<Item>) returns (sum: nat)
    requires Renderable(items)
    ensures sum == RdfiTotal(items)
  {
    sum := 0;
    for i := 0 to |items|
      invariant Renderable(items[i..]) && sum + RdfiTotal(items[i..]) == RdfiTotal(items)
    {
      assert items[i..][1..] == items[i + 1..];
      sum := sum + Value(Rdfi(items[i]));
    }
  }

  /** The three totals, of a batch or of the file. */
  method Totals(items: seq<Item>) returns (debit: int, credit: int, hash: nat)
    requires Renderable(items)
    ensures debit == Total(Group(items, Debit)) && credit == Total(Group(items, Credit))
    ensures hash == RdfiTotal(items) % HASH_MODULUS
  {
    var debits := OfDirection(items, Debit);
    var credits := OfDirection(items, Credit);
    debit := SumOfAmounts(debits);
    credit := SumOfAmounts(credits);
    var sum := SumOfPrefixes(items);
    hash := sum % HASH_MODULUS;
  }

  // ---------- Records as the templates write them ----------

  lemma Append2(p: string, a: string, b: string)
    ensures p + (a + b) == p + a + b
  {
  }

  lemma Append4(p: string, a: string, b: string, c: string, d: string)
    ensures p + (a + b + c + d) == p + a + b + c + d
  {
    Append2(p, a + b + c, d);
    Append2(p, a + b, c);
    Append2(p, a, b);
  }

  lemma Append7(p: string, a: string, b: string, c: string, d: string, e: string, f: string, g: string)
    ensures p + (a + b + c + d + e + f + g) == p + a + b + c + d + e + f + g
  {
    Append4(p, a + b + c + d, e, f, g);
    Append4(p, a, b, c, d);
  }

  function HeaderLine(direction: Direction, company: Company, yymmdd: string): string {
    "5" + Digits(if direction.Debit? then "225" else "220", 3) + Field(company.legalName, 16) + Field("", 20)
    + Field(company.merchantCode, 10) + "PPD" + Field("", 10) + yymmdd + Field("", 3) + "1" + Digits("12345678", 8)
    + "0000001"
  }

  lemma HeaderLineIs(direction: Direction, company: Company, yymmdd: string)
    ensures HeaderLine(direction, company, yymmdd) == BatchHeader(direction, company, yymmdd)
  {
    Append7("5" + Digits(if direction.Debit? then "225" else "220", 3) + Field(company.legalName, 16) + Field("", 20)
            + Field(company.merchantCode, 10), "PPD", Field("", 10), yymmdd, Field("", 3), "1", Digits("12345678", 8),
            "0000001");
  }

  function DetailLine(direction: Direction, p: Item, index: nat): string {
    "6" + Digits(if direction.Debit? then "27" else "22", 2)
    + Digits(if |p.routingNumber| > 8 then p.routingNumber[..8] else p.routingNumber, 8)
    + [if |p.routingNumber| > 8 then p.routingNumber[8] else '0'] + Field(p.receiverAccountRef, 17) + Cents(p.amount)
    + Field("", 15) + Field(p.receiverName, 22) + " 0" + Digits(Decimal(index + 1), 15)
  }

  lemma DetailLineIs(direction: Direction, p: Item, index: nat)
    ensures DetailLine(direction, p, index) == EntryLine(direction, p, index)
  {
    var head := "6" + Digits(if direction.Debit? then "27" else "22", 2) + Digits(Rdfi(p), 8);
    Append2(head, [if |p.routingNumber| > 8 then p.routingNumber[8] else '0'], Field(p.receiverAccountRef, 17));
    Append4(EntryHead(direction, p), Field("", 15), Field(p.receiverName, 22), " 0", Digits(Decimal(index + 1), 15));
  }

  function ControlLine(count: nat, hash: nat, debit: int, credit: int, company: Company): string {
    "8" + Digits("200", 3) + Digits(Decimal(count), 6) + Digits(Decimal(hash), 10) + Cents(debit) + Cents(credit)
    + Field(company.merchantCode, 10) + Field("", 19) + Field("", 6) + Digits("12345678", 8) + "0000001"
  }

  lemma ControlLineIs(group: seq<Item>, company: Company)
    requires Renderable(group)
    ensures ControlLine(|group|, RdfiTotal(group) % HASH_MODULUS, Total(Group(group, Debit)),
                        Total(Group(group, Credit)), company)
         == BatchControl(group, company)
  {
    Append2("8" + Digits("200", 3) + Digits(Decimal(|group|), 6) + HashText(group), Cents(Total(Group(group, Debit))),
            Cents(Total(Group(group, Credit))));
    Append4(BatchTotals(group), Field(company.merchantCode, 10), Field("", 19), Field("", 6), Digits("12345678", 8));
    Append2(BatchTotals(group), Field(company.merchantCode, 10) + Field("", 19) + Field("", 6) + Digits("12345678", 8),
            "0000001");
  }

  function FileLine(batches: nat, blocks: string, count: nat, hash: nat, debit: int, credit: int): string {
    "9" + Digits(Decimal(batches), 6) + blocks + Digits(Decimal(count), 8) + Digits(Decimal(hash), 10) + Cents(debit)
    + Cents(credit) + Field("", 39)
  }

  lemma FileLineIs(batches: nat, blocks: string, items: seq<Item>)
    requires Renderable(items)
    ensures FileLine(batches, blocks, |items|, RdfiTotal(items) % HASH_MODULUS, Total(Group(items, Debit)),
                     Total(Group(items, Credit)))
         == FileControl(batches, blocks, items)
  {
    Append2("9" + Digits(Decimal(batches), 6) + blocks + Digits(Decimal(|items|), 8) + HashText(items),
            Cents(Total(Group(items, Debit))), Cents(Total(Group(items, Credit))));
  }

  // ---------- The loops ----------

  /** `group.forEach`. */
  method WriteDetails(lines: seq<string>, direction: Direction, group: seq<Item>) returns (written: seq<string>)
    ensures written == lines + EntryLines(direction, group)
  {
    written := lines;
    for i := 0 to |group|
      invariant written == lines + EntryLines(direction, group)[..i]
    {
      NextEntry(direction, group, i);
      DetailLineIs(direction, group[i], i);
      var line := DetailLine(direction, group[i], i);
      written := written + [line];
    }
    assert EntryLines(direction, group)[..|group|] == EntryLines(direction, group);
  }

  method BatchControlLine(group: seq<Item>, company: Company) returns (line: string)
    requires Renderable(group)
    ensures line == BatchControl(group, company)
  {
    var gd, gc, gh := Totals(group);
    line := ControlLine(|group|, gh, gd, gc, company);
    ControlLineIs(group, company);
  }

  lemma BatchIs(items: seq<Item>, direction: Direction, yymmdd: string)
    requires Renderable(items) && Group(items, direction) != []
    ensures var group := Group(items, direction);
            && Renderable(group)
            && Batch(items, direction, yymmdd)
            == [BatchHeader(direction, group[0].company, yymmdd)] + EntryLines(direction, group)
               + [BatchControl(group, group[0].company)]
  {
    GroupIsRenderable(items, direction);
  }

  /** The batch of one direction. */
  method WriteBatch(lines: seq<string>, eligible: seq<Item>, direction: Direction, yymmdd: string)
    returns (written: seq<string>)
    requires Renderable(eligible)
    ensures written == lines + Batch(eligible, direction, yymmdd)
  {
    var group := OfDirection(eligible, direction);
    if |group| == 0 {
      return lines;
    }
    BatchIs(eligible, direction, yymmdd);
    var company := group[0].company;
    var header := HeaderLine(direction, company, yymmdd);
    HeaderLineIs(direction, company, yymmdd);
    written := WriteDetails(lines + [header], direction, group);
    var control := BatchControlLine(group, company);
    written := written + [control];
    Pushed(lines, header, EntryLines(direction, group), control);
  }

  /** `while (lines.length % 10) lines.push('9'.repeat(94))`. */
  method FillUp(lines: seq<string>) returns (filled: seq<string>)
    ensures filled == lines + Fillers(10 * BlockCount(|lines|) - |lines|)
    ensures |filled| == 10 * BlockCount(|lines|)
  {
    filled := lines;
    while |filled| % 10 != 0
      invariant |lines| <= |filled| <= 10 * BlockCount(|lines|)
      invariant filled == lines + Fillers(|filled| - |lines|)
      decreases 10 * BlockCount(|lines|) - |filled|
    {
      filled := filled + [FILLER];
    }
  }

  method FileControlLine(batches: nat, blocks: string, items: seq<Item>, debit: int, credit: int, hash: nat)
    returns (line: string)
    requires Renderable(items)
    requires debit == Total(Group(items, Debit)) && credit == Total(Group(items, Credit))
    requires hash == RdfiTotal(items) % HASH_MODULUS
    ensures line == FileControl(batches, blocks, items)
  {
    line := FileLine(batches, blocks, |items|, hash, debit, credit);
    FileLineIs(batches, blocks, items);
  }

  /** The control record, the fillers and the patched block count. */
  method WriteControl(body: seq<string>, items: seq<Item>, debit: int, credit: int, hash: nat)
    returns (lines: seq<string>)
    requires Renderable(items) && CountFives(body) == BatchCount(items)
    requires forall i | 0 <= i < |body| :: !StartsWith(body[i], '9')
    requires debit == Total(Group(items, Debit)) && credit == Total(Group(items, Credit))
    requires hash == RdfiTotal(items) % HASH_MODULUS
    ensures lines == body + Tail(items, |body|)
  {
    var batchCount := CountFives(body);
    var draft := FileControlLine(batchCount, "000000", items, debit, credit, hash);
    lines := FillUp(body + [draft]);
    var blocks := |lines| / 10;
    var control := FileControlLine(batchCount, Digits(Decimal(blocks), 6), items, debit, credit, hash);
    Closing(body, items, blocks);
    lines := lines[FirstNine(lines) := control];
  }

  method WriteBatches(eligible: seq<Item>, yymmdd: string) returns (lines: seq<string>)
    requires Renderable(eligible)
    ensures lines == Body(eligible, yymmdd)
  {
    lines := ["101 123456789 987654321" + yymmdd + "0000A094101DESTINATION            ORIGIN                  "];
    lines := WriteBatch(lines, eligible, Debit, yymmdd);
    lines := WriteBatch(lines, eligible, Credit, yymmdd);
  }

  /** The generator's statements from the totals to the joined text. */
  method GenerateText(eligible: seq<Item>, day: Day)
    returns (file: string, debit: int, credit: int, hash: nat)
    requires Renderable(eligible)
    ensures file == FileText(eligible, day)
    ensures debit == Total(Group(eligible, Debit)) && credit == Total(Group(eligible, Credit))
    ensures hash == RdfiTotal(eligible) % HASH_MODULUS
  {
    debit, credit, hash := Totals(eligible);
    var yymmdd := Yymmdd(day);
    var lines := WriteBatches(eligible, yymmdd);
    NoNineInBody(eligible, yymmdd);
    FivesInBody(eligible, yymmdd);
    lines := WriteControl(lines, eligible, debit, credit, hash);
    file := Join(Padded(lines));
  }
}
