/** The text of an ACH file as a function of the payments it carries. */
module Nacha {
  import opened Text
  import opened Store

  datatype Company = Company(legalName: string, merchantCode: string)
  datatype Item = Item(direction: Direction, amount: int, routingNumber: string, receiverAccountRef: string,
                       receiverName: string, company: Company)

  const WIDTH := 94
  const HASH_MODULUS := 10_000_000_000
  const FILLER := Repeat('9', WIDTH)

  // ---------- Field contents ----------

  /** `cents(value)`. */
  function Cents(v: int): (s: string)
    ensures |s| == 10
  {
    Digits(PrintInt(v), 10)
  }

  /** `routingNumber.slice(0, 8)`. */
  function Rdfi(item: Item): string {
    if |item.routingNumber| > 8 then item.routingNumber[..8] else item.routingNumber
  }

  /** `BigInt` accepts the routing prefix; otherwise generation throws. */
  predicate Renderable(items: seq<Item>) {
    forall i | 0 <= i < |items| :: AllDigits(Rdfi(items[i]))
  }

  function PadTo2(s: string): string {
    if |s| < 2 then Repeat('0', 2 - |s|) + s else s
  }

  function Yymmdd(day: Day): string {
    var year := Decimal(day.year);
    (if |year| > 2 then year[|year| - 2..] else year) + PadTo2(Decimal(day.month)) + PadTo2(Decimal(day.date))
  }

  function Group(items: seq<Item>, direction: Direction): (g: seq<Item>)
    ensures forall i | 0 <= i < |g| :: g[i].direction == direction && g[i] in items
  {
    if items == [] then []
    else if items[0].direction == direction then [items[0]] + Group(items[1..], direction)
    else Group(items[1..], direction)
  }

  function Total(items: seq<Item>): int {
    if items == [] then 0 else items[0].amount + Total(items[1..])
  }

  function RdfiTotal(items: seq<Item>): nat
    requires Renderable(items)
  {
    if items == [] then 0 else Value(Rdfi(items[0])) + RdfiTotal(items[1..])
  }

  // ---------- Records ----------

  function FileHeader(yymmdd: string): (line: string)
    ensures |line| == 81 + |yymmdd|
  {
    "101 123456789 987654321" + yymmdd + "0000A094101DESTINATION            ORIGIN                  "
  }

  function BatchHeader(direction: Direction, company: Company, yymmdd: string): (line: string)
    ensures |line| == 82 + |yymmdd|
  {
    HeaderStart(direction) + Field(company.legalName, 16) + Field("", 20) + Field(company.merchantCode, 10)
    + HeaderEnd(yymmdd)
  }

  function HeaderStart(direction: Direction): (text: string)
    ensures |text| == 4
  {
    "5" + Digits(if direction.Debit? then "225" else "220", 3)
  }

  function HeaderEnd(yymmdd: string): (text: string)
    ensures |text| == 32 + |yymmdd|
  {
    "PPD" + Field("", 10) + yymmdd + Field("", 3) + "1" + Digits("12345678", 8) + "0000001"
  }

  function EntryLine(direction: Direction, item: Item, index: nat): (line: string)
    ensures |line| == 93
  {
    EntryHead(direction, item) + EntryTail(item, index)
  }

  /** The rest of an entry after its amount. */
  function EntryTail(item: Item, index: nat): (text: string)
    ensures |text| == 54
  {
    Field("", 15) + Field(item.receiverName, 22) + " 0" + Digits(Decimal(index + 1), 15)
  }

  /** The check digit and the receiver's account. */
  function AccountText(item: Item): (text: string)
    ensures |text| == 18
  {
    [if |item.routingNumber| > 8 then item.routingNumber[8] else '0'] + Field(item.receiverAccountRef, 17)
  }

  /** An entry up to and including its amount. */
  function EntryHead(direction: Direction, item: Item): (line: string)
    ensures |line| == 39
  {
    "6" + Digits(if direction.Debit? then "27" else "22", 2) + Digits(Rdfi(item), 8) + AccountText(item)
    + Cents(item.amount)
  }

  function BatchControl(group: seq<Item>, company: Company): (line: string)
    requires Renderable(group)
    ensures |line| == 90
  {
    BatchTotals(group) + BatchTrailer(company)
  }

  function BatchTrailer(company: Company): (line: string)
    ensures |line| == 50
  {
    Field(company.merchantCode, 10) + Field("", 19) + Field("", 6) + Digits("12345678", 8) + "0000001"
  }

  /** The entry hash of a batch or of a file. */
  function HashText(items: seq<Item>): (text: string)
    requires Renderable(items)
    ensures |text| == 10
  {
    Digits(Decimal(RdfiTotal(items) % HASH_MODULUS), 10)
  }

  /** The debit and credit totals of a batch or of a file. */
  function AmountsText(items: seq<Item>): (text: string)
    ensures |text| == 20
  {
    Cents(Total(Group(items, Debit))) + Cents(Total(Group(items, Credit)))
  }

  function BatchTotals(group: seq<Item>): (line: string)
    requires Renderable(group)
    ensures |line| == 40
  {
    "8" + Digits("200", 3) + Digits(Decimal(|group|), 6) + HashText(group) + AmountsText(group)
  }

  function FileControl(batches: nat, blocks: string, items: seq<Item>): (line: string)
    requires Renderable(items)
    ensures |line| == 84 + |blocks|
  {
    FileTotals(batches, blocks, items) + Field("", 39)
  }

  function FileTotals(batches: nat, blocks: string, items: seq<Item>): (line: string)
    requires Renderable(items)
    ensures |line| == 45 + |blocks|
  {
    "9" + Digits(Decimal(batches), 6) + blocks + Digits(Decimal(|items|), 8) + HashText(items) + AmountsText(items)
  }

  // ---------- The file ----------

  function EntryLines(direction: Direction, group: seq<Item>): (lines: seq<string>)
    ensures |lines| == |group|
  {
    seq(|group|, i requires 0 <= i < |group| => EntryLine(direction, group[i], i))
  }

  lemma GroupIsRenderable(items: seq<Item>, direction: Direction)
    requires Renderable(items)
    ensures Renderable(Group(items, direction))
  {
  }

  function Batch(items: seq<Item>, direction: Direction, yymmdd: string): seq<string>
    requires Renderable(items)
  {
    GroupIsRenderable(items, direction);
    var group := Group(items, direction);
    if group == [] then []
    else
      [BatchHeader(direction, group[0].company, yymmdd)] + EntryLines(direction, group)
      + [BatchControl(group, group[0].company)]
  }

  function BatchCount(items: seq<Item>): nat {
    (if Group(items, Debit) == [] then 0 else 1) + (if Group(items, Credit) == [] then 0 else 1)
  }

  /** Everything before the file control record. */
  function Body(items: seq<Item>, yymmdd: string): seq<string>
    requires Renderable(items)
  {
    [FileHeader(yymmdd)] + Batch(items, Debit, yymmdd) + Batch(items, Credit, yymmdd)
  }

  /** Blocks of ten records, the last one filled up. */
  function BlockCount(records: nat): nat {
    (records + 9) / 10
  }

  function Fillers(n: nat): seq<string> {
    seq(n, _ => FILLER)
  }

  /** The control record and the fillers that end a file; `body` records come before them. */
  function Tail(items: seq<Item>, body: nat): (lines: seq<string>)
    requires Renderable(items)
    ensures |lines| == 10 * BlockCount(body + 1) - body
  {
    var blocks := BlockCount(body + 1);
    [FileControl(BatchCount(items), Digits(Decimal(blocks), 6), items)] + Fillers(10 * blocks - body - 1)
  }

  function Lines(items: seq<Item>, yymmdd: string): seq<string>
    requires Renderable(items)
  {
    Body(items, yymmdd) + Tail(items, |Body(items, yymmdd)|)
  }

  function Join(lines: seq<string>): string {
    if lines == [] then ""
    else if |lines| == 1 then lines[0]
    else lines[0] + "\n" + Join(lines[1..])
  }

  function Padded(lines: seq<string>): seq<string> {
    seq(|lines|, i requires 0 <= i < |lines| => Field(lines[i], WIDTH))
  }

  /** The file as it is hashed and as it is downloaded. */
  function FileText(items: seq<Item>, day: Day): string
    requires Renderable(items)
  {
    Join(Padded(Lines(items, Yymmdd(day))))
  }
}
