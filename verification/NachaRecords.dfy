/** The generated records: their widths, their blocking, and the totals they carry. */
module NachaRecords {
  import opened Text
  import opened Store
  import opened Nacha

  // ---------- Widths ----------

  lemma ShortDates(day: Day)
    requires day.month < 100 && day.date < 100
    ensures |Yymmdd(day)| <= 6
  {
    assert |Decimal(day.month)| <= 2 && |Decimal(day.date)| <= 2;
  }

  ghost predicate Fit(lines: seq<string>) {
    forall i | 0 <= i < |lines| :: 81 <= |lines[i]| <= WIDTH
  }

  lemma BatchFits(items: seq<Item>, direction: Direction, yymmdd: string)
    requires Renderable(items) && |yymmdd| <= 6
    ensures Fit(Batch(items, direction, yymmdd))
  {
    var group := Group(items, direction);
    forall i | 0 <= i < |group| ensures 81 <= |EntryLines(direction, group)[i]| <= WIDTH {
      assert EntryLines(direction, group)[i] == EntryLine(direction, group[i], i);
    }
  }

  lemma ConcatFits(a: seq<string>, b: seq<string>)
    requires Fit(a) && Fit(b)
    ensures Fit(a + b)
  {
  }

  lemma BodyFits(items: seq<Item>, yymmdd: string)
    requires Renderable(items) && |yymmdd| <= 6
    ensures Fit(Body(items, yymmdd))
  {
    BatchFits(items, Debit, yymmdd);
    BatchFits(items, Credit, yymmdd);
    ConcatFits([FileHeader(yymmdd)], Batch(items, Debit, yymmdd));
    ConcatFits([FileHeader(yymmdd)] + Batch(items, Debit, yymmdd), Batch(items, Credit, yymmdd));
  }

  lemma TailFits(items: seq<Item>, body: nat)
    requires Renderable(items)
    ensures Fit(Tail(items, body))
  {
  }

  lemma PaddingOnly(lines: seq<string>)
    requires Fit(lines)
    ensures |Padded(lines)| == |lines|
    ensures forall i | 0 <= i < |lines| ::
              Padded(lines)[i] == lines[i] + Repeat(' ', WIDTH - |lines[i]|) && |Padded(lines)[i]| == WIDTH
  {
  }

  /** Every record fits its line, so the final pass only ever pads: all lines become 94 wide. */
  lemma LinesFit(items: seq<Item>, day: Day)
    requires Renderable(items) && day.month < 100 && day.date < 100
    ensures var lines := Lines(items, Yymmdd(day));
            && Fit(lines) && |Padded(lines)| == |lines|
            && forall i | 0 <= i < |lines| ::
                 Padded(lines)[i] == lines[i] + Repeat(' ', WIDTH - |lines[i]|) && |Padded(lines)[i]| == WIDTH
  {
    var y := Yymmdd(day);
    ShortDates(day);
    BodyFits(items, y);
    TailFits(items, |Body(items, y)|);
    ConcatFits(Body(items, y), Tail(items, |Body(items, y)|));
    PaddingOnly(Lines(items, y));
  }

  // ---------- Blocking ----------

  predicate StartsWith(line: string, c: char) {
    line != "" && line[0] == c
  }

  /** `lines.findIndex((line) => line.startsWith('9'))`, or the length when there is none. */
  function FirstNine(lines: seq<string>): (i: nat)
    ensures i <= |lines|
    ensures i < |lines| ==> StartsWith(lines[i], '9')
    ensures forall j | 0 <= j < i :: !StartsWith(lines[j], '9')
  {
    if lines == [] || StartsWith(lines[0], '9') then 0 else 1 + FirstNine(lines[1..])
  }

  lemma NoNineInBody(items: seq<Item>, yymmdd: string)
    requires Renderable(items)
    ensures forall i | 0 <= i < |Body(items, yymmdd)| :: !StartsWith(Body(items, yymmdd)[i], '9')
  {
    NoNineInBatch(items, Debit, yymmdd);
    NoNineInBatch(items, Credit, yymmdd);
  }

  lemma NoNineInBatch(items: seq<Item>, direction: Direction, yymmdd: string)
    requires Renderable(items)
    ensures forall i | 0 <= i < |Batch(items, direction, yymmdd)| ::
              !StartsWith(Batch(items, direction, yymmdd)[i], '9')
  {
    var group := Group(items, direction);
    forall i | 0 <= i < |group| ensures !StartsWith(EntryLines(direction, group)[i], '9') {
      assert EntryLines(direction, group)[i] == EntryLine(direction, group[i], i);
    }
  }

  /** The last part of a file: its first record starts with '9', whatever follows are fillers. */
  lemma TailIs(items: seq<Item>, body: nat)
    requires Renderable(items)
    ensures var tail := Tail(items, body);
            && |tail| > 0 && StartsWith(tail[0], '9')
            && tail[0] == FileControl(BatchCount(items), Digits(Decimal(BlockCount(body + 1)), 6), items)
            && forall i | 0 < i < |tail| :: tail[i] == FILLER
  {
  }

  lemma FirstNineOfConcat(body: seq<string>, tail: seq<string>)
    requires forall i | 0 <= i < |body| :: !StartsWith(body[i], '9')
    requires tail != [] && StartsWith(tail[0], '9')
    ensures FirstNine(body + tail) == |body|
  {
    assert forall i | 0 <= i < |body| :: (body + tail)[i] == body[i];
    assert (body + tail)[|body|] == tail[0];
  }

  /** The least multiple of ten that holds the given number of records; the last of those is the
      first line that starts with '9', and fillers follow it. */
  ghost predicate Blocked(lines: seq<string>, records: nat) {
    && |lines| % 10 == 0 && records <= |lines| < records + 10
    && FirstNine(lines) == records - 1
    && forall i | records <= i < |lines| :: lines[i] == FILLER
  }

  lemma Blocking(body: seq<string>, tail: seq<string>, control: string)
    requires forall i | 0 <= i < |body| :: !StartsWith(body[i], '9')
    requires tail != [] && tail[0] == control && StartsWith(control, '9')
    requires forall i | 0 < i < |tail| :: tail[i] == FILLER
    requires |tail| == 10 * BlockCount(|body| + 1) - |body|
    ensures Blocked(body + tail, |body| + 1)
    ensures (body + tail)[|body|] == control
    ensures |body + tail| / 10 == BlockCount(|body| + 1)
  {
    FirstNineOfConcat(body, tail);
  }

  /** Blocking: the file control record is the first line that starts with '9', it is never a filler,
      and it names the number of blocks. */
  lemma BlocksAreFull(items: seq<Item>, yymmdd: string)
    requires Renderable(items)
    ensures Blocked(Lines(items, yymmdd), |Body(items, yymmdd)| + 1)
    ensures ControlOf(Lines(items, yymmdd))
         == Some(FileControl(BatchCount(items), Digits(Decimal(|Lines(items, yymmdd)| / 10), 6), items))
  {
    var body := Body(items, yymmdd);
    var tail := Tail(items, |body|);
    NoNineInBody(items, yymmdd);
    TailIs(items, |body|);
    Blocking(body, tail, tail[0]);
  }

  /** The line that the generator patches. */
  function ControlOf(lines: seq<string>): Option<string> {
    if FirstNine(lines) < |lines| then Some(lines[FirstNine(lines)]) else None
  }
}
