/** The line-building loops of the API's `renderNacha`, proved to give the text of the specification. */
module NachaRenderer {
  import opened Text
  import opened Store
  import opened Nacha
  import opened NachaRecords

  /** `lines.filter((line) => line.startsWith('5')).length`. */
  function CountFives(lines: seq<string>): nat {
    if lines == [] then 0 else (if StartsWith(lines[0], '5') then 1 else 0) + CountFives(lines[1..])
  }

  lemma {:induction false} CountOfConcat(a: seq<string>, b: seq<string>)
    ensures CountFives(a + b) == CountFives(a) + CountFives(b)
    decreases |a|
  {
    if a == [] {
      assert a + b == b;
    } else {
      CountOfConcat(a[1..], b);
      assert (a + b)[1..] == a[1..] + b;
    }
  }

  lemma {:induction false} NoFives(lines: seq<string>)
    requires forall i | 0 <= i < |lines| :: !StartsWith(lines[i], '5')
    ensures CountFives(lines) == 0
  {
    if lines != [] {
      NoFives(lines[1..]);
    }
  }

  lemma FivesInEntries(direction: Direction, group: seq<Item>)
    ensures CountFives(EntryLines(direction, group)) == 0
  {
    forall i | 0 <= i < |group| ensures !StartsWith(EntryLines(direction, group)[i], '5') {
      assert EntryLines(direction, group)[i] == EntryLine(direction, group[i], i);
    }
    NoFives(EntryLines(direction, group));
  }

  lemma FivesOfFrame(header: string, entries: seq<string>, control: string)
    requires StartsWith(header, '5') && !StartsWith(control, '5') && CountFives(entries) == 0
    ensures CountFives([header] + entries + [control]) == 1
  {
    CountOfConcat([header] + entries, [control]);
    CountOfConcat([header], entries);
  }

  /** Every batch starts with its one '5' record. */
  lemma FivesInBatch(items: seq<Item>, direction: Direction, yymmdd: string)
    requires Renderable(items)
    ensures CountFives(Batch(items, direction, yymmdd)) == if Group(items, direction) == [] then 0 else 1
  {
    var group := Group(items, direction);
    GroupIsRenderable(items, direction);
    if group != [] {
      FivesInEntries(direction, group);
      FivesOfFrame(BatchHeader(direction, group[0].company, yymmdd), EntryLines(direction, group),
                   BatchControl(group, group[0].company));
    }
  }

  lemma FivesInBody(items: seq<Item>, yymmdd: string)
    requires Renderable(items)
    ensures CountFives(Body(items, yymmdd)) == BatchCount(items)
  {
    var header := [FileHeader(yymmdd)];
    CountOfConcat(header + Batch(items, Debit, yymmdd), Batch(items, Credit, yymmdd));
    CountOfConcat(header, Batch(items, Debit, yymmdd));
    FivesInBatch(items, Debit, yymmdd);
    FivesInBatch(items, Credit, yymmdd);
  }

  // ---------- The loops ----------

  lemma OneMoreOf<T>(s: seq<T>, i: nat)
    requires i < |s|
    ensures s[..i + 1] == s[..i] + [s[i]]
  {
  }

  lemma NextEntry(direction: Direction, group: seq<Item>, i: nat)
    requires i < |group|
    ensures EntryLines(direction, group)[..i + 1]
         == EntryLines(direction, group)[..i] + [EntryLine(direction, group[i], i)]
  {
    OneMoreOf(EntryLines(direction, group), i);
    assert EntryLines(direction, group)[i] == EntryLine(direction, group[i], i);
  }

  /** `group.forEach`. */
  method PushEntries(lines: seq<string>, direction: Direction, group: seq<Item>) returns (pushed: seq<string>)
    ensures pushed == lines + EntryLines(direction, group)
  {
    pushed := lines;
    for i := 0 to |group|
      invariant pushed == lines + EntryLines(direction, group)[..i]
    {
      NextEntry(direction, group, i);
      pushed := pushed + [EntryLine(direction, group[i], i)];
    }
    assert EntryLines(direction, group)[..|group|] == EntryLines(direction, group);
  }

  lemma Pushed(lines: seq<string>, header: string, entries: seq<string>, control: string)
    ensures lines + [header] + entries + [control] == lines + ([header] + entries + [control])
  {
  }

  /** One direction's batch, pushed line by line. */
  method PushBatch(lines: seq<string>, items: seq<Item>, direction: Direction, yymmdd: string)
    returns (pushed: seq<string>)
    requires Renderable(items)
    ensures pushed == lines + Batch(items, direction, yymmdd)
  {
    GroupIsRenderable(items, direction);
    var group := Group(items, direction);
    if group == [] {
      return lines;
    }
    var header, control := BatchHeader(direction, group[0].company, yymmdd), BatchControl(group, group[0].company);
    pushed := PushEntries(lines + [header], direction, group);
    pushed := pushed + [control];
    Pushed(lines, header, EntryLines(direction, group), control);
  }

  /** Appends fillers up to a full block. */
  method FillBlock(lines: seq<string>) returns (filled: seq<string>)
    ensures filled == lines + Fillers(10 * BlockCount(|lines|) - |lines|)
    ensures |filled| == 10 * BlockCount(|lines|)
  {
    filled := lines;
    while |filled| % 10 != 0
      invariant |lines| <= |filled| <= 10 * BlockCount(|lines|)
      invariant filled == lines + Fillers(|filled| - |lines|)
      decreases 10 * BlockCount(|lines|) - |filled|
    {
      filled := filled + [FILLER];
    }
  }

  lemma DraftIsFound(body: seq<string>, draft: string, fillers: seq<string>)
    requires forall i | 0 <= i < |body| :: !StartsWith(body[i], '9')
    requires StartsWith(draft, '9')
    ensures FirstNine(body + [draft] + fillers) == |body|
  {
    Regroup(body, draft, fillers);
    FirstNineOfConcat(body, [draft] + fillers);
  }

  lemma Regroup(body: seq<string>, line: string, fillers: seq<string>)
    ensures body + [line] + fillers == body + ([line] + fillers)
  {
  }

  lemma DraftIsReplaced(body: seq<string>, draft: string, control: string, fillers: seq<string>)
    ensures (body + [draft] + fillers)[|body| := control] == body + ([control] + fillers)
  {
  }

  lemma ControlsStartWithNine(batches: nat, blocks: string, items: seq<Item>)
    requires Renderable(items)
    ensures StartsWith(FileControl(batches, blocks, items), '9')
  {
  }

  lemma Patching(body: seq<string>, draft: string, control: string, fillers: seq<string>, tail: seq<string>)
    requires (forall i | 0 <= i < |body| :: !StartsWith(body[i], '9')) && StartsWith(draft, '9')
    requires tail == [control] + fillers
    ensures var lines := body + [draft] + fillers;
            FirstNine(lines) < |lines| && lines[FirstNine(lines) := control] == body + tail
  {
    DraftIsFound(body, draft, fillers);
    DraftIsReplaced(body, draft, control, fillers);
  }

  lemma TailFor(items: seq<Item>, body: nat, blocks: nat)
    requires Renderable(items) && blocks == BlockCount(body + 1)
    ensures Tail(items, body)
         == [FileControl(BatchCount(items), Digits(Decimal(blocks), 6), items)] + Fillers(10 * blocks - body - 1)
  {
  }

  /** The filled lines around a draft control become the file when the draft is replaced. */
  lemma Closing(body: seq<string>, items: seq<Item>, blocks: nat)
    requires Renderable(items) && blocks == BlockCount(|body| + 1)
    requires forall i | 0 <= i < |body| :: !StartsWith(body[i], '9')
    ensures var draft := FileControl(BatchCount(items), "000000", items);
            var control := FileControl(BatchCount(items), Digits(Decimal(blocks), 6), items);
            var lines := body + [draft] + Fillers(10 * blocks - |body| - 1);
            FirstNine(lines) < |lines| && lines[FirstNine(lines) := control] == body + Tail(items, |body|)
  {
    var draft := FileControl(BatchCount(items), "000000", items);
    var control := FileControl(BatchCount(items), Digits(Decimal(blocks), 6), items);
    ControlsStartWithNine(BatchCount(items), "000000", items);
    TailFor(items, |body|, blocks);
    Patching(body, draft, control, Fillers(10 * blocks - |body| - 1), Tail(items, |body|));
  }

  /** Counts the batches, appends the control record and the fillers, and patches the block count. */
  method CloseFile(body: seq<string>, items: seq<Item>) returns (lines: seq<string>)
    requires Renderable(items) && CountFives(body) == BatchCount(items)
    requires forall i | 0 <= i < |body| :: !StartsWith(body[i], '9')
    ensures lines == body + Tail(items, |body|)
  {
    var batchCount := CountFives(body);
    var draft := FileControl(batchCount, "000000", items);
    lines := FillBlock(body + [draft]);
    var blocks := |lines| / 10;
    var control := FileControl(batchCount, Digits(Decimal(blocks), 6), items);
    Closing(body, items, blocks);
    lines := lines[FirstNine(lines) := control];
  }

  /** The two directions in the order of the loop: what is written after `i` of them. */
  function Started(items: seq<Item>, yymmdd: string, i: nat): seq<string>
    requires Renderable(items) && i <= 2
  {
    if i == 0 then [FileHeader(yymmdd)]
    else Started(items, yymmdd, i - 1) + Batch(items, if i == 1 then Debit else Credit, yymmdd)
  }

  lemma StartedIsBody(items: seq<Item>, yymmdd: string)
    requires Renderable(items)
    ensures Started(items, yymmdd, 2) == Body(items, yymmdd)
  {
    assert Started(items, yymmdd, 1) == [FileHeader(yymmdd)] + Batch(items, Debit, yymmdd);
  }

  method PushBatches(items: seq<Item>, yymmdd: string) returns (lines: seq<string>)
    requires Renderable(items)
    ensures lines == Body(items, yymmdd)
  {
    var directions := [Debit, Credit];
    lines := [FileHeader(yymmdd)];
    for i := 0 to 2
      invariant lines == Started(items, yymmdd, i)
    {
      lines := PushBatch(lines, items, directions[i], yymmdd);
    }
    StartedIsBody(items, yymmdd);
  }

  /** `renderNacha`: it throws when a routing number is not numeric. */
  method RenderNacha(items: seq<Item>, day: Day) returns (text: Result<string>)
    ensures text == if Renderable(items) then Ok(FileText(items, day)) else Err(BadRequest)
  {
    if exists i :: 0 <= i < |items| && !AllDigits(Rdfi(items[i])) {
      return Err(BadRequest);
    }
    var yymmdd := Yymmdd(day);
    var lines := PushBatches(items, yymmdd);
    NoNineInBody(items, yymmdd);
    FivesInBody(items, yymmdd);
    lines := CloseFile(lines, items);
    text := Ok(Join(Padded(lines)));
  }
}
