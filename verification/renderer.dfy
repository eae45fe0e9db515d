/** The briefing renderer (briefing_renderer.py): greedy packing of ordered records into
    chunks of at most 4000 UTF-16 units. */
module Renderer {
  import opened Ordering
  import opened UtcText
  import opened TextRules
  import opened Packing

  const MAX_CHUNK_UNITS := 4000
  const SEPARATOR := "\n\n"

  // ------------------------------------------------------------ UTF-16 (RFC 2781)

  /** One character in UTF-16 code units, as section 2.1 of RFC 2781 encodes it. */
  function EncodeChar(c: char): (u: seq<int>)
    ensures |u| == if c as int >= 0x1_0000 then 2 else 1
    ensures forall k :: 0 <= k < |u| ==> 0 <= u[k] < 0x1_0000
  {
    var n := c as int;
    if n < 0x1_0000 then [n]
    else [0xD800 + (n - 0x1_0000) / 0x400, 0xDC00 + (n - 0x1_0000) % 0x400]
  }

  function EncodeUtf16(s: string): seq<int> {
    if s == "" then [] else EncodeUtf16(s[..|s| - 1]) + EncodeChar(s[|s| - 1])
  }

  /** `utf16_units`: half the length of the UTF-16 byte string. */
  function Units(s: string): nat { |EncodeUtf16(s)| }

  lemma {:induction false} UnitsAdd(a: string, b: string)
    ensures Units(a + b) == Units(a) + Units(b)
  {
    if b == "" {
      assert a + b == a;
    } else {
      var init := b[..|b| - 1];
      UnitsAdd(a, init);
      assert (a + b)[..|a + b| - 1] == a + init;
    }
  }

  // ------------------------------------------------------------ records

  datatype Category = AI | WorldNews | AudioEngineering | Hardware | FantasyNovel | Audiovisual | AvCorporate | OurSetup

  datatype Decision = DistinctEvent | MaterialUpdate

  datatype Fact = Fact(kind: string, unit: string, oldValue: string, newValue: string, gate: string)

  datatype Record = Record(
    candidate: string, category: Category, decision: Decision, title: string, summary: string,
    url: Option<string>, reasons: seq<string>, facts: seq<Fact>, ordinal: nat,
    subject: Option<string>, eventId: Option<string>, eventVersion: Option<nat>)

  function Label(c: Category): string {
    match c
    case AI => "AI" case WorldNews => "World" case AudioEngineering => "Audio Engineering"
    case Hardware => "Hardware" case FantasyNovel => "Fantasy Novel" case Audiovisual => "Audiovisual"
    case AvCorporate => "AV Corporate" case OurSetup => "Our Setup"
  }

  function Rank(c: Category): nat {
    match c
    case AI => 0 case WorldNews => 1 case AudioEngineering => 2 case Hardware => 3
    case FantasyNovel => 4 case Audiovisual => 5 case AvCorporate => 6 case OurSetup => 7
  }

  function Join(parts: seq<string>, sep: string): string {
    if parts == [] then ""
    else if |parts| == 1 then parts[0]
    else Join(parts[..|parts| - 1], sep) + sep + parts[|parts| - 1]
  }

  function FactTexts(facts: seq<Fact>): seq<string> {
    seq(|facts|, i requires 0 <= i < |facts| =>
      "kind=" + facts[i].kind + ", unit=" + Normalize(facts[i].unit) + ", old_value=" + Normalize(facts[i].oldValue)
      + ", new_value=" + Normalize(facts[i].newValue) + ", topic_gate=" + facts[i].gate)
  }

  function OrNone(s: string): string { if s == "" then "none" else s }

  /** `_render_record_paragraph`. */
  function Paragraph(r: Record): string {
    (if r.decision == DistinctEvent then "[NEW] " else "[UPDATE] ") + r.title + "\n"
    + r.summary + "\n"
    + (if r.url.Some? then r.url.value else "(no URL)") + "\n"
    + "Reasons: " + OrNone(Join(r.reasons, ", ")) + "\n"
    + "Facts: " + OrNone(Join(FactTexts(r.facts), ", "))
  }

  predicate KeyAtMost(a: Record, b: Record) {
    Rank(a.category) < Rank(b.category)
    || (a.category == b.category
        && (a.ordinal < b.ordinal || (a.ordinal == b.ordinal && TextAtMost(a.candidate, b.candidate))))
  }

  /** `_sort_key` order: category, then ordinal, then candidate id. */
  function ByKey(): (Record, Record) -> bool { (a, b) => KeyAtMost(a, b) }

  lemma ByKeyIsPreorder()
    ensures TotalPreorder(ByKey())
  {
    forall a: Record, b: Record ensures ByKey()(a, b) || ByKey()(b, a) {
      TextLessTrichotomy(a.candidate, b.candidate);
    }
    forall a: Record, b: Record, c: Record | ByKey()(a, b) && ByKey()(b, c) ensures ByKey()(a, c) {
      if TextLess(a.candidate, b.candidate) && TextLess(b.candidate, c.candidate) {
        TextLessTransitive(a.candidate, b.candidate, c.candidate);
      }
    }
  }

  // ------------------------------------------------------------ what a chunk says

  /** A paragraph of a chunk and what it stands for. */
  datatype Part = Head(text: string) | Tag(category: Category) | Item(record: Record)

  function PartText(p: Part): string {
    match p
    case Head(text) => text
    case Tag(c) => Label(c)
    case Item(r) => Paragraph(r)
  }

  /** The parts of a block of records after the heading: its label at the start and at each
      change of category, and every record. */
  function BodyParts(block: seq<Record>): seq<Part> {
    if block == [] then [] else
      var init, last := block[..|block| - 1], block[|block| - 1];
      BodyParts(init)
      + (if init == [] || init[|init| - 1].category != last.category then [Tag(last.category)] else [])
      + [Item(last)]
  }

  function Texts(parts: seq<Part>): seq<string> {
    seq(|parts|, i requires 0 <= i < |parts| => PartText(parts[i]))
  }

  /** The text of a chunk holding `block`: heading, labels and paragraphs, blank-line separated. */
  function ChunkText(heading: seq<string>, block: seq<Record>): string {
    Join(heading + Texts(BodyParts(block)), SEPARATOR)
  }

  predicate Fits(heading: seq<string>, block: seq<Record>) {
    Units(ChunkText(heading, block)) <= MAX_CHUNK_UNITS
  }

  // ------------------------------------------------------------ sizes

  function JoinedUnits(parts: seq<string>): nat {
    if parts == [] then 0 else JoinedUnits(parts[..|parts| - 1]) + 2 + Units(parts[|parts| - 1])
  }

  lemma {:induction false} UnitsOfJoin(parts: seq<string>)
    requires parts != []
    ensures Units(Join(parts, SEPARATOR)) + 2 == JoinedUnits(parts)
  {
    var init, last := parts[..|parts| - 1], parts[|parts| - 1];
    if |parts| == 1 {
      assert init == [];
      assert JoinedUnits(init) == 0;
    } else {
      UnitsOfJoin(init);
      UnitsAdd(Join(init, SEPARATOR) + SEPARATOR, last);
      UnitsAdd(Join(init, SEPARATOR), SEPARATOR);
      SeparatorIsTwoUnits();
    }
  }

  lemma SeparatorIsTwoUnits()
    ensures Units(SEPARATOR) == 2
  {
    assert SEPARATOR[..1] == "\n" && "\n"[..0] == "";
    assert EncodeUtf16("\n") == EncodeUtf16("") + EncodeChar('\n');
  }

  lemma {:induction false} JoinedUnitsAdd(a: seq<string>, b: seq<string>)
    ensures JoinedUnits(a + b) == JoinedUnits(a) + JoinedUnits(b)
  {
    if b == [] {
      assert a + b == a;
    } else {
      JoinedUnitsAdd(a, b[..|b| - 1]);
      assert (a + b)[..|a + b| - 1] == a + b[..|b| - 1];
    }
  }

  /** Size of a block's labels and paragraphs with their separators. */
  function BodyUnits(block: seq<Record>): nat {
    if block == [] then 0 else
      var init, last := block[..|block| - 1], block[|block| - 1];
      BodyUnits(init) + LabelUnits(init, last) + 2 + Units(Paragraph(last))
  }

  function LabelUnits(init: seq<Record>, last: Record): nat {
    if init == [] || init[|init| - 1].category != last.category then 2 + Units(Label(last.category)) else 0
  }

  function PartUnits(parts: seq<Part>): nat { JoinedUnits(Texts(parts)) }

  lemma TextsAdd(a: seq<Part>, b: seq<Part>)
    ensures Texts(a + b) == Texts(a) + Texts(b)
  {
  }

  lemma PartUnitsAdd(a: seq<Part>, b: seq<Part>)
    ensures PartUnits(a + b) == PartUnits(a) + PartUnits(b)
  {
    TextsAdd(a, b);
    JoinedUnitsAdd(Texts(a), Texts(b));
  }

  lemma {:induction false} BodyUnitsCount(block: seq<Record>)
    ensures PartUnits(BodyParts(block)) == BodyUnits(block)
  {
    if block != [] {
      var init, last := block[..|block| - 1], block[|block| - 1];
      BodyUnitsCount(init);
      var body := BodyParts(init);
      OneJoined(Item(last));
      if init == [] || init[|init| - 1].category != last.category {
        OneJoined(Tag(last.category));
        PartUnitsAdd(body, [Tag(last.category)]);
        PartUnitsAdd(body + [Tag(last.category)], [Item(last)]);
      } else {
        assert body + [] == body;
        PartUnitsAdd(body, [Item(last)]);
      }
    }
  }

  lemma OneJoined(p: Part)
    ensures PartUnits([p]) == 2 + Units(PartText(p))
  {
    var t := Texts([p]);
    assert t[..0] == [];
    assert JoinedUnits(t[..0]) == 0;
  }

  lemma ChunkUnits(heading: seq<string>, block: seq<Record>)
    requires heading != []
    ensures Units(ChunkText(heading, block)) + 2 == JoinedUnits(heading) + BodyUnits(block)
  {
    UnitsOfJoin(heading + Texts(BodyParts(block)));
    JoinedUnitsAdd(heading, Texts(BodyParts(block)));
    BodyUnitsCount(block);
  }

  lemma LastUnits(block: seq<Record>)
    requires block != []
    ensures var init, last := block[..|block| - 1], block[|block| - 1];
      BodyUnits(block) == BodyUnits(init) + LabelUnits(init, last) + 2 + Units(Paragraph(last))
  {
  }

  lemma PairShrinks(a: Record, b: Record)
    ensures BodyUnits([b]) <= BodyUnits([a, b])
    ensures a.category == b.category ==> BodyUnits([b]) + 2 + Units(Paragraph(a)) <= BodyUnits([a, b])
  {
    LastUnits([a, b]);
    LastUnits([a]);
    LastUnits([b]);
    assert [a, b][..1] == [a] && [a][..0] == [] && [b][..0] == [];
    assert a.category == b.category ==> LabelUnits([], a) == LabelUnits([], b);
  }

  /** Dropping the first record of a block never makes it larger, though the second record
      may then need a label of its own. */
  lemma {:induction false} DropFirstShrinks(block: seq<Record>)
    requires block != []
    ensures BodyUnits(block[1..]) <= BodyUnits(block)
    ensures |block| >= 2 && block[0].category == block[1].category ==>
              BodyUnits(block[1..]) + 2 + Units(Paragraph(block[0])) <= BodyUnits(block)
    decreases |block|
  {
    if |block| == 1 {
      assert block[1..] == [];
    } else if |block| == 2 {
      PairShrinks(block[0], block[1]);
      assert block == [block[0], block[1]] && block[1..] == [block[1]];
    } else {
      DropFirstShrinks(block[..|block| - 1]);
      LastUnits(block);
      LastUnits(block[1..]);
      BothEnds(block);
      LabelOfLonger(block);
    }
  }

  /** Dropping an element from either end commutes. */
  lemma BothEnds<T>(s: seq<T>)
    requires |s| >= 3
    ensures s[1..][..|s[1..]| - 1] == s[..|s| - 1][1..] && s[1..][|s[1..]| - 1] == s[|s| - 1]
  {
  }

  lemma LabelOfLonger(block: seq<Record>)
    requires |block| >= 3
    ensures LabelUnits(block[..|block| - 1][1..], block[|block| - 1]) == LabelUnits(block[..|block| - 1], block[|block| - 1])
  {
    var init := block[..|block| - 1];
    assert init[1..][|init| - 2] == init[|init| - 1];
  }

  lemma {:induction false} SuffixShrinks(block: seq<Record>, k: nat)
    requires k <= |block|
    ensures BodyUnits(block[k..]) <= BodyUnits(block)
    decreases k
  {
    if k == 0 {
      assert block[0..] == block;
    } else {
      SuffixShrinks(block, k - 1);
      DropFirstShrinks(block[k - 1..]);
      assert block[k - 1..][1..] == block[k..];
    }
  }

  lemma {:induction false} PrefixShrinks(block: seq<Record>, k: nat)
    requires k <= |block|
    ensures BodyUnits(block[..k]) <= BodyUnits(block)
    decreases |block|
  {
    if k < |block| {
      PrefixShrinks(block[..|block| - 1], k);
      assert block[..|block| - 1][..k] == block[..k];
    } else {
      assert block[..k] == block;
    }
  }

  /** Fitting is inherited by every contiguous part of a block. */
  lemma FitsInherited(heading: seq<string>, block: seq<Record>, i: nat, j: nat)
    requires heading != [] && i <= j <= |block| && Fits(heading, block)
    ensures Fits(heading, block[i..j])
  {
    PrefixShrinks(block, j);
    SuffixShrinks(block[..j], i);
    assert block[..j][i..] == block[i..j];
    ChunkUnits(heading, block);
    ChunkUnits(heading, block[i..j]);
  }

  // ------------------------------------------------------------ the packing loop

  datatype Status = Empty | NoDelivery | Rendered
  datatype Outcome = Result(status: Status, chunks: seq<string>) | Oversize(candidate: string) | CrossSubject | Duplicate | UnknownSubject

  function ChunkTexts(heading: seq<string>, blocks: seq<seq<Record>>): seq<string> {
    seq(|blocks|, i requires 0 <= i < |blocks| => ChunkText(heading, blocks[i]))
  }

  /** The bound every chunk meets, as a predicate on blocks. */
  function Fitting(heading: seq<string>): seq<Record> -> bool { block => Fits(heading, block) }

  lemma FittingIsInherited(heading: seq<string>)
    requires heading != []
    ensures Inherited(Fitting(heading))
  {
    forall block: seq<Record>, i: nat, j: nat | i <= j <= |block| && Fitting(heading)(block)
      ensures Fitting(heading)(Packing.Slice(block, i, j))
    {
      FitsInherited(heading, block, i, j);
    }
  }

  /** How appending one record changes the parts of a block. */
  function NewParts(block: seq<Record>, r: Record): seq<Part>
    requires block != []
  {
    if block[|block| - 1].category == r.category then [Item(r)] else [Tag(r.category), Item(r)]
  }

  lemma BodyPartsAppend(block: seq<Record>, r: Record)
    requires block != []
    ensures BodyParts(block + [r]) == BodyParts(block) + NewParts(block, r)
  {
    assert (block + [r])[..|block|] == block;
  }

  lemma AppendText(heading: seq<string>, block: seq<Record>, r: Record)
    requires heading != [] && block != []
    ensures ChunkText(heading, block + [r])
         == if block[|block| - 1].category == r.category
            then ChunkText(heading, block) + SEPARATOR + Paragraph(r)
            else ChunkText(heading, block) + SEPARATOR + Label(r.category) + SEPARATOR + Paragraph(r)
  {
    var base := heading + Texts(BodyParts(block));
    BodyPartsAppend(block, r);
    TextsAdd(BodyParts(block), NewParts(block, r));
    var added := Texts(NewParts(block, r));
    assert heading + Texts(BodyParts(block + [r])) == base + added;
    if block[|block| - 1].category == r.category {
      assert added == [Paragraph(r)];
      JoinAppend(base, Paragraph(r));
    } else {
      assert base + added == base + [Label(r.category)] + [Paragraph(r)];
      JoinAppend(base, Label(r.category));
      JoinAppend(base + [Label(r.category)], Paragraph(r));
    }
  }

  lemma JoinAppend(parts: seq<string>, p: string)
    requires parts != []
    ensures Join(parts + [p], SEPARATOR) == Join(parts, SEPARATOR) + SEPARATOR + p
  {
    assert (parts + [p])[..|parts|] == parts;
  }

  lemma SingleText(heading: seq<string>, r: Record)
    ensures ChunkText(heading, [r]) == Join(heading + [Label(r.category), Paragraph(r)], SEPARATOR)
  {
    assert [r][..0] == [];
    assert BodyParts([r]) == [] + [Tag(r.category)] + [Item(r)];
    assert Texts(BodyParts([r])) == [Label(r.category), Paragraph(r)];
  }

  /** The records packed so far: closed blocks, and the open one. */
  ghost predicate Packed(fits: seq<Record> -> bool, done: seq<Record>, closed: seq<seq<Record>>, open: seq<Record>) {
    && open != [] && Splits(fits, closed + [open], done)
    && Greedy(fits, closed + [open])
  }

  lemma PackFirst(fits: seq<Record> -> bool, r: Record)
    requires fits([r])
    ensures Packed(fits, [r], [], [r])
  {
    FlattenAppend([], [r]);
    assert Flatten([] + [[r]]) == [r];
  }

  lemma PackGrow(fits: seq<Record> -> bool, done: seq<Record>, closed: seq<seq<Record>>, open: seq<Record>, r: Record)
    requires Packed(fits, done, closed, open) && fits(open + [r])
    ensures Packed(fits, done + [r], closed, open + [r])
  {
    var a, b := closed + [open], closed + [open + [r]];
    FlattenAppend(closed, open + [r]);
    FlattenAppend(closed, open);
    assert Flatten(closed) + (open + [r]) == Flatten(closed) + open + [r];
    forall i | 0 <= i < |b| ensures b[i] != [] && fits(b[i]) {
      assert a[i] != [] && fits(a[i]);
    }
    forall i | 0 <= i < |b| - 1 ensures Full(fits, b, i) {
      assert Full(fits, a, i);
      assert a[i] == b[i] && a[i + 1][0] == b[i + 1][0];
    }
  }

  lemma PackClose(fits: seq<Record> -> bool, done: seq<Record>, closed: seq<seq<Record>>, open: seq<Record>, r: Record)
    requires Packed(fits, done, closed, open) && !fits(open + [r]) && fits([r])
    ensures Packed(fits, done + [r], closed + [open], [r])
  {
    var a := closed + [open];
    var b := a + [[r]];
    FlattenAppend(a, [r]);
    forall i | 0 <= i < |b| ensures b[i] != [] && fits(b[i]) {
      if i < |a| { assert a[i] != [] && fits(a[i]); }
    }
    forall i | 0 <= i < |b| - 1 ensures Full(fits, b, i) {
      if i < |a| - 1 {
        assert Full(fits, a, i);
      } else {
        assert b[i] == open && b[i + 1] == [r];
      }
    }
  }

  /** The text a record would start a chunk with. */
  function AloneText(heading: seq<string>, r: Record): (t: string)
    ensures t == ChunkText(heading, [r])
    ensures Fitting(heading)([r]) <==> Units(t) <= MAX_CHUNK_UNITS
  {
    SingleText(heading, r);
    Join(heading + [Label(r.category), Paragraph(r)], SEPARATOR)
  }

  /** The text of the open chunk with the record appended, under a new label if its category is new. */
  function GrownText(ghost heading: seq<string>, ghost open: seq<Record>, text: string, category: Category, r: Record): (t: string)
    requires heading != [] && open != [] && text == ChunkText(heading, open) && category == open[|open| - 1].category
    ensures t == ChunkText(heading, open + [r])
    ensures Fitting(heading)(open + [r]) <==> Units(t) <= MAX_CHUNK_UNITS
  {
    AppendText(heading, open, r);
    if category == r.category then text + SEPARATOR + Paragraph(r)
    else text + SEPARATOR + Label(r.category) + SEPARATOR + Paragraph(r)
  }

  /** `candidate` names the first record, in order, that no chunk can hold. */
  ghost predicate FirstOverflow(fits: seq<Record> -> bool, records: seq<Record>, candidate: string) {
    exists i :: 0 <= i < |records| && records[i].candidate == candidate && !fits([records[i]])
                && forall k :: 0 <= k < i ==> fits([records[k]])
  }

  lemma OverflowFound(fits: seq<Record> -> bool, records: seq<Record>, i: nat)
    requires i < |records| && EachFitsAlone(fits, records[..i]) && !fits([records[i]])
    ensures FirstOverflow(fits, records, records[i].candidate)
  {
    forall k | 0 <= k < i ensures fits([records[k]]) {
      assert records[..i][k] == records[k];
    }
  }

  lemma ChunkTextsAppend(heading: seq<string>, blocks: seq<seq<Record>>, b: seq<Record>)
    ensures ChunkTexts(heading, blocks + [b]) == ChunkTexts(heading, blocks) + [ChunkText(heading, b)]
  {
  }

  lemma TakeOneMore<T>(s: seq<T>, i: nat)
    requires i < |s|
    ensures s[..i + 1] == s[..i] + [s[i]]
  {
  }

  /** The loop after i > 0 records: finished chunks, and the open one with its text and label. */
  ghost predicate PackState(heading: seq<string>, records: seq<Record>, i: nat, chunks: seq<string>, text: string, category: Category, closed: seq<seq<Record>>, open: seq<Record>)
    requires i <= |records|
  {
    && chunks == ChunkTexts(heading, closed)
    && Packed(Fitting(heading), records[..i], closed, open)
    && text == ChunkText(heading, open) && category == open[|open| - 1].category
  }

  lemma StateFirst(heading: seq<string>, records: seq<Record>)
    requires records != [] && Fitting(heading)([records[0]])
    ensures PackState(heading, records, 1, [], ChunkText(heading, [records[0]]), records[0].category, [], [records[0]])
  {
    PackFirst(Fitting(heading), records[0]);
    assert records[..1] == [records[0]];
  }

  lemma StateGrow(heading: seq<string>, records: seq<Record>, i: nat, chunks: seq<string>, text: string, category: Category, closed: seq<seq<Record>>, open: seq<Record>)
    requires i < |records| && PackState(heading, records, i, chunks, text, category, closed, open)
    requires Fitting(heading)(open + [records[i]])
    ensures PackState(heading, records, i + 1, chunks, ChunkText(heading, open + [records[i]]), records[i].category, closed, open + [records[i]])
  {
    TakeOneMore(records, i);
    PackGrow(Fitting(heading), records[..i], closed, open, records[i]);
  }

  lemma StateClose(heading: seq<string>, records: seq<Record>, i: nat, chunks: seq<string>, text: string, category: Category, closed: seq<seq<Record>>, open: seq<Record>)
    requires i < |records| && PackState(heading, records, i, chunks, text, category, closed, open)
    requires !Fitting(heading)(open + [records[i]]) && Fitting(heading)([records[i]])
    ensures PackState(heading, records, i + 1, chunks + [text], ChunkText(heading, [records[i]]), records[i].category, closed + [open], [records[i]])
  {
    TakeOneMore(records, i);
    ChunkTextsAppend(heading, closed, open);
    PackClose(Fitting(heading), records[..i], closed, open, records[i]);
  }

  lemma StateOverflows(heading: seq<string>, records: seq<Record>, i: nat, chunks: seq<string>, text: string, category: Category, closed: seq<seq<Record>>, open: seq<Record>)
    requires heading != [] && i < |records| && PackState(heading, records, i, chunks, text, category, closed, open)
    requires !Fitting(heading)([records[i]])
    ensures FirstOverflow(Fitting(heading), records, records[i].candidate)
  {
    FittingIsInherited(heading);
    SplitHoldsEach(Fitting(heading), closed + [open], records[..i]);
    OverflowFound(Fitting(heading), records, i);
  }

  /** The loop of `render_briefing` over the sorted records. */
  method Pack(heading: seq<string>, records: seq<Record>) returns (out: Outcome, ghost blocks: seq<seq<Record>>)
    requires heading != [] && records != []
    ensures out.Oversize? || out.Result?
    ensures out.Result? ==> out == Result(Rendered, ChunkTexts(heading, blocks))
                            && Splits(Fitting(heading), blocks, records) && Greedy(Fitting(heading), blocks)
    ensures out.Oversize? ==> FirstOverflow(Fitting(heading), records, out.candidate)
  {
    var chunks: seq<string> := [];
    var currentText: Option<string> := None;
    var currentCategory := AI;
    ghost var closed: seq<seq<Record>> := [];
    ghost var open: seq<Record> := [];
    for i := 0 to |records|
      invariant currentText.Some? <==> i > 0
      invariant i == 0 ==> chunks == [] && closed == []
      invariant i > 0 ==> PackState(heading, records, i, chunks, currentText.value, currentCategory, closed, open)
    {
      var r := records[i];
      var candidateText :=
        if currentText.None? then AloneText(heading, r)
        else GrownText(heading, open, currentText.value, currentCategory, r);
      if Units(candidateText) <= MAX_CHUNK_UNITS {
        if i == 0 {
          StateFirst(heading, records);
          open := [r];
        } else {
          StateGrow(heading, records, i, chunks, currentText.value, currentCategory, closed, open);
          open := open + [r];
        }
        currentText, currentCategory := Some(candidateText), r.category;
        continue;
      }
      candidateText := AloneText(heading, r);
      if Units(candidateText) > MAX_CHUNK_UNITS {
        if i > 0 {
          StateOverflows(heading, records, i, chunks, currentText.value, currentCategory, closed, open);
        } else {
          OverflowFound(Fitting(heading), records, i);
        }
        return Oversize(r.candidate), [];
      }
      StateClose(heading, records, i, chunks, currentText.value, currentCategory, closed, open);
      chunks := chunks + [currentText.value];
      closed, open := closed + [open], [r];
      currentText, currentCategory := Some(candidateText), r.category;
    }
    assert records[..|records|] == records;
    ChunkTextsAppend(heading, closed, open);
    return Result(Rendered, chunks + [currentText.value]), closed + [open];
  }
}
