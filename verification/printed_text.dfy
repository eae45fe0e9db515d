/** What a rendered chunk reads like, line by line (briefing_renderer.py): where the heading,
    the labels and the lines of every record stand, and in which order records come. */
module PrintedText {
  import opened Ordering
  import opened UtcText
  import opened TextRules
  import opened Packing
  import opened TextLayout
  import R = Renderer
  import opened Rendering

  // ------------------------------------------------------------ what a record reads like

  /** Items with a comma and a blank between them. */
  function Commas(items: seq<string>): string {
    if items == [] then "" else if |items| == 1 then items[0] else items[0] + ", " + Commas(items[1..])
  }

  function FactText(f: R.Fact): string {
    "kind=" + f.kind + ", unit=" + Normalize(f.unit) + ", old_value=" + Normalize(f.oldValue)
    + ", new_value=" + Normalize(f.newValue) + ", topic_gate=" + f.gate
  }

  function AllFacts(facts: seq<R.Fact>): seq<string> { seq(|facts|, i requires 0 <= i < |facts| => FactText(facts[i])) }

  /** The five lines of a record. */
  function RecordLines(r: R.Record): (lines: seq<string>)
    ensures |lines| == 5
  {
    [match r.decision case DistinctEvent => "[NEW] " + r.title case MaterialUpdate => "[UPDATE] " + r.title,
     r.summary,
     match r.url case Some(url) => url case None => "(no URL)",
     if r.reasons == [] then "Reasons: none" else "Reasons: " + Commas(r.reasons),
     if r.facts == [] then "Facts: none" else "Facts: " + Commas(AllFacts(r.facts))]
  }

  /** The line that names a category. */
  function NameOf(c: R.Category): string {
    match c
    case AI => "AI"
    case WorldNews => "World"
    case AudioEngineering => "Audio Engineering"
    case Hardware => "Hardware"
    case FantasyNovel => "Fantasy Novel"
    case Audiovisual => "Audiovisual"
    case AvCorporate => "AV Corporate"
    case OurSetup => "Our Setup"
  }

  /** What the record's own validators guarantee: no field holds a line feed, and reasons and
      fact kinds are not empty. */
  predicate Displayable(r: R.Record) {
    && OneLine(r.title) && OneLine(r.summary) && (r.url.Some? ==> OneLine(r.url.value))
    && (forall k :: 0 <= k < |r.reasons| ==> OneLine(r.reasons[k]) && r.reasons[k] != "")
    && (forall k :: 0 <= k < |r.facts| ==> OneLine(r.facts[k].kind) && OneLine(r.facts[k].gate))
  }

  lemma {:induction false} CommasFromTheEnd(items: seq<string>)
    requires |items| >= 2
    ensures Commas(items) == Commas(items[..|items| - 1]) + ", " + items[|items| - 1]
  {
    if |items| == 2 {
      assert items[1..] == [items[1]] && items[..1] == [items[0]];
    } else {
      CommasFromTheEnd(items[1..]);
      var init := items[..|items| - 1];
      assert items[1..][..|items| - 2] == init[1..];
    }
  }

  lemma {:induction false} CommasAreJoined(items: seq<string>)
    ensures R.Join(items, ", ") == Commas(items)
  {
    if |items| >= 2 {
      CommasAreJoined(items[..|items| - 1]);
      CommasFromTheEnd(items);
    }
  }

  lemma {:induction false} CommasAreOneLine(items: seq<string>)
    requires forall k :: 0 <= k < |items| ==> OneLine(items[k])
    ensures OneLine(Commas(items))
  {
    if |items| >= 2 { CommasAreOneLine(items[1..]); }
  }

  lemma CommasShow(items: seq<string>)
    requires items != [] && items[0] != ""
    ensures Commas(items) != ""
  {
  }

  lemma NormalizedIsOneLine(s: string)
    ensures OneLine(Normalize(s))
  {
    NormalizedText(s);
    var t := Normalize(s);
    forall k | 0 <= k < |t| ensures t[k] != '\n' { assert !Forbidden(t[k]); }
  }

  lemma OneLineTogether(a: string, b: string)
    requires OneLine(a) && OneLine(b)
    ensures OneLine(a + b)
  {
  }

  lemma FactIsOneLine(f: R.Fact)
    requires OneLine(f.kind) && OneLine(f.gate)
    ensures OneLine(FactText(f)) && FactText(f) != ""
  {
    var a := "kind=" + f.kind;
    var b := a + ", unit=" + Normalize(f.unit);
    var c := b + ", old_value=" + Normalize(f.oldValue);
    var d := c + ", new_value=" + Normalize(f.newValue);
    NormalizedIsOneLine(f.unit);
    NormalizedIsOneLine(f.oldValue);
    NormalizedIsOneLine(f.newValue);
    OneLineTogether("kind=", f.kind);
    OneLineTogether(a, ", unit=");
    OneLineTogether(a + ", unit=", Normalize(f.unit));
    OneLineTogether(b, ", old_value=");
    OneLineTogether(b + ", old_value=", Normalize(f.oldValue));
    OneLineTogether(c, ", new_value=");
    OneLineTogether(c + ", new_value=", Normalize(f.newValue));
    OneLineTogether(d, ", topic_gate=");
    OneLineTogether(d + ", topic_gate=", f.gate);
    assert FactText(f) == d + ", topic_gate=" + f.gate;
  }

  lemma FactsAreOneLine(facts: seq<R.Fact>)
    requires forall k :: 0 <= k < |facts| ==> OneLine(facts[k].kind) && OneLine(facts[k].gate)
    ensures forall k :: 0 <= k < |facts| ==> OneLine(AllFacts(facts)[k]) && AllFacts(facts)[k] != ""
  {
    forall k | 0 <= k < |facts| ensures OneLine(AllFacts(facts)[k]) && AllFacts(facts)[k] != "" {
      FactIsOneLine(facts[k]);
    }
  }

  /** The last two lines. */
  lemma ReasonsAndFacts(r: R.Record)
    requires Displayable(r)
    ensures var reasons, facts := R.OrNone(R.Join(r.reasons, ", ")), R.OrNone(R.Join(R.FactTexts(r.facts), ", "));
      && OneLine(reasons) && OneLine(facts)
      && reasons == (if r.reasons == [] then "none" else Commas(r.reasons))
      && facts == (if r.facts == [] then "none" else Commas(AllFacts(r.facts)))
  {
    CommasAreJoined(r.reasons);
    CommasAreOneLine(r.reasons);
    FactsAreOneLine(r.facts);
    assert R.FactTexts(r.facts) == AllFacts(r.facts);
    CommasAreJoined(AllFacts(r.facts));
    CommasAreOneLine(AllFacts(r.facts));
    if r.reasons != [] { CommasShow(r.reasons); }
    if r.facts != [] { CommasShow(AllFacts(r.facts)); }
  }

  lemma Regroup(a: string, b: string, c: string)
    ensures a + b + c == a + (b + c)
  {
  }

  /** The first line and the link line. */
  function TitleLine(r: R.Record): string { (if r.decision == R.DistinctEvent then "[NEW] " else "[UPDATE] ") + r.title }

  function LinkLine(r: R.Record): string { if r.url.Some? then r.url.value else "(no URL)" }

  lemma ParagraphIs(r: R.Record, reasons: string, facts: string)
    requires reasons == R.OrNone(R.Join(r.reasons, ", ")) && facts == R.OrNone(R.Join(R.FactTexts(r.facts), ", "))
    ensures R.Paragraph(r) ==
      TitleLine(r) + "\n" + r.summary + "\n" + LinkLine(r) + "\n" + ("Reasons: " + reasons) + "\n" + ("Facts: " + facts)
  {
    var p := TitleLine(r) + "\n" + r.summary + "\n" + LinkLine(r) + "\n";
    assert R.Paragraph(r) == p + "Reasons: " + reasons + "\n" + "Facts: " + facts;
    Regroup(p, "Reasons: ", reasons);
    Regroup(p + ("Reasons: " + reasons) + "\n", "Facts: ", facts);
  }

  lemma FirstLinesAreSingle(r: R.Record)
    requires Displayable(r)
    ensures OneLine(TitleLine(r)) && OneLine(LinkLine(r))
  {
    OneLineTogether("[NEW] ", r.title);
    OneLineTogether("[UPDATE] ", r.title);
  }

  lemma ParagraphLines(r: R.Record, reasons: string, facts: string)
    requires reasons == R.OrNone(R.Join(r.reasons, ", ")) && facts == R.OrNone(R.Join(R.FactTexts(r.facts), ", "))
    requires Displayable(r) && OneLine(reasons) && OneLine(facts)
    ensures Lines(R.Paragraph(r)) == [TitleLine(r), r.summary, LinkLine(r), "Reasons: " + reasons, "Facts: " + facts]
  {
    FirstLinesAreSingle(r);
    OneLineTogether("Reasons: ", reasons);
    OneLineTogether("Facts: ", facts);
    ParagraphIs(r, reasons, facts);
    FiveLines(TitleLine(r), r.summary, LinkLine(r), "Reasons: " + reasons, "Facts: " + facts);
  }

  lemma ReadsAs(r: R.Record, reasons: string, facts: string)
    requires reasons == (if r.reasons == [] then "none" else Commas(r.reasons))
    requires facts == (if r.facts == [] then "none" else Commas(AllFacts(r.facts)))
    ensures [TitleLine(r), r.summary, LinkLine(r), "Reasons: " + reasons, "Facts: " + facts] == RecordLines(r)
  {
    assert "Reasons: " + "none" == "Reasons: none" && "Facts: " + "none" == "Facts: none";
  }

  lemma ParagraphReads(r: R.Record)
    requires Displayable(r)
    ensures Lines(R.Paragraph(r)) == RecordLines(r)
  {
    var reasons, facts := R.OrNone(R.Join(r.reasons, ", ")), R.OrNone(R.Join(R.FactTexts(r.facts), ", "));
    ReasonsAndFacts(r);
    ParagraphLines(r, reasons, facts);
    ReadsAs(r, reasons, facts);
  }

  lemma LabelIsSpelled(c: R.Category)
    ensures R.Label(c) == NameOf(c)
  {
  }

  lemma LabelIsOneLine(c: R.Category)
    ensures OneLine(R.Label(c))
  {
  }

  lemma LabelNames(c: R.Category)
    ensures Lines(R.Label(c)) == [NameOf(c)]
  {
    LabelIsSpelled(c);
    LabelIsOneLine(c);
    LinesOfOne(R.Label(c));
  }

  // ------------------------------------------------------------ a whole chunk

  /** One more paragraph at the end of some. */
  lemma LinesGrow(parts: seq<string>, last: string)
    requires parts != []
    ensures Lines(R.Join(parts + [last], R.SEPARATOR)) == Lines(R.Join(parts, R.SEPARATOR)) + [""] + Lines(last)
  {
    assert (parts + [last])[..|parts|] == parts;
    LinesAfterBlank(R.Join(parts, R.SEPARATOR), last);
  }

  lemma {:induction false} HeadingReads(heading: seq<string>)
    requires heading != [] && forall k :: 0 <= k < |heading| ==> OneLine(heading[k])
    ensures Lines(R.Join(heading, R.SEPARATOR)) == HeadingLines(heading)
  {
    if |heading| == 1 {
      LinesOfOne(heading[0]);
    } else {
      var init, last := heading[..|heading| - 1], heading[|heading| - 1];
      assert heading == init + [last];
      LinesGrow(init, last);
      LinesOfOne(last);
      HeadingReads(init);
    }
  }

  /** The block as it is shown. */
  function Shows(block: seq<R.Record>): seq<Shown> {
    seq(|block|, k requires 0 <= k < |block| => Shown(NameOf(block[k].category), RecordLines(block[k])))
  }

  lemma NamesTellCategories(a: R.Category, b: R.Category)
    ensures NameOf(a) == NameOf(b) <==> a == b
  {
  }

  lemma ShowsGrow(init: seq<R.Record>, last: R.Record)
    ensures Shows(init + [last]) == Shows(init) + [Shown(NameOf(last.category), RecordLines(last))]
  {
  }

  predicate NewLabel(init: seq<R.Record>, last: R.Record) { init == [] || init[|init| - 1].category != last.category }

  lemma TextsGrow(init: seq<R.Record>, last: R.Record)
    ensures R.Texts(R.BodyParts(init + [last])) == R.Texts(R.BodyParts(init))
      + (if NewLabel(init, last) then [R.Label(last.category), R.Paragraph(last)] else [R.Paragraph(last)])
  {
    assert (init + [last])[..|init|] == init;
  }

  lemma NewLabelHasNewName(init: seq<R.Record>, last: R.Record)
    requires NewLabel(init, last)
    ensures Shows(init) == [] || Shows(init)[|Shows(init)| - 1].name != NameOf(last.category)
  {
    if init != [] { NamesTellCategories(init[|init| - 1].category, last.category); }
  }

  /** One more record under the same label, as lines. */
  lemma ChunkGrowsSame(heading: seq<string>, init: seq<R.Record>, last: R.Record)
    requires heading != [] && !NewLabel(init, last)
    ensures Lines(R.ChunkText(heading, init + [last])) == Lines(R.ChunkText(heading, init)) + [""] + Lines(R.Paragraph(last))
  {
    var parts := heading + R.Texts(R.BodyParts(init));
    TextsGrow(init, last);
    assert heading + R.Texts(R.BodyParts(init + [last])) == parts + [R.Paragraph(last)];
    LinesGrow(parts, R.Paragraph(last));
  }

  /** One more record with a label of its own, as lines. */
  lemma ChunkGrowsNew(heading: seq<string>, init: seq<R.Record>, last: R.Record)
    requires heading != [] && NewLabel(init, last)
    ensures Lines(R.ChunkText(heading, init + [last])) ==
      Lines(R.ChunkText(heading, init)) + [""] + [NameOf(last.category)] + [""] + Lines(R.Paragraph(last))
  {
    var parts, tag := heading + R.Texts(R.BodyParts(init)), R.Label(last.category);
    TextsGrow(init, last);
    assert heading + R.Texts(R.BodyParts(init + [last])) == parts + [tag] + [R.Paragraph(last)];
    LinesGrow(parts, tag);
    LinesGrow(parts + [tag], R.Paragraph(last));
    LabelNames(last.category);
  }

  lemma LaidOutGrows(before: seq<string>, after: seq<string>, heading: nat, init: seq<R.Record>, last: R.Record)
    requires heading >= 1 && LaidOut(before, heading, Shows(init))
    requires NewLabel(init, last) ==> after == before + [""] + [NameOf(last.category)] + [""] + RecordLines(last)
    requires !NewLabel(init, last) ==> after == before + [""] + RecordLines(last)
    ensures LaidOut(after, heading, Shows(init + [last])) && before <= after
  {
    ShowsGrow(init, last);
    var shown := Shown(NameOf(last.category), RecordLines(last));
    if NewLabel(init, last) {
      NewLabelHasNewName(init, last);
      LaidOutNew(before, after, heading, Shows(init), shown);
    } else {
      LaidOutSame(before, after, heading, Shows(init), shown);
    }
  }

  lemma LayoutGrows(heading: seq<string>, init: seq<R.Record>, last: R.Record)
    requires heading != [] && Displayable(last) && LaidOut(Lines(R.ChunkText(heading, init)), |heading|, Shows(init))
    ensures LaidOut(Lines(R.ChunkText(heading, init + [last])), |heading|, Shows(init + [last]))
    ensures Lines(R.ChunkText(heading, init)) <= Lines(R.ChunkText(heading, init + [last]))
  {
    ParagraphReads(last);
    if NewLabel(init, last) { ChunkGrowsNew(heading, init, last); } else { ChunkGrowsSame(heading, init, last); }
    LaidOutGrows(Lines(R.ChunkText(heading, init)), Lines(R.ChunkText(heading, init + [last])), |heading|, init, last);
  }

  /** The text of a chunk, line by line. */
  lemma {:induction false} ChunkReads(heading: seq<string>, block: seq<R.Record>)
    requires heading != [] && forall k :: 0 <= k < |heading| ==> OneLine(heading[k])
    requires forall k :: 0 <= k < |block| ==> Displayable(block[k])
    ensures LaidOut(Lines(R.ChunkText(heading, block)), |heading|, Shows(block))
    ensures HeadingLines(heading) <= Lines(R.ChunkText(heading, block))
  {
    if block == [] {
      HeadingReads(heading);
      HeadingShape(heading);
      assert heading + R.Texts(R.BodyParts(block)) == heading;
      assert Shows(block) == [];
      NothingLaidOut(Lines(R.ChunkText(heading, block)), |heading|);
    } else {
      var init, last := block[..|block| - 1], block[|block| - 1];
      assert block == init + [last];
      ChunkReads(heading, init);
      LayoutGrows(heading, init, last);
    }
  }

  // ------------------------------------------------------------ a whole briefing

  /** The line that names a subject. */
  predicate NamesSubject(line: string, subject: string) {
    && (subject == "ai" ==> line == "AI") && (subject == "world" ==> line == "World")
    && (subject == "audio_engineering" ==> line == "Audio Engineering")
    && (subject == "professional_av" ==> line == "Professional AV")
    && (subject == "hardware" ==> line == "Hardware") && (subject == "fantasy_novel" ==> line == "Fantasy Novel")
    && (subject == "our_setup" ==> line == "Our Setup")
  }

  /** Header, then the subject's line when there is a subject, then the records. */
  ghost predicate ReadsAsBriefing(chunk: string, date: string, subject: Option<string>, block: seq<R.Record>) {
    var lines := Lines(chunk);
    && LaidOut(lines, if subject.Some? then 2 else 1, Shows(block))
    && lines[0] == "Morning briefing \U{2014} " + date
    && (subject.Some? ==> |lines| >= 3 && lines[1] == "" && NamesSubject(lines[2], subject.value))
  }

  lemma SubjectIsSpelled(subject: string)
    requires SubjectLabel(subject).Some?
    ensures NamesSubject(SubjectLabel(subject).value, subject) && OneLine(SubjectLabel(subject).value)
  {
  }

  lemma HeadingIsOneLine(date: string)
    requires OneLine(date)
    ensures OneLine("Morning briefing \U{2014} " + date)
  {
    OneLineTogether("Morning briefing \U{2014} ", date);
  }

  lemma TwoHeadingLines(a: string, b: string)
    ensures HeadingLines([a, b]) == [a, "", b]
  {
    assert [a, b][..1] == [a];
  }

  /** Every chunk of a rendered briefing, line by line: the header, the subject's own label, and
      the block's records in order, each with its five lines under the label of its category. */
  lemma ChunkReadsAsBriefing(date: string, subject: Option<string>, block: seq<R.Record>)
    requires OneLine(date) && (subject.Some? ==> SubjectLabel(subject.value).Some?)
    requires forall k :: 0 <= k < |block| ==> Displayable(block[k])
    ensures ReadsAsBriefing(R.ChunkText(Heading(date, subject), block), date, subject, block)
  {
    var heading := Heading(date, subject);
    HeadingIsOneLine(date);
    if subject.Some? {
      SubjectIsSpelled(subject.value);
      TwoHeadingLines(heading[0], heading[1]);
      assert heading == [heading[0], heading[1]];
    }
    ChunkReads(heading, block);
    var lines := Lines(R.ChunkText(heading, block));
    assert lines[..|HeadingLines(heading)|] == HeadingLines(heading);
  }

  /** The order of the categories. */
  const CATEGORIES: seq<R.Category> :=
    [R.AI, R.WorldNews, R.AudioEngineering, R.Hardware, R.FantasyNovel, R.Audiovisual, R.AvCorporate, R.OurSetup]

  /** Record a does not come after b: by category, then ordinal, then candidate. */
  ghost predicate ComesFirst(a: R.Record, b: R.Record) {
    exists i, j :: 0 <= i < 8 && 0 <= j < 8 && CATEGORIES[i] == a.category && CATEGORIES[j] == b.category
      && (i < j || (i == j && (a.ordinal < b.ordinal || (a.ordinal == b.ordinal && TextAtMost(a.candidate, b.candidate)))))
  }

  lemma CategoryStands(c: R.Category)
    ensures R.Rank(c) < 8 && CATEGORIES[R.Rank(c)] == c
  {
  }

  lemma KeyMeansFirst(a: R.Record, b: R.Record)
    requires R.KeyAtMost(a, b)
    ensures ComesFirst(a, b)
  {
    CategoryStands(a.category);
    CategoryStands(b.category);
  }

  /** Over all chunks together the records come in category, ordinal and candidate order, each
      exactly once. */
  lemma RecordsComeInOrder(heading: seq<string>, records: seq<R.Record>, chunks: seq<string>, blocks: seq<seq<R.Record>>)
    requires heading != [] && RenderedAs(heading, records, chunks, blocks)
    ensures var all := Flatten(blocks);
      multiset(all) == multiset(records) && forall i, j :: 0 <= i <= j < |all| ==> ComesFirst(all[i], all[j])
  {
    var all := Flatten(blocks);
    R.ByKeyIsPreorder();
    SortFacts(records, R.ByKey());
    forall i, j | 0 <= i <= j < |all| ensures ComesFirst(all[i], all[j]) {
      assert R.ByKey()(all[i], all[j]);
      KeyMeansFirst(all[i], all[j]);
    }
  }

  lemma {:induction false} BlockIsInside(blocks: seq<seq<R.Record>>, i: nat, k: nat)
    requires i < |blocks| && k < |blocks[i]|
    ensures blocks[i][k] in Flatten(blocks)
  {
    var init, last := blocks[..|blocks| - 1], blocks[|blocks| - 1];
    if i < |init| { BlockIsInside(init, i, k); }
    else { assert (Flatten(init) + last)[|Flatten(init)| + k] == last[k]; }
  }

  /** So a rendered briefing reads, chunk by chunk, as its blocks say. */
  lemma BriefingReads(date: string, subject: Option<string>, records: seq<R.Record>, chunks: seq<string>, blocks: seq<seq<R.Record>>, i: nat)
    requires OneLine(date) && (subject.Some? ==> SubjectLabel(subject.value).Some?)
    requires forall k :: 0 <= k < |records| ==> Displayable(records[k])
    requires RenderedAs(Heading(date, subject), records, chunks, blocks) && i < |chunks|
    ensures i < |blocks| && ReadsAsBriefing(chunks[i], date, subject, blocks[i])
  {
    forall k | 0 <= k < |blocks[i]| ensures Displayable(blocks[i][k]) {
      BlockIsInside(blocks, i, k);
      assert blocks[i][k] in multiset(Flatten(blocks));
      assert blocks[i][k] in records;
    }
    ChunkReadsAsBriefing(date, subject, blocks[i]);
  }
}
