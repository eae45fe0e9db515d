/** `render_briefing` as a whole, and what it promises: faithful, exact about overflow, and
    optimal in the number of chunks. */
module Rendering {
  import opened Ordering
  import opened UtcText
  import opened Packing
  import opened Renderer

  // ------------------------------------------------------------ faithfulness

  function Items(parts: seq<Part>): seq<Record> {
    if parts == [] then [] else
      Items(parts[..|parts| - 1]) + (if parts[|parts| - 1].Item? then [parts[|parts| - 1].record] else [])
  }

  lemma {:induction false} ItemsAdd(a: seq<Part>, b: seq<Part>)
    ensures Items(a + b) == Items(a) + Items(b)
  {
    if b == [] {
      assert a + b == a;
    } else {
      ItemsAdd(a, b[..|b| - 1]);
      assert (a + b)[..|a + b| - 1] == a + b[..|b| - 1];
    }
  }

  /** The category whose label is nearest above position k. */
  function Under(parts: seq<Part>, k: nat): Option<Category>
    requires k <= |parts|
  {
    if k == 0 then None
    else if parts[k - 1].Tag? then Some(parts[k - 1].category)
    else Under(parts, k - 1)
  }

  lemma {:induction false} UnderPrefix(a: seq<Part>, b: seq<Part>, k: nat)
    requires k <= |a| <= |b| && b[..|a|] == a
    ensures Under(a, k) == Under(b, k)
  {
    if k > 0 {
      UnderPrefix(a, b, k - 1);
      assert b[k - 1] == b[..|a|][k - 1];
    }
  }

  /** The records of a chunk body are the block's records, each once, in order, and every one
      stands under the label of its own category. */
  lemma {:induction false} BodyHoldsTheBlock(block: seq<Record>)
    ensures Items(BodyParts(block)) == block
  {
    if block != [] {
      var init, last := block[..|block| - 1], block[|block| - 1];
      BodyHoldsTheBlock(init);
      var a, b := BodyParts(init), BodyParts(block);
      assert b[..|b| - 1] == a || b[..|b| - 1] == a + [Tag(last.category)];
      ItemsAdd(a, [Tag(last.category)]);
      assert [Tag(last.category)][..0] == [];
      assert Items([Tag(last.category)]) == [];
      assert block == init + [last];
    }
  }

  lemma {:induction false} BodyIsFaithful(block: seq<Record>)
    ensures Items(BodyParts(block)) == block
    ensures forall k :: 0 <= k < |BodyParts(block)| && BodyParts(block)[k].Item? ==>
      Under(BodyParts(block), k) == Some(BodyParts(block)[k].record.category)
    ensures block != [] ==> Under(BodyParts(block), |BodyParts(block)|) == Some(block[|block| - 1].category)
  {
    BodyHoldsTheBlock(block);
    if block != [] {
      var init, last := block[..|block| - 1], block[|block| - 1];
      BodyIsFaithful(init);
      var a, b := BodyParts(init), BodyParts(block);
      assert b[..|a|] == a;
      UnderPrefix(a, b, |a|);
      forall k | 0 <= k < |b| && b[k].Item? ensures Under(b, k) == Some(b[k].record.category) {
        if k < |a| { UnderPrefix(a, b, k); }
      }
    }
  }

  /** Every chunk begins with the header line. */
  lemma {:induction false} ChunkStartsWithHeader(parts: seq<string>)
    requires parts != []
    ensures parts[0] <= Join(parts, SEPARATOR)
  {
    if |parts| > 1 {
      ChunkStartsWithHeader(parts[..|parts| - 1]);
    }
  }

  // ------------------------------------------------------------ render_briefing

  function SubjectLabel(subject: string): Option<string> {
    if subject == "ai" then Some("AI")
    else if subject == "world" then Some("World")
    else if subject == "audio_engineering" then Some("Audio Engineering")
    else if subject == "professional_av" then Some("Professional AV")
    else if subject == "hardware" then Some("Hardware")
    else if subject == "fantasy_novel" then Some("Fantasy Novel")
    else if subject == "our_setup" then Some("Our Setup")
    else None
  }

  function Heading(date: string, subject: Option<string>): (h: seq<string>)
    ensures h != []
  {
    ["Morning briefing \U{2014} " + date]
    + (if subject.Some? && SubjectLabel(subject.value).Some? then [SubjectLabel(subject.value).value] else [])
  }

  predicate SameEvent(a: Record, b: Record) {
    a.subject == b.subject && a.eventId == b.eventId && a.eventVersion == b.eventVersion && a.candidate == b.candidate
  }

  predicate OneSubject(records: seq<Record>, subject: Option<string>) {
    subject.Some? ==> forall i :: 0 <= i < |records| ==> records[i].subject == subject
  }

  predicate NoDuplicates(records: seq<Record>) {
    forall i, j :: 0 <= i < j < |records| ==> !SameEvent(records[i], records[j])
  }

  /** What a rendered briefing is: greedy chunks of the sorted input, nothing lost, nothing
      repeated, every chunk within the limit, opened by the heading. */
  ghost predicate RenderedAs(heading: seq<string>, records: seq<Record>, chunks: seq<string>, blocks: seq<seq<Record>>)
    requires heading != []
  {
    && chunks == ChunkTexts(heading, blocks)
    && Splits(Fitting(heading), blocks, Sort(records, ByKey())) && Greedy(Fitting(heading), blocks)
    && (forall i :: 0 <= i < |chunks| ==> Units(chunks[i]) <= MAX_CHUNK_UNITS && heading[0] <= chunks[i])
    && multiset(Flatten(blocks)) == multiset(records)
  }

  method RenderBriefing(records: seq<Record>, date: string, subject: Option<string>)
    returns (out: Outcome, ghost blocks: seq<seq<Record>>)
    ensures records == [] && subject.None? ==> out == Result(Empty, [])
    ensures records == [] && subject.Some? ==>
      out == if SubjectLabel(subject.value).Some? then Result(NoDelivery, []) else UnknownSubject
    ensures records != [] ==>
      ((out == CrossSubject || out == Duplicate) <==> !(OneSubject(records, subject) && NoDuplicates(records)))
    ensures out == CrossSubject ==> !OneSubject(records, subject)
    ensures out == Duplicate ==> !NoDuplicates(records)
    ensures records != [] && OneSubject(records, subject) && NoDuplicates(records) ==>
      if subject.Some? && SubjectLabel(subject.value).None? then out == UnknownSubject
      else if EachFitsAlone(Fitting(Heading(date, subject)), Sort(records, ByKey()))
      then out.Result? && out.status == Rendered && RenderedAs(Heading(date, subject), records, out.chunks, blocks)
      else out.Oversize? && FirstOverflow(Fitting(Heading(date, subject)), Sort(records, ByKey()), out.candidate)
  {
    blocks := [];
    if records == [] {
      if subject.Some? {
        return if SubjectLabel(subject.value).Some? then Result(NoDelivery, []) else UnknownSubject, [];
      }
      return Result(Empty, []), [];
    }
    var identities: set<(Option<string>, Option<string>, Option<nat>, string)> := {};
    for i := 0 to |records|
      invariant OneSubject(records[..i], subject)
      invariant NoDuplicates(records[..i])
      invariant forall x :: x in identities <==>
        exists k :: 0 <= k < i && x == (records[k].subject, records[k].eventId, records[k].eventVersion, records[k].candidate)
    {
      var r := records[i];
      TakeOneMore(records, i);
      if subject.Some? && r.subject != subject {
        return CrossSubject, [];
      }
      var identity := (r.subject, r.eventId, r.eventVersion, r.candidate);
      if identity in identities {
        var k :| 0 <= k < i && identity == (records[k].subject, records[k].eventId, records[k].eventVersion, records[k].candidate);
        assert SameEvent(records[k], records[i]);
        return Duplicate, [];
      }
      identities := identities + {identity};
    }
    assert records[..|records|] == records;
    if subject.Some? && SubjectLabel(subject.value).None? {
      return UnknownSubject, [];
    }
    var heading := Heading(date, subject);
    ByKeyIsPreorder();
    SortFacts(records, ByKey());
    var sorted := Sort(records, ByKey());
    out, blocks := Pack(heading, sorted);
    if out.Result? {
      FittingIsInherited(heading);
      SplitHoldsEach(Fitting(heading), blocks, sorted);
      RenderedHolds(heading, records, out.chunks, blocks);
    }
  }

  /** The number of chunks is minimal: any order-preserving split of the sorted records whose
      chunk texts fit the limit has at least as many. */
  lemma ChunkCountIsMinimal(heading: seq<string>, records: seq<Record>, chunks: seq<string>, blocks: seq<seq<Record>>, other: seq<seq<Record>>)
    requires heading != [] && RenderedAs(heading, records, chunks, blocks)
    requires Flatten(other) == Sort(records, ByKey())
    requires forall i :: 0 <= i < |other| ==> other[i] != [] && Units(ChunkText(heading, other[i])) <= MAX_CHUNK_UNITS
    ensures |chunks| <= |other|
  {
    FittingIsInherited(heading);
    forall i | 0 <= i < |other| ensures other[i] != [] && Fitting(heading)(other[i]) {
      assert Fits(heading, other[i]);
    }
    GreedyIsMinimal(Fitting(heading), blocks, other, Sort(records, ByKey()));
  }

  lemma RenderedHolds(heading: seq<string>, records: seq<Record>, chunks: seq<string>, blocks: seq<seq<Record>>)
    requires heading != [] && chunks == ChunkTexts(heading, blocks)
    requires Splits(Fitting(heading), blocks, Sort(records, ByKey())) && Greedy(Fitting(heading), blocks)
    ensures RenderedAs(heading, records, chunks, blocks)
  {
    ByKeyIsPreorder();
    SortFacts(records, ByKey());
    forall i | 0 <= i < |chunks| ensures Units(chunks[i]) <= MAX_CHUNK_UNITS && heading[0] <= chunks[i] {
      assert Fits(heading, blocks[i]);
      ChunkStartsWithHeader(heading + Texts(BodyParts(blocks[i])));
    }
  }
}
