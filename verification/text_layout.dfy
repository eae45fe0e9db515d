/** Lines of a text, and where headings, labels and five-line records stand among them. */
module TextLayout {
  predicate OneLine(s: string) { forall k :: 0 <= k < |s| ==> s[k] != '\n' }

  /** One more character: a new line, or more of the last one. */
  function Typed(lines: seq<string>, c: char): (r: seq<string>)
    requires lines != []
    ensures r != []
  {
    if c == '\n' then lines + [""] else lines[..|lines| - 1] + [lines[|lines| - 1] + [c]]
  }

  /** The lines of a text: what its line feeds separate. */
  function Lines(s: string): (lines: seq<string>)
    ensures lines != []
  {
    if s == "" then [""] else Typed(Lines(s[..|s| - 1]), s[|s| - 1])
  }

  lemma TypedBehind(a: seq<string>, b: seq<string>, c: char)
    requires b != []
    ensures Typed(a + b, c) == a + Typed(b, c)
  {
    if c != '\n' { assert (a + b)[..|a + b| - 1] == a + b[..|b| - 1]; }
  }

  lemma LinesStep(s: string, c: char)
    ensures Lines(s + [c]) == Typed(Lines(s), c)
  {
    assert (s + [c])[..|s|] == s;
  }

  lemma {:induction false} LinesOfTwo(a: string, b: string)
    ensures Lines(a + "\n" + b) == Lines(a) + Lines(b)
  {
    if b == "" {
      LinesStep(a, '\n');
      assert a + "\n" + b == a + ['\n'];
    } else {
      var init, c := b[..|b| - 1], b[|b| - 1];
      LinesOfTwo(a, init);
      LinesStep(a + "\n" + init, c);
      assert a + "\n" + b == (a + "\n" + init) + [c];
      TypedBehind(Lines(a), Lines(init), c);
    }
  }

  lemma {:induction false} LinesOfOne(s: string)
    requires OneLine(s)
    ensures Lines(s) == [s]
  {
    if s != "" {
      LinesOfOne(s[..|s| - 1]);
      assert s == s[..|s| - 1] + [s[|s| - 1]];
    }
  }

  /** Text behind a blank line. */
  lemma LinesAfterBlank(a: string, b: string)
    ensures Lines(a + "\n\n" + b) == Lines(a) + [""] + Lines(b)
  {
    LinesOfTwo(a + "\n", b);
    LinesOfTwo(a, "");
    assert a + "\n" + "" == a + "\n";
    assert (a + "\n") + "\n" + b == a + "\n\n" + b;
  }

  lemma FiveLines(a: string, b: string, c: string, d: string, e: string)
    requires OneLine(a) && OneLine(b) && OneLine(c) && OneLine(d) && OneLine(e)
    ensures Lines(a + "\n" + b + "\n" + c + "\n" + d + "\n" + e) == [a, b, c, d, e]
  {
    LinesOfOne(a);
    LinesOfOne(b);
    LinesOfOne(c);
    LinesOfOne(d);
    LinesOfOne(e);
    LinesOfTwo(a, b);
    LinesOfTwo(a + "\n" + b, c);
    LinesOfTwo(a + "\n" + b + "\n" + c, d);
    LinesOfTwo(a + "\n" + b + "\n" + c + "\n" + d, e);
  }

  // ------------------------------------------------------------ a layout of records

  /** A record as it is shown: the name of its category, and its own five lines. */
  datatype Shown = Shown(name: string, lines: seq<string>)

  /** Where the label and the first line of each record stand.  The heading's paragraphs are
      single lines; everything is separated by one blank line; a record has a label of its own
      exactly when the one before has another name, and nothing follows the last. */
  ghost predicate Layout(lines: seq<string>, heading: nat, block: seq<Shown>, labels: seq<nat>, places: seq<nat>) {
    && |labels| == |places| == |block|
    && (forall k :: 0 <= k < |block| ==> Stands(lines, block[k], labels[k], places[k]))
    && (forall k :: 0 <= k < |block| ==> Spaced(heading, block, labels, places, k))
    && |lines| == LinesUpTo(heading, places)
  }

  /** How many lines there are once the last record is printed. */
  function LinesUpTo(heading: nat, places: seq<nat>): int {
    if places == [] then 2 * heading - 1 else places[|places| - 1] + 5
  }

  /** A record's five lines stand behind a blank line, its label behind another, above them. */
  ghost predicate Stands(lines: seq<string>, r: Shown, tag: nat, place: nat) {
    && 1 <= tag < place && place + 5 <= |lines| && |r.lines| == 5
    && lines[tag - 1] == "" && lines[tag] == r.name
    && lines[place - 1] == "" && lines[place..place + 5] == r.lines
  }

  predicate Spaced(heading: nat, block: seq<Shown>, labels: seq<nat>, places: seq<nat>, k: nat)
    requires k < |block| == |labels| == |places|
  {
    if k > 0 && block[k - 1].name == block[k].name
    then labels[k] == labels[k - 1] && places[k] == places[k - 1] + 6
    else places[k] == labels[k] + 2 && labels[k] == LinesUpTo(heading, places[..k]) + 1
  }

  lemma StandsLonger(lines: seq<string>, more: seq<string>, r: Shown, tag: nat, place: nat)
    requires lines <= more && Stands(lines, r, tag, place)
    ensures Stands(more, r, tag, place)
  {
    assert more[place..place + 5] == lines[place..place + 5];
  }

  lemma LayoutLonger(lines: seq<string>, more: seq<string>, heading: nat, block: seq<Shown>, labels: seq<nat>, places: seq<nat>,
      r: Shown, tag: nat, place: nat)
    requires Layout(lines, heading, block, labels, places) && lines <= more
    requires Stands(more, r, tag, place) && |more| == place + 5
    requires Spaced(heading, block + [r], labels + [tag], places + [place], |block|)
    ensures Layout(more, heading, block + [r], labels + [tag], places + [place])
  {
    var n := |block|;
    var longer, labels', places' := block + [r], labels + [tag], places + [place];
    forall k | 0 <= k < |longer| ensures Stands(more, longer[k], labels'[k], places'[k]) {
      if k < n { StandsLonger(lines, more, block[k], labels[k], places[k]); }
    }
    forall k | 0 <= k < |longer| ensures Spaced(heading, longer, labels', places', k) {
      if k < n {
        assert Spaced(heading, block, labels, places, k);
        assert places'[..k] == places[..k];
      }
    }
  }

  lemma StandsUnder(lines: seq<string>, more: seq<string>, r0: Shown, tag: nat, place: nat, own: seq<string>, r: Shown)
    requires Stands(lines, r0, tag, place) && r0.name == r.name && |lines| == place + 5
    requires more == lines + [""] + own && own == r.lines && |own| == 5
    ensures Stands(more, r, tag, |lines| + 1)
  {
    OwnLines(lines + [""], own, more);
  }

  /** A record under the label that already stands. */
  lemma LayoutSame(lines: seq<string>, more: seq<string>, heading: nat, block: seq<Shown>, labels: seq<nat>, places: seq<nat>, own: seq<string>, r: Shown)
    requires Layout(lines, heading, block, labels, places) && block != [] && block[|block| - 1].name == r.name
    requires more == lines + [""] + own && own == r.lines && |own| == 5
    ensures Layout(more, heading, block + [r], labels + [labels[|block| - 1]], places + [|lines| + 1])
  {
    var n := |block|;
    OwnLines(lines + [""], own, more);
    StandsUnder(lines, more, block[n - 1], labels[n - 1], places[n - 1], own, r);
    LayoutLonger(lines, more, heading, block, labels, places, r, labels[n - 1], |lines| + 1);
  }

  lemma OwnLines(front: seq<string>, own: seq<string>, more: seq<string>)
    requires more == front + own && |own| == 5
    ensures more[|front|..|front| + 5] == own
  {
  }

  /** A record with a new label. */
  lemma LayoutNew(lines: seq<string>, more: seq<string>, heading: nat, block: seq<Shown>, labels: seq<nat>, places: seq<nat>, tag: string, own: seq<string>, r: Shown)
    requires heading >= 1 && Layout(lines, heading, block, labels, places)
    requires block == [] || block[|block| - 1].name != r.name
    requires more == lines + [""] + [tag] + [""] + own && tag == r.name && own == r.lines && |own| == 5
    ensures Layout(more, heading, block + [r], labels + [|lines| + 1], places + [|lines| + 3])
  {
    OwnLines(lines + [""] + [tag] + [""], own, more);
    assert more[|lines| + 1] == tag;
    assert (places + [|lines| + 3])[..|block|] == places;
    LayoutLonger(lines, more, heading, block, labels, places, r, |lines| + 1, |lines| + 3);
  }

  /** The lines show these records, wherever exactly. */
  ghost predicate LaidOut(lines: seq<string>, heading: nat, block: seq<Shown>) {
    exists labels: seq<nat>, places: seq<nat> :: Layout(lines, heading, block, labels, places)
  }

  lemma LaidOutSame(lines: seq<string>, more: seq<string>, heading: nat, block: seq<Shown>, r: Shown)
    requires LaidOut(lines, heading, block) && block != [] && block[|block| - 1].name == r.name
    requires more == lines + [""] + r.lines && |r.lines| == 5
    ensures LaidOut(more, heading, block + [r])
  {
    var labels: seq<nat>, places: seq<nat> :| Layout(lines, heading, block, labels, places);
    LayoutSame(lines, more, heading, block, labels, places, r.lines, r);
  }

  lemma LaidOutNew(lines: seq<string>, more: seq<string>, heading: nat, block: seq<Shown>, r: Shown)
    requires heading >= 1 && LaidOut(lines, heading, block) && (block == [] || block[|block| - 1].name != r.name)
    requires more == lines + [""] + [r.name] + [""] + r.lines && |r.lines| == 5
    ensures LaidOut(more, heading, block + [r])
  {
    var labels: seq<nat>, places: seq<nat> :| Layout(lines, heading, block, labels, places);
    LayoutNew(lines, more, heading, block, labels, places, r.name, r.lines, r);
  }

  lemma NothingLaidOut(lines: seq<string>, heading: nat)
    requires |lines| == 2 * heading - 1
    ensures LaidOut(lines, heading, [])
  {
    assert Layout(lines, heading, [], [], []);
  }

  /** The lines of the heading alone. */
  function HeadingLines(heading: seq<string>): seq<string> {
    if heading == [] then [] else if |heading| == 1 then heading
    else HeadingLines(heading[..|heading| - 1]) + [""] + [heading[|heading| - 1]]
  }

  lemma {:induction false} HeadingShape(heading: seq<string>)
    requires heading != []
    ensures |HeadingLines(heading)| == 2 * |heading| - 1
    ensures forall k :: 0 <= k < |heading| ==> HeadingLines(heading)[2 * k] == heading[k]
  {
    if |heading| > 1 { HeadingShape(heading[..|heading| - 1]); }
  }
}
