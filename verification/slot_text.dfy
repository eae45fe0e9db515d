/** Timestamps printed to the second (scheduler.py, _format_utc_z): text order is time order
    and the print reads back. */
module SlotText {
  import opened Ordering
  import opened UtcText

  lemma {:induction false} RenderAppend(ns: seq<nat>, ws: seq<nat>, seps: string, n: nat, w: nat, c: char)
    requires |ns| == |ws| == |seps|
    ensures Render(ns + [n], ws + [w], seps + [c]) == Render(ns, ws, seps) + Pad(n, w) + [c]
  {
    if ns == [] {
      assert ([n])[1..] == [] && [w][1..] == [] && [c][1..] == "";
      assert ns + [n] == [n] && ws + [w] == [w] && seps + [c] == [c];
      assert Pad(n, w) + [c] + "" == "" + Pad(n, w) + [c];
    } else {
      RenderAppend(ns[1..], ws[1..], seps[1..], n, w, c);
      assert (ns + [n])[1..] == ns[1..] + [n] && (ws + [w])[1..] == ws[1..] + [w] && (seps + [c])[1..] == seps[1..] + [c];
    }
  }

  function Width(ws: seq<nat>): nat { if ws == [] then 0 else ws[0] + 1 + Width(ws[1..]) }

  lemma {:induction false} RenderShape(ns: seq<nat>, ws: seq<nat>, seps: string)
    requires |ns| == |ws| == |seps|
    ensures |Render(ns, ws, seps)| == Width(ws)
    ensures forall i :: 0 <= i < |Render(ns, ws, seps)| ==> IsDigit(Render(ns, ws, seps)[i]) || Render(ns, ws, seps)[i] in seps
  {
    if ns != [] {
      RenderShape(ns[1..], ws[1..], seps[1..]);
      forall i | 0 <= i < |Render(ns, ws, seps)|
        ensures IsDigit(Render(ns, ws, seps)[i]) || Render(ns, ws, seps)[i] in seps
      {
        if i > ws[0] {
          var j := i - ws[0] - 1;
          assert Render(ns, ws, seps)[i] == Render(ns[1..], ws[1..], seps[1..])[j];
        }
      }
    }
  }

  /** Date, hours, minutes and seconds, without the separator that follows the seconds. */
  function Head(t: Instant): string {
    Render(Fields(t)[..5], WIDTHS[..5], SEPARATORS[..5]) + Pad(Fields(t)[5], 2)
  }

  function PrintShort(t: Instant): string { Head(t) + "Z" }

  lemma FirstWidths()
    ensures Width(WIDTHS[..5]) == 17
  {
    var w: seq<nat> := WIDTHS[..5];
    assert w[4..] == [2] && w[4..][1..] == [];
    assert w[3..][1..] == w[4..] && w[2..][1..] == w[3..] && w[1..][1..] == w[2..];
    assert Width(w[4..]) == 3;
    assert Width(w[3..]) == 6;
    assert Width(w[2..]) == 9;
    assert Width(w[1..]) == 12;
  }

  /** On whole seconds the full print is the head and six zeros. */
  lemma PrintIsHead(t: Instant)
    requires t % SECOND == 0
    ensures Print(t) == Head(t) + ("." + Pad(0, 6) + "Z") && |Head(t)| == 19
  {
    var f := Fields(t);
    assert f[6] == 0;
    assert f[..5] + [f[5]] == f[..6] && f[..6] + [f[6]] == f;
    assert WIDTHS[..5] + [2] == WIDTHS[..6] && WIDTHS[..6] + [6] == WIDTHS;
    assert SEPARATORS[..5] + ['.'] == SEPARATORS[..6] && SEPARATORS[..6] + ['Z'] == SEPARATORS;
    RenderAppend(f[..5], WIDTHS[..5], SEPARATORS[..5], f[5], 2, '.');
    RenderAppend(f[..6], WIDTHS[..6], SEPARATORS[..6], f[6], 6, 'Z');
    RenderShape(f[..5], WIDTHS[..5], SEPARATORS[..5]);
    FirstWidths();
  }

  lemma TextIrreflexive(s: string)
    ensures !TextLess(s, s)
  {
    TextLessTrichotomy(s, s);
  }

  /** Text order of the short print is time order. */
  lemma ShortOrder(t: Instant, u: Instant)
    requires Printable(t) && Printable(u) && t % SECOND == 0 && u % SECOND == 0
    ensures TextLess(PrintShort(t), PrintShort(u)) <==> t < u
    ensures PrintShort(t) == PrintShort(u) <==> t == u
  {
    PrintOrder(t, u);
    PrintIsHead(t);
    PrintIsHead(u);
    var tail := "." + Pad(0, 6) + "Z";
    TextLessConcat(Head(t), Head(u), tail, tail);
    TextLessConcat(Head(t), Head(u), "Z", "Z");
    TextIrreflexive(tail);
    TextIrreflexive("Z");
    TextLessTrichotomy(Print(t), Print(u));
    assert PrintShort(t)[..19] == Head(t) && PrintShort(u)[..19] == Head(u);
  }

  function ParseShort(s: string): Option<Instant> {
    if |s| == 20 && s[19] == 'Z' then Parse(s[..19] + ("." + Pad(0, 6) + "Z")) else None
  }

  lemma ShortReadsBack(t: Instant)
    requires Printable(t) && t % SECOND == 0
    ensures ParseShort(PrintShort(t)) == Some(t)
  {
    PrintIsHead(t);
    ParseInvertsPrint(t);
    assert PrintShort(t)[..19] == Head(t);
  }

  /** The short print is twenty characters, ends in Z and holds no bar. */
  lemma ShortShape(t: Instant)
    requires t % SECOND == 0
    ensures |PrintShort(t)| == 20 && PrintShort(t)[19] == 'Z'
    ensures forall i :: 0 <= i < 20 ==> PrintShort(t)[i] != '|'
  {
    PrintIsHead(t);
    var f := Fields(t);
    var r := Render(f[..5], WIDTHS[..5], SEPARATORS[..5]);
    RenderShape(f[..5], WIDTHS[..5], SEPARATORS[..5]);
    var p := Pad(f[5], 2);
    assert '|' !in SEPARATORS[..5];
    forall i | 0 <= i < 20 ensures PrintShort(t)[i] != '|' {
      if i < |r| {
        assert PrintShort(t)[i] == r[i];
      } else if i < 19 {
        assert PrintShort(t)[i] == p[i - |r|] && IsDigit(p[i - |r|]);
      }
    }
  }
}
