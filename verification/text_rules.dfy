/** The character rules several modules share: which code points are forbidden, what counts as
    white space, how display text is normalised (briefing_renderer.py, _normalize_display_text),
    and how long a text is in canonical JSON. */
module TextRules {

  /** C0, DEL, C1 and bidirectional controls. */
  predicate Forbidden(c: char) {
    c <= '\U{1F}' || '\U{7F}' <= c <= '\U{9F}' || c == '\U{61C}' || c == '\U{200E}' || c == '\U{200F}'
    || '\U{202A}' <= c <= '\U{202E}' || '\U{2066}' <= c <= '\U{206F}'
  }

  predicate Clean(s: string) { forall k :: 0 <= k < |s| ==> !Forbidden(s[k]) }

  /** The narrower set that identities and ledger ids may not hold. */
  predicate IdentityControl(c: char) {
    c <= '\U{1F}' || '\U{7F}' <= c <= '\U{9F}' || '\U{202A}' <= c <= '\U{202E}' || '\U{2066}' <= c <= '\U{2069}'
  }

  predicate CleanId(s: string) { 1 <= |s| <= 256 && forall k :: 0 <= k < |s| ==> !IdentityControl(s[k]) }

  /** The set the editorial input rejects. */
  predicate EditorialControl(c: char) {
    IdentityControl(c) || c == '\U{61C}' || c == '\U{200E}' || c == '\U{200F}'
  }

  predicate EditorialClean(s: string) { forall k :: 0 <= k < |s| ==> !EditorialControl(s[k]) }

  predicate Space(c: char) {
    '\U{9}' <= c <= '\U{D}' || '\U{1C}' <= c <= '\U{20}' || c == '\U{85}' || c == '\U{A0}' || c == '\U{1680}'
    || '\U{2000}' <= c <= '\U{200A}' || c == '\U{2028}' || c == '\U{2029}' || c == '\U{202F}' || c == '\U{205F}' || c == '\U{3000}'
  }

  // ------------------------------------------------------------ display text

  /** Line breaks and tabs become blanks, other forbidden characters vanish, and a run of
      blanks becomes one. */
  function Squeezed(s: string): string {
    if s == "" then "" else
      var before, c := Squeezed(s[..|s| - 1]), s[|s| - 1];
      if c == ' ' || c == '\r' || c == '\n' || c == '\t' then
        (if before != "" && before[|before| - 1] == ' ' then before else before + " ")
      else if Forbidden(c) then before
      else before + [c]
  }

  function TrimLeft(s: string): string {
    if s != "" && Space(s[0]) then TrimLeft(s[1..]) else s
  }

  function TrimRight(s: string): string {
    if s != "" && Space(s[|s| - 1]) then TrimRight(s[..|s| - 1]) else s
  }

  function Normalize(s: string): string { TrimRight(TrimLeft(Squeezed(s))) }

  /** A character that leaves something visible behind. */
  predicate Visible(c: char) { !Forbidden(c) && !Space(c) }

  predicate HasVisible(s: string) { exists k :: 0 <= k < |s| && Visible(s[k]) }

  /** Nothing forbidden, and no two blanks in a row. */
  predicate Tidy(s: string) {
    Clean(s) && forall k :: 0 < k < |s| ==> !(s[k - 1] == ' ' && s[k] == ' ')
  }

  lemma {:induction false} SqueezedIsTidy(s: string)
    ensures Tidy(Squeezed(s))
    ensures HasVisible(Squeezed(s)) <==> HasVisible(s)
  {
    if s != "" {
      var init, c := s[..|s| - 1], s[|s| - 1];
      SqueezedIsTidy(init);
      var before, now := Squeezed(init), Squeezed(s);
      if HasVisible(s) {
        var k :| 0 <= k < |s| && Visible(s[k]);
        if k < |init| { assert Visible(init[k]); } else { assert now == before + [c] && Visible(now[|now| - 1]); }
      }
      if HasVisible(before) {
        var k :| 0 <= k < |before| && Visible(before[k]);
        assert now[k] == before[k];
        var j :| 0 <= j < |init| && Visible(init[j]);
        assert s[j] == init[j];
      }
      if HasVisible(now) {
        var k :| 0 <= k < |now| && Visible(now[k]);
        if k < |before| { assert Visible(before[k]); } else { assert Visible(s[|s| - 1]); }
      }
    }
  }

  lemma {:induction false} TrimLeftFacts(s: string)
    requires Tidy(s)
    ensures Tidy(TrimLeft(s)) && (TrimLeft(s) != "" ==> !Space(TrimLeft(s)[0]))
    ensures HasVisible(TrimLeft(s)) <==> HasVisible(s)
  {
    if s != "" && Space(s[0]) {
      assert forall k :: 0 <= k < |s[1..]| ==> s[1..][k] == s[k + 1];
      TrimLeftFacts(s[1..]);
      if HasVisible(s) {
        var k :| 0 <= k < |s| && Visible(s[k]);
        assert Visible(s[1..][k - 1]);
      }
      if HasVisible(s[1..]) {
        var k :| 0 <= k < |s[1..]| && Visible(s[1..][k]);
        assert Visible(s[k + 1]);
      }
    }
  }

  lemma {:induction false} TrimRightFacts(s: string)
    requires Tidy(s) && (s != "" ==> !Space(s[0]))
    ensures var t := TrimRight(s);
      && Tidy(t) && t <= s && (t == "" <==> s == "")
      && (t != "" ==> !Space(t[0]) && !Space(t[|t| - 1]))
  {
    if s != "" && Space(s[|s| - 1]) {
      TrimRightFacts(s[..|s| - 1]);
    }
  }

  /** Normalised text holds nothing forbidden, so no line break; no two blanks in a row; no
      white space at either end; and it is empty exactly when nothing in the text is visible. */
  lemma NormalizedText(s: string)
    ensures var t := Normalize(s);
      && Tidy(t)
      && (t != "" ==> !Space(t[0]) && !Space(t[|t| - 1]))
      && (t == "" <==> !HasVisible(s))
  {
    var a := Squeezed(s);
    SqueezedIsTidy(s);
    TrimLeftFacts(a);
    TrimRightFacts(TrimLeft(a));
    var b := TrimLeft(a);
    if b != "" { assert Visible(b[0]); }
  }

  /** The visible characters of a text, in order. */
  function Shown(s: string): string {
    if s == "" then "" else Shown(s[..|s| - 1]) + (if Visible(s[|s| - 1]) then [s[|s| - 1]] else "")
  }

  lemma ShownStep(s: string, c: char)
    ensures Shown(s + [c]) == Shown(s) + (if Visible(c) then [c] else "")
  {
    assert (s + [c])[..|s|] == s;
  }

  lemma {:induction false} ShownSqueezed(s: string)
    ensures Shown(Squeezed(s)) == Shown(s)
  {
    if s != "" {
      var before, c := Squeezed(s[..|s| - 1]), s[|s| - 1];
      ShownSqueezed(s[..|s| - 1]);
      ShownStep(before, c);
      ShownStep(before, ' ');
      assert before + " " == before + [' '];
    }
  }

  lemma {:induction false} ShownBehindBlank(c: char, s: string)
    requires !Visible(c)
    ensures Shown([c] + s) == Shown(s)
  {
    if s == "" {
      ShownStep("", c);
      assert [c] + s == "" + [c];
    } else {
      ShownBehindBlank(c, s[..|s| - 1]);
      assert ([c] + s)[..|s|] == [c] + s[..|s| - 1];
    }
  }

  lemma {:induction false} ShownTrimmed(s: string)
    ensures Shown(TrimLeft(s)) == Shown(s)
    decreases |s|
  {
    if s != "" && Space(s[0]) {
      ShownTrimmed(s[1..]);
      ShownBehindBlank(s[0], s[1..]);
      assert s == [s[0]] + s[1..];
    }
  }

  lemma {:induction false} ShownCut(s: string)
    ensures Shown(TrimRight(s)) == Shown(s)
  {
    if s != "" && Space(s[|s| - 1]) { ShownCut(s[..|s| - 1]); }
  }

  /** Normalising loses and adds no visible character and keeps their order. */
  lemma NormalizeKeepsTheText(s: string)
    ensures Shown(Normalize(s)) == Shown(s)
  {
    ShownSqueezed(s);
    ShownTrimmed(Squeezed(s));
    ShownCut(TrimLeft(Squeezed(s)));
  }

  lemma {:induction false} TidyIsSqueezed(s: string)
    requires Tidy(s)
    ensures Squeezed(s) == s
  {
    if s != "" {
      TidyIsSqueezed(s[..|s| - 1]);
      assert s == s[..|s| - 1] + [s[|s| - 1]];
    }
  }

  /** Normalising again changes nothing. */
  lemma NormalizeTwice(s: string)
    ensures Normalize(Normalize(s)) == Normalize(s)
  {
    NormalizedText(s);
    TidyIsSqueezed(Normalize(s));
  }

  // ------------------------------------------------------------ JSON length

  /** UTF-8 bytes of one character inside a JSON string. */
  function CharBytes(c: char): nat {
    if c == '"' || c == '\\' || c == '\n' || c == '\r' || c == '\t' || c == '\U{8}' || c == '\U{C}' then 2
    else if c < ' ' then 6
    else if c <= '\U{7F}' then 1 else if c <= '\U{7FF}' then 2 else if c <= '\U{FFFF}' then 3 else 4
  }

  function TextBytes(s: string): nat {
    if s == "" then 0 else TextBytes(s[..|s| - 1]) + CharBytes(s[|s| - 1])
  }
}
