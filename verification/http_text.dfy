/** Searching, splitting and trimming bytes the way the broker and its client do.

    A byte is written as its ISO-8859-1 character, which is how the broker decodes a head. */
module HttpText {
  const CRLF := "\r\n"
  const HEAD_END := "\r\n\r\n"

  predicate At(s: string, pat: string, k: int) { 0 <= k && k + |pat| <= |s| && s[k..k + |pat|] == pat }

  /** Leftmost occurrence, or -1. */
  function Find(s: string, pat: string): (r: int)
    ensures r >= 0 ==> At(s, pat, r)
    ensures forall k :: At(s, pat, k) ==> 0 <= r <= k
    decreases |s|
  {
    if |s| < |pat| then -1
    else if s[..|pat|] == pat then (assert At(s, pat, 0); 0)
    else if s == "" then -1
    else
      var r := Find(s[1..], pat);
      assert forall k :: At(s, pat, k) ==> k > 0 && s[1..][k - 1..k - 1 + |pat|] == s[k..k + |pat|] && At(s[1..], pat, k - 1);
      if r < 0 then -1 else (assert s[1..][r..r + |pat|] == s[r + 1..r + 1 + |pat|]; r + 1)
  }

  /** More bytes behind an occurrence do not move it. */
  lemma FindInPrefix(s: string, t: string, pat: string)
    requires s <= t && Find(s, pat) >= 0
    ensures Find(t, pat) == Find(s, pat)
  {
    var r, q := Find(s, pat), Find(t, pat);
    assert t[r..r + |pat|] == s[r..r + |pat|] && At(t, pat, r);
    assert t[q..q + |pat|] == s[q..q + |pat|] && At(s, pat, q);
  }

  /** A prefix that reaches past the occurrence already shows it. */
  lemma FoundInTime(s: string, t: string, pat: string)
    requires s <= t && 0 <= Find(t, pat) && Find(t, pat) + |pat| <= |s|
    ensures Find(s, pat) == Find(t, pat)
  {
    var q := Find(t, pat);
    assert s[q..q + |pat|] == t[q..q + |pat|] && At(s, pat, q);
    FindInPrefix(s, t, pat);
  }

  predicate Lacks(s: string, c: char) { forall k :: 0 <= k < |s| ==> s[k] != c }

  predicate NoCr(s: string) { Lacks(s, '\r') }

  /** Text that lacks the pattern's first character only shifts an occurrence. */
  lemma {:induction false} FindSkips(x: string, rest: string, pat: string)
    requires pat != "" && Lacks(x, pat[0]) && Find(rest, pat) >= 0
    ensures Find(x + rest, pat) == |x| + Find(rest, pat)
  {
    if x == "" {
      assert x + rest == rest;
    } else {
      FindSkips(x[1..], rest, pat);
      assert (x + rest)[1..] == x[1..] + rest;
      assert (x + rest)[..|pat|][0] == x[0];
    }
  }

  /** The first separator after text that lacks it. */
  lemma FirstSeparator(x: string, sep: string, y: string)
    requires |sep| == 1 && Lacks(x, sep[0])
    ensures Find(x + sep + y, sep) == |x|
  {
    assert (sep + y)[..1] == sep;
    assert Find(sep + y, sep) == 0;
    FindSkips(x, sep + y, sep);
    assert x + (sep + y) == x + sep + y;
  }

  function SplitLines(s: string): (lines: seq<string>)
    ensures lines != []
    decreases |s|
  {
    var at := Find(s, CRLF);
    if at < 0 then [s] else [s[..at]] + SplitLines(s[at + 2..])
  }

  function JoinLines(lines: seq<string>): string
    requires lines != []
  {
    if |lines| == 1 then lines[0] else lines[0] + CRLF + JoinLines(lines[1..])
  }

  predicate PlainLines(lines: seq<string>) {
    lines != [] && (forall k :: 0 <= k < |lines| ==> NoCr(lines[k])) && forall k :: 1 <= k < |lines| ==> lines[k] != ""
  }

  lemma NoCrNoFind(x: string)
    requires NoCr(x)
    ensures Find(x, CRLF) == -1
  {
    forall k | 0 <= k && k + 2 <= |x| ensures !At(x, CRLF, k) {
      assert x[k..k + 2][0] == x[k];
    }
  }

  lemma {:induction false} LinesRoundTrip(lines: seq<string>)
    requires PlainLines(lines)
    ensures SplitLines(JoinLines(lines)) == lines
  {
    if |lines| == 1 {
      NoCrNoFind(lines[0]);
    } else {
      LinesRoundTrip(lines[1..]);
      var rest := JoinLines(lines[1..]);
      assert At(CRLF + rest, CRLF, 0);
      FindSkips(lines[0], CRLF + rest, CRLF);
      assert lines[0] + (CRLF + rest) == JoinLines(lines);
    }
  }

  lemma CrlfSkips(rest: string)
    requires rest != "" && rest[0] != '\r' && Find(rest, HEAD_END) >= 0
    ensures Find(CRLF + rest, HEAD_END) == 2 + Find(rest, HEAD_END)
  {
    var s, t := CRLF + rest, "\n" + rest;
    assert s[1..] == t && t[1..] == rest;
    assert s[..4] != HEAD_END by { assert s[..4][2] == rest[0]; }
    assert t[..4] != HEAD_END by { assert t[..4][0] == '\n'; }
    assert Find(t, HEAD_END) == 1 + Find(rest, HEAD_END);
  }

  function Message(lines: seq<string>, body: string): string
    requires lines != []
  {
    JoinLines(lines) + HEAD_END + body
  }

  lemma MessageCons(lines: seq<string>, body: string)
    requires |lines| > 1
    ensures Message(lines, body) == lines[0] + (CRLF + Message(lines[1..], body))
  {
    var rest := JoinLines(lines[1..]);
    assert JoinLines(lines) == lines[0] + CRLF + rest;
    assert (lines[0] + CRLF + rest) + HEAD_END + body == lines[0] + (CRLF + (rest + HEAD_END + body));
  }

  lemma EndIsFound(body: string)
    ensures Find(HEAD_END + body, HEAD_END) == 0
  {
    assert (HEAD_END + body)[..4] == HEAD_END;
  }

  lemma MessageStart(lines: seq<string>, body: string)
    requires PlainLines(lines)
    ensures |Message(lines, body)| > |lines[0]|
    ensures lines[0] != "" ==> Message(lines, body)[0] == lines[0][0]
  {
    if |lines| > 1 { MessageCons(lines, body); }
  }

  /** The first blank line after plain lines is the one put there. */
  lemma {:induction false} HeadEndsWhereItEnds(lines: seq<string>, body: string)
    requires PlainLines(lines)
    ensures Find(Message(lines, body), HEAD_END) == |JoinLines(lines)|
  {
    if |lines| == 1 {
      EndIsFound(body);
      FindSkips(lines[0], HEAD_END + body, HEAD_END);
      assert lines[0] + (HEAD_END + body) == Message(lines, body);
    } else {
      HeadEndsWhereItEnds(lines[1..], body);
      var rest := Message(lines[1..], body);
      MessageStart(lines[1..], body);
      assert rest[0] == lines[1][0];
      CrlfSkips(rest);
      FindSkips(lines[0], CRLF + rest, HEAD_END);
      MessageCons(lines, body);
    }
  }

  // ------------------------------------------------------------ trimming and case

  predicate IsSpace(c: char) {
    '\U{9}' <= c <= '\U{D}' || '\U{1C}' <= c <= '\U{20}' || c == '\U{85}' || c == '\U{A0}'
  }

  function StripLeft(s: string): string {
    if s != "" && IsSpace(s[0]) then StripLeft(s[1..]) else s
  }

  function StripRight(s: string): string {
    if s != "" && IsSpace(s[|s| - 1]) then StripRight(s[..|s| - 1]) else s
  }

  function Strip(s: string): string { StripRight(StripLeft(s)) }

  predicate Trimmed(s: string) { s != "" ==> !IsSpace(s[0]) && !IsSpace(s[|s| - 1]) }

  /** A space after the colon is the only thing trimming removes. */
  lemma StripAfterColon(v: string)
    requires Trimmed(v)
    ensures Strip(" " + v) == v && Strip(v) == v
  {
    assert (" " + v)[1..] == v;
    assert StripLeft(v) == v;
  }

  function Lower(s: string): string {
    seq(|s|, k requires 0 <= k < |s| => if 'A' <= s[k] <= 'Z' then s[k] - 'A' + 'a' else s[k])
  }
}
