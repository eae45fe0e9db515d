/** Which request heads the broker serves (news_egress_broker.py, _read_envelope_bytes), line by
    line: the exact condition on the head's text, and on a whole stream. */
module HeadTerms {
  import opened DecimalText
  import opened HttpText
  import opened BrokerFraming

  // ------------------------------------------------------------ one line

  /** `Find` is the first colon's place, or -1. */
  predicate HasColon(line: string) { Find(line, ":") >= 0 }

  function NameOf(line: string): string
    requires HasColon(line)
  {
    Lower(Strip(line[..Find(line, ":")]))
  }

  function ValueOf(line: string): string
    requires HasColon(line)
  {
    Strip(line[Find(line, ":") + 1..])
  }

  predicate Named(line: string, name: string) { HasColon(line) && NameOf(line) == name }

  /** A length the broker can convert: 1 to 4300 ASCII digits. */
  predicate Convertible(value: string) {
    1 <= |value| <= 4300 && forall k :: 0 <= k < |value| ==> '0' <= value[k] <= '9'
  }

  /** A length whose characters all count as digits, but which does not convert. */
  predicate Unconvertible(value: string) {
    && value != "" && !Convertible(value)
    && forall k :: 0 <= k < |value| ==> '0' <= value[k] <= '9' || value[k] == '\U{B2}' || value[k] == '\U{B3}' || value[k] == '\U{B9}'
  }

  predicate Readable(line: string) {
    HasColon(line) && (NameOf(line) == "content-length" ==> Convertible(ValueOf(line)))
  }

  /** Why a line that cannot be read stops the broker. */
  function WhyNot(line: string): HeadResult
  {
    if Named(line, "content-length") && Unconvertible(ValueOf(line)) then BadInteger else BadHead
  }

  predicate LengthOn(line: string, n: nat) {
    Named(line, "content-length") && Convertible(ValueOf(line)) && DigitValue(ValueOf(line)) == n
  }

  lemma ConvertibleIs(value: string)
    ensures Convertible(value) <==> AllDigits(value) && |value| <= MAX_INT_DIGITS
    ensures Unconvertible(value) <==>
      value != "" && (forall k :: 0 <= k < |value| ==> IsDigitChar(value[k])) && !(AllDigits(value) && |value| <= MAX_INT_DIGITS)
  {
  }

  /** The scan after a line that can be read. */
  function ReadOn(sofar: Scan, line: string): Scan
    requires sofar.Scanned? && Readable(line)
  {
    Scanned(if Named(line, "content-length") then sofar.lengths + [DigitValue(ValueOf(line))] else sofar.lengths,
            sofar.transferEncoding || Named(line, "transfer-encoding"))
  }

  lemma LineTerms(sofar: Scan, line: string)
    requires sofar.Scanned?
    ensures !Readable(line) ==> ScanLine(sofar, line) == Stopped(WhyNot(line))
    ensures Readable(line) ==> ScanLine(sofar, line) == ReadOn(sofar, line)
  {
    if HasColon(line) { ConvertibleIs(ValueOf(line)); }
  }

  // ------------------------------------------------------------ all lines

  predicate AllReadable(lines: seq<string>) { forall k :: 0 <= k < |lines| ==> Readable(lines[k]) }

  predicate SomeNamed(lines: seq<string>, name: string) { exists k :: 0 <= k < |lines| && Named(lines[k], name) }

  /** The first line that cannot be read. */
  predicate FirstUnreadable(lines: seq<string>, k: nat) {
    k < |lines| && !Readable(lines[k]) && forall j :: 0 <= j < k ==> Readable(lines[j])
  }

  /** The lengths announced, in order. */
  function Lengths(lines: seq<string>): seq<nat>
    requires AllReadable(lines)
  {
    if lines == [] then [] else
      var last := lines[|lines| - 1];
      Lengths(lines[..|lines| - 1]) + (if Named(last, "content-length") then [DigitValue(ValueOf(last))] else [])
  }

  lemma NamedOneMore(init: seq<string>, last: string, name: string)
    ensures SomeNamed(init + [last], name) <==> SomeNamed(init, name) || Named(last, name)
  {
    var lines := init + [last];
    if k :| 0 <= k < |init| && Named(init[k], name) { assert Named(lines[k], name); }
    if Named(last, name) { assert Named(lines[|init|], name); }
    if k :| 0 <= k < |lines| && Named(lines[k], name) { assert k < |init| ==> Named(init[k], name); }
  }

  lemma ReadableOneMore(init: seq<string>, last: string)
    ensures AllReadable(init + [last]) <==> AllReadable(init) && Readable(last)
  {
    var lines := init + [last];
    assert lines[..|init|] == init && lines[|init|] == last;
    if AllReadable(lines) {
      forall k | 0 <= k < |init| ensures Readable(init[k]) { assert init[k] == lines[k]; }
    }
  }

  lemma {:induction false} ScanTerms(lines: seq<string>)
    ensures AllReadable(lines) ==> ScanLines(lines) == Scanned(Lengths(lines), SomeNamed(lines, "transfer-encoding"))
    ensures !AllReadable(lines) ==> exists k: nat :: FirstUnreadable(lines, k) && ScanLines(lines) == Stopped(WhyNot(lines[k]))
  {
    if lines != [] {
      var init, last := lines[..|lines| - 1], lines[|lines| - 1];
      assert lines == init + [last];
      ScanTerms(init);
      ReadableOneMore(init, last);
      if AllReadable(init) {
        NamedOneMore(init, last, "transfer-encoding");
        LineTerms(ScanLines(init), last);
        if !Readable(last) { assert FirstUnreadable(lines, |init|); }
      } else {
        var k: nat :| FirstUnreadable(init, k) && ScanLines(init) == Stopped(WhyNot(init[k]));
        assert FirstUnreadable(lines, k);
      }
    }
  }

  // ------------------------------------------------------------ exactly one length

  /** No line but the k-th announces a length. */
  predicate OnlyHere(lines: seq<string>, k: nat) {
    forall j :: 0 <= j < |lines| && Named(lines[j], "content-length") ==> j == k
  }

  predicate OneLengthAt(lines: seq<string>, k: nat, n: nat) { k < |lines| && LengthOn(lines[k], n) && OnlyHere(lines, k) }

  /** Exactly one line announces a length, and it is n. */
  ghost predicate OneLength(lines: seq<string>, n: nat) { exists k: nat :: OneLengthAt(lines, k, n) }

  lemma {:induction false} NoLengths(lines: seq<string>)
    requires AllReadable(lines)
    ensures Lengths(lines) == [] <==> !SomeNamed(lines, "content-length")
  {
    if lines != [] {
      var init, last := lines[..|lines| - 1], lines[|lines| - 1];
      assert lines == init + [last];
      ReadableOneMore(init, last);
      NoLengths(init);
      NamedOneMore(init, last, "content-length");
    }
  }

  lemma OneLengthOneMore(init: seq<string>, last: string, n: nat)
    requires !Named(last, "content-length")
    ensures OneLength(init + [last], n) <==> OneLength(init, n)
  {
    var lines := init + [last];
    if k: nat :| OneLengthAt(init, k, n) { assert OneLengthAt(lines, k, n); }
    if k: nat :| OneLengthAt(lines, k, n) {
      assert k < |init|;
      forall j | 0 <= j < |init| && Named(init[j], "content-length") ensures j == k { assert init[j] == lines[j]; }
      assert OneLengthAt(init, k, n);
    }
  }

  lemma OneLengthLast(init: seq<string>, last: string, n: nat)
    requires Named(last, "content-length") && Convertible(ValueOf(last))
    ensures OneLength(init + [last], n) <==> !SomeNamed(init, "content-length") && DigitValue(ValueOf(last)) == n
  {
    var lines := init + [last];
    assert lines[|init|] == last;
    if k: nat :| OneLengthAt(lines, k, n) {
      assert k == |init|;
      forall j | 0 <= j < |init| ensures !Named(init[j], "content-length") { assert init[j] == lines[j]; }
    }
    if !SomeNamed(init, "content-length") && DigitValue(ValueOf(last)) == n { assert OneLengthAt(lines, |init|, n); }
  }

  lemma {:induction false} OneLengthIff(lines: seq<string>, n: nat)
    requires AllReadable(lines)
    ensures OneLength(lines, n) <==> Lengths(lines) == [n]
  {
    if lines != [] {
      var init, last := lines[..|lines| - 1], lines[|lines| - 1];
      assert lines == init + [last];
      ReadableOneMore(init, last);
      if Named(last, "content-length") {
        NoLengths(init);
        OneLengthLast(init, last, n);
        assert Lengths(lines) == Lengths(init) + [DigitValue(ValueOf(last))];
        assert Lengths(lines) == [n] <==> Lengths(init) == [] && DigitValue(ValueOf(last)) == n by {
          if Lengths(lines) == [n] { assert |Lengths(init)| == 0 && Lengths(lines)[0] == n; }
        }
      } else {
        OneLengthIff(init, n);
        OneLengthOneMore(init, last, n);
      }
    }
  }

  // ------------------------------------------------------------ the head

  /** The request line; behind it only lines with a colon, none of them named
      transfer-encoding; and exactly one content-length, 1 to 4300 ASCII digits, between 1 and
      the bound. */
  ghost predicate ServedHead(head: string, max: nat, n: nat) {
    var lines := SplitLines(head);
    && lines[0] == "POST /broker HTTP/1.1" && AllReadable(lines[1..])
    && !SomeNamed(lines[1..], "transfer-encoding") && OneLength(lines[1..], n)
    && 1 <= n <= max
  }

  /** A head is served with length n exactly when its lines are so. */
  lemma HeadServedIff(head: string, max: nat, n: nat)
    ensures ReadHead(head, max) == Length(n) <==> ServedHead(head, max, n)
  {
    var rest := SplitLines(head)[1..];
    ScanTerms(rest);
    if AllReadable(rest) { OneLengthIff(rest, n); }
  }

  /** The first unreadable line announces a length whose characters are all digits, but not 1
      to 4300 ASCII ones. */
  predicate BreaksAt(lines: seq<string>, k: nat) {
    FirstUnreadable(lines, k) && Named(lines[k], "content-length") && Unconvertible(ValueOf(lines[k]))
  }

  /** And when the conversion itself fails. */
  lemma HeadBreaksIff(head: string, max: nat)
    ensures ReadHead(head, max) == BadInteger <==>
      SplitLines(head)[0] == "POST /broker HTTP/1.1" && exists k: nat :: BreaksAt(SplitLines(head)[1..], k)
  {
    var rest := SplitLines(head)[1..];
    ScanBreaksIff(rest);
  }

  lemma ScanBreaksIff(lines: seq<string>)
    ensures ScanLines(lines) == Stopped(BadInteger) <==> exists k: nat :: BreaksAt(lines, k)
    ensures ScanLines(lines).Stopped? ==> ScanLines(lines).why == BadInteger || ScanLines(lines).why == BadHead
  {
    ScanTerms(lines);
    if !AllReadable(lines) {
      var k: nat :| FirstUnreadable(lines, k) && ScanLines(lines) == Stopped(WhyNot(lines[k]));
      if ScanLines(lines) == Stopped(BadInteger) { assert BreaksAt(lines, k); }
      if j: nat :| BreaksAt(lines, j) { FirstIsUnique(lines, j, k); }
    }
  }

  lemma FirstIsUnique(lines: seq<string>, j: nat, k: nat)
    requires FirstUnreadable(lines, j) && FirstUnreadable(lines, k)
    ensures j == k
  {
  }

  /** So for a whole stream: an envelope stands in it, framed, exactly when the text before the
      first blank line is a head that is served with its length, and the envelope follows. */
  lemma FramedIff(all: string, max: nat, body: string)
    ensures Framed(all, max, body) == (Find(all, "\r\n\r\n") >= 0 && ServedAt(all, Find(all, "\r\n\r\n"), max, body))
  {
    if Find(all, HEAD_END) >= 0 { HeadServedIff(all[..Find(all, HEAD_END)], max, |body|); }
  }

  /** A served head of h characters, and the envelope behind the blank line that ends it. */
  ghost predicate ServedAt(all: string, h: nat, max: nat, body: string) {
    && h + 4 + |body| <= |all| && all[h + 4..h + 4 + |body|] == body
    && ServedHead(all[..h], max, |body|)
  }
}
