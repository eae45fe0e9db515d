/** HTTP framing between the container's broker client and the host broker
    (broker_client.py, news_egress_broker.py), under whatever pieces `recv` delivers. */
module BrokerFraming {
  import opened UtcText
  import opened DecimalText
  import opened HttpText

  const MAX_HTTP_HEADER_BYTES := 8192
  const MAX_REQUEST_BYTES := 65536
  const REQUEST_LINE := "POST /broker HTTP/1.1"
  /** CPython refuses to convert longer digit strings. */
  const MAX_INT_DIGITS := 4300

  // ------------------------------------------------------------ the stream

  /** One end of a stream: what the peer has still to deliver before it stops. */
  class Conn {
    var pending: string
    const faulty: bool

    constructor (bytes: string, faulty: bool)
      ensures pending == bytes && this.faulty == faulty
    {
      pending := bytes;
      this.faulty := faulty;
    }

    /** A non-empty piece of any size up to n, nothing at the end of the stream, or a socket error. */
    method Recv(n: nat) returns (piece: Option<string>)
      requires n >= 1
      modifies this`pending
      ensures piece.None? ==> faulty && pending == old(pending)
      ensures piece.Some? ==> |piece.value| <= n && old(pending) == piece.value + pending
      ensures piece.Some? ==> (piece.value == "" <==> old(pending) == "")
    {
      if * {
        if faulty { return None; }
      }
      if pending == "" { return Some(""); }
      var k :| 1 <= k <= n && k <= |pending|;
      piece := Some(pending[..k]);
      pending := pending[k..];
    }

    /** Whether more bytes are already queued; they can only be ones still pending. */
    method Peek() returns (queued: Option<bool>)
      ensures queued.None? ==> faulty
      ensures queued == Some(true) ==> pending != ""
    {
      if * {
        if faulty { return None; }
      }
      if * {
        if pending != "" { return Some(true); }
      }
      return Some(false);
    }
  }

  // ------------------------------------------------------------ the request head

  datatype HeadResult = Length(n: nat) | BadHead | BadInteger

  /** `str.isdigit` on ISO-8859-1: the superscripts pass, and then `int` fails. */
  predicate IsDigitChar(c: char) { '0' <= c <= '9' || c == '\U{B2}' || c == '\U{B3}' || c == '\U{B9}' }

  datatype Scan = Scanned(lengths: seq<nat>, transferEncoding: bool) | Stopped(why: HeadResult)

  function ScanLine(sofar: Scan, line: string): Scan
    requires sofar.Scanned?
  {
    var colon := Find(line, ":");
    if line == "" || colon < 0 then Stopped(BadHead)
    else
      var name, value := Lower(Strip(line[..colon])), Strip(line[colon + 1..]);
      if name == "transfer-encoding" then sofar.(transferEncoding := true)
      else if name != "content-length" then sofar
      else if value == "" || exists k :: 0 <= k < |value| && !IsDigitChar(value[k]) then Stopped(BadHead)
      else if !AllDigits(value) || |value| > MAX_INT_DIGITS then Stopped(BadInteger)
      else sofar.(lengths := sofar.lengths + [DigitValue(value)])
  }

  function ScanLines(lines: seq<string>): Scan {
    if lines == [] then Scanned([], false) else
      var before := ScanLines(lines[..|lines| - 1]);
      if before.Stopped? then before else ScanLine(before, lines[|lines| - 1])
  }

  /** The body length a head announces, when it is one this broker serves. */
  function ReadHead(head: string, max: nat): HeadResult {
    var lines := SplitLines(head);
    if lines[0] != REQUEST_LINE then BadHead
    else match ScanLines(lines[1..])
      case Stopped(why) => why
      case Scanned(lengths, transferEncoding) =>
        if transferEncoding || |lengths| != 1 || lengths[0] == 0 || lengths[0] > max then BadHead
        else Length(lengths[0])
  }

  method ParseHead(head: string, max: nat) returns (r: HeadResult)
    ensures r == ReadHead(head, max)
  {
    var lines := SplitLines(head);
    if lines[0] != REQUEST_LINE { return BadHead; }
    var rest := lines[1..];
    var state := Scanned([], false);
    for k := 0 to |rest|
      invariant state == ScanLines(rest[..k]) && state.Scanned?
    {
      assert rest[..k + 1][..k] == rest[..k];
      state := ScanLine(state, rest[k]);
      if state.Stopped? {
        StoppedStays(rest, k + 1);
        return state.why;
      }
    }
    assert rest[..|rest|] == rest;
    if state.transferEncoding || |state.lengths| != 1 { return BadHead; }
    if state.lengths[0] == 0 || state.lengths[0] > max { return BadHead; }
    return Length(state.lengths[0]);
  }

  lemma {:induction false} StoppedStays(lines: seq<string>, k: nat)
    requires k <= |lines| && ScanLines(lines[..k]).Stopped?
    ensures ScanLines(lines) == ScanLines(lines[..k])
  {
    if k == |lines| {
      assert lines[..k] == lines;
    } else {
      var init := lines[..|lines| - 1];
      assert init[..k] == lines[..k];
      StoppedStays(init, k);
    }
  }

  // ------------------------------------------------------------ the broker reads a request

  datatype ReadResult = Envelope(body: string) | Refused | Broken

  /** The stream starts with a served head announcing exactly these body bytes. */
  predicate Framed(all: string, max: nat, body: string) {
    var h := Find(all, HEAD_END);
    && h >= 0
    && ReadHead(all[..h], max) == Length(|body|)
    && h + 4 + |body| <= |all|
    && all[h + 4..h + 4 + |body|] == body
  }

  /** Accumulate until the blank line, never past the header bound. */
  method ReadUntilHead(conn: Conn) returns (ok: bool, raw: string, headEnd: int)
    modifies conn`pending
    ensures ok ==> old(conn.pending) == raw + conn.pending && 0 <= headEnd == Find(raw, HEAD_END) == Find(old(conn.pending), HEAD_END)
    ensures ok ==> headEnd <= MAX_HTTP_HEADER_BYTES
    ensures !conn.faulty && 0 <= Find(old(conn.pending), HEAD_END) <= MAX_HTTP_HEADER_BYTES - 4 ==> ok
  {
    raw, headEnd := "", -1;
    ghost var all := conn.pending;
    while headEnd < 0
      invariant all == raw + conn.pending
      invariant headEnd == Find(raw, HEAD_END)
      invariant headEnd < 0 ==> |raw| <= MAX_HTTP_HEADER_BYTES
      invariant |raw| <= MAX_HTTP_HEADER_BYTES + 4
      decreases MAX_HTTP_HEADER_BYTES + 4 - |raw|, headEnd < 0
    {
      ghost var before := raw;
      var room := MAX_HTTP_HEADER_BYTES + 4 - |raw|;
      var piece := conn.Recv(if room < 4096 then room else 4096);
      if piece.None? || piece.value == "" {
        if piece.Some? { assert raw == all; }
        return false, raw, -1;
      }
      raw := raw + piece.value;
      assert before + (piece.value + conn.pending) == raw + conn.pending;
      headEnd := Find(raw, HEAD_END);
      if headEnd < 0 && |raw| > MAX_HTTP_HEADER_BYTES {
        if 0 <= Find(all, HEAD_END) <= MAX_HTTP_HEADER_BYTES - 4 { FoundInTime(raw, all, HEAD_END); }
        return false, raw, -1;
      }
    }
    FindInPrefix(raw, all, HEAD_END);
    ok := true;
  }

  method ReadBody(conn: Conn, start: string, length: nat) returns (ok: bool, body: string)
    requires |start| <= length
    modifies conn`pending
    ensures ok ==> |body| == length && start + old(conn.pending) == body + conn.pending
    ensures !conn.faulty && |start| + |old(conn.pending)| >= length ==> ok
  {
    body := start;
    ghost var all := start + conn.pending;
    while |body| < length
      invariant |body| <= length && all == body + conn.pending
      decreases length - |body|
    {
      ghost var before := body;
      var room := length - |body|;
      var piece := conn.Recv(if room < 4096 then room else 4096);
      if piece.None? || piece.value == "" { return false, body; }
      body := body + piece.value;
      assert before + (piece.value + conn.pending) == body + conn.pending;
    }
    ok := true;
  }

  /** `_read_envelope_bytes`.  Whatever the pieces: an envelope is only ever the framed one, and
      a stream that is exactly one framed request, its head within the header bound, is read. */
  method ReadEnvelopeBytes(conn: Conn, max: nat) returns (r: ReadResult)
    modifies conn`pending
    ensures r.Envelope? ==> Framed(old(conn.pending), max, r.body)
    ensures r.Envelope? ==>
      var h := Find(old(conn.pending), HEAD_END);
      h <= MAX_HTTP_HEADER_BYTES && conn.pending == old(conn.pending)[h + 4 + |r.body|..]
    ensures !conn.faulty && 0 <= Find(old(conn.pending), HEAD_END) <= MAX_HTTP_HEADER_BYTES - 4 ==>
      Answers(old(conn.pending), Find(old(conn.pending), HEAD_END), max, r)
  {
    ghost var all := conn.pending;
    var found, raw, headEnd := ReadUntilHead(conn);
    if !found { return Refused; }
    CutAfterHead(all, raw, conn.pending, headEnd);
    r := ReadAnnounced(conn, raw[..headEnd], raw[headEnd + 4..], max);
    if r.Envelope? { BodyAfterHead(all, r.body, conn.pending, headEnd); }
  }

  /** What a whole stream deserves whose head ends at h. */
  predicate Answers(all: string, h: nat, max: nat, r: ReadResult)
    requires h + 4 <= |all|
  {
    match ReadHead(all[..h], max)
    case Length(n) =>
      (|all| < h + 4 + n ==> r == Refused) && (|all| == h + 4 + n ==> r == Envelope(all[h + 4..]))
    case BadHead => r == Refused
    case BadInteger => r == Broken
  }

  /** The head has been found: serve the length it announces. */
  method ReadAnnounced(conn: Conn, head: string, start: string, max: nat) returns (r: ReadResult)
    modifies conn`pending
    ensures r.Envelope? ==> ReadHead(head, max) == Length(|r.body|) && start + old(conn.pending) == r.body + conn.pending
    ensures r.Broken? ==> ReadHead(head, max).BadInteger?
    ensures match ReadHead(head, max)
            case BadHead => r == Refused
            case BadInteger => r == Broken
            case Length(n) =>
              (|start| + |old(conn.pending)| < n ==> r == Refused)
              && (!conn.faulty && |start| + |old(conn.pending)| == n ==> r == Envelope(start + old(conn.pending)))
  {
    var announced := ParseHead(head, max);
    if announced.BadHead? { return Refused; }
    if announced.BadInteger? { return Broken; }
    r := ReadRest(conn, start, announced.n);
  }

  lemma CutAfterHead(all: string, raw: string, rest: string, h: nat)
    requires all == raw + rest && h + 4 <= |raw|
    ensures all[..h] == raw[..h] && all[h + 4..] == raw[h + 4..] + rest
  {
  }

  lemma BodyAfterHead(all: string, body: string, rest: string, h: nat)
    requires h + 4 <= |all| && all[h + 4..] == body + rest
    ensures h + 4 + |body| <= |all| && all[h + 4..h + 4 + |body|] == body && all[h + 4 + |body|..] == rest
  {
    var tail := all[h + 4..];
    assert tail[..|body|] == body && tail[|body|..] == rest;
  }

  /** The body after the blank line, part of which came with the head, and nothing behind it. */
  method ReadRest(conn: Conn, start: string, length: nat) returns (r: ReadResult)
    modifies conn`pending
    ensures !r.Broken?
    ensures r.Envelope? ==> |r.body| == length && start + old(conn.pending) == r.body + conn.pending
    ensures !conn.faulty && |start| + |old(conn.pending)| == length ==> r == Envelope(start + old(conn.pending))
    ensures |start| + |old(conn.pending)| < length ==> r == Refused
  {
    if |start| > length { return Refused; }
    var whole, text := ReadBody(conn, start, length);
    if !whole { return Refused; }
    var queued := conn.Peek();
    if queued.None? || queued.value { return Refused; }
    return Envelope(text);
  }

  // ------------------------------------------------------------ headers

  datatype Header = Header(name: string, value: string)

  function HeaderText(h: Header): string { h.name + ": " + h.value }

  /** A header that prints to one line and reads back as itself. */
  predicate Proper(h: Header) {
    && h.name != "" && Lacks(h.name, ':') && NoCr(h.name) && NoCr(h.value)
    && Trimmed(h.name) && Trimmed(h.value)
  }

  function HeaderLines(headers: seq<Header>): seq<string> {
    seq(|headers|, k requires 0 <= k < |headers| => HeaderText(headers[k]))
  }

  lemma HeaderReadsBack(h: Header)
    requires Proper(h)
    ensures var line := HeaderText(h);
      && line != "" && NoCr(line) && Find(line, ":") == |h.name|
      && Strip(line[..|h.name|]) == h.name && Strip(line[|h.name| + 1..]) == h.value
  {
    var line := HeaderText(h);
    HeaderSplits(h);
    StripAfterColon(h.value);
    StripAfterColon(h.name);
    forall k | 0 <= k < |line| ensures line[k] != '\r' {
      assert k < |h.name| ==> line[k] == h.name[k];
      assert k >= |h.name| + 2 ==> line[k] == h.value[k - |h.name| - 2];
    }
  }

  lemma HeaderSplits(h: Header)
    requires Lacks(h.name, ':')
    ensures var line := HeaderText(h);
      Find(line, ":") == |h.name| && line[..|h.name|] == h.name && line[|h.name| + 1..] == " " + h.value
  {
    FirstSeparator(h.name, ":", " " + h.value);
    assert h.name + ":" + (" " + h.value) == HeaderText(h);
  }

  lemma LinesArePlain(first: string, headers: seq<Header>)
    requires NoCr(first) && forall k :: 0 <= k < |headers| ==> Proper(headers[k])
    ensures PlainLines([first] + HeaderLines(headers))
  {
    forall k | 0 <= k < |headers| ensures HeaderText(headers[k]) != "" && NoCr(HeaderText(headers[k])) {
      HeaderReadsBack(headers[k]);
    }
  }

  // ------------------------------------------------------------ the client prints a request

  const HOST := Header("Host", "localhost")
  const JSON_TYPE := Header("Content-Type", "application/json; charset=utf-8")
  const CLOSE := Header("Connection", "close")
  const VERSION := Header("X-News-Broker-Version", "1")

  function LengthHeader(n: nat): Header { Header("Content-Length", Decimal(n)) }

  function RequestHeaders(length: nat): seq<Header> { [HOST, JSON_TYPE, LengthHeader(length), CLOSE, VERSION] }

  function RequestLines(length: nat): seq<string> { [REQUEST_LINE] + HeaderLines(RequestHeaders(length)) }

  function BuildHttpRequest(envelope: string): string { Message(RequestLines(|envelope|), envelope) }

  /** A header the scan has no opinion about. */
  predicate Idle(h: Header) {
    Proper(h) && IsAscii(HeaderText(h)) && Lower(h.name) != "content-length" && Lower(h.name) != "transfer-encoding"
  }

  predicate IsAscii(s: string) { forall k :: 0 <= k < |s| ==> s[k] < '\U{80}' }

  /** Printable ASCII. */
  predicate Plain(s: string) { forall k :: 0 <= k < |s| ==> ' ' <= s[k] < '\U{7F}' }

  lemma PlainIsProper(h: Header)
    requires h.name != "" && Plain(h.name) && Plain(h.value) && Lacks(h.name, ':') && Trimmed(h.name) && Trimmed(h.value)
    ensures Proper(h) && IsAscii(HeaderText(h))
  {
    var line := HeaderText(h);
    forall k | 0 <= k < |line| ensures line[k] < '\U{80}' {
      assert k < |h.name| ==> line[k] == h.name[k];
      assert k >= |h.name| + 2 ==> line[k] == h.value[k - |h.name| - 2];
    }
  }

  lemma PlainIsIdle(h: Header)
    requires h.name != "" && Plain(h.name) && Plain(h.value) && Lacks(h.name, ':') && Trimmed(h.name) && Trimmed(h.value)
    requires |h.name| != |"Content-Length"| && |h.name| != |"Transfer-Encoding"|
    ensures Idle(h)
  {
    PlainIsProper(h);
    assert |Lower(h.name)| == |h.name|;
  }

  lemma HostIsIdle()
    ensures Idle(HOST)
  {
    assert Plain("Host") && Lacks("Host", ':');
    assert Plain("localhost");
    PlainIsIdle(HOST);
  }

  lemma JsonTypeIsIdle()
    ensures Idle(JSON_TYPE)
  {
    assert Plain("Content-Type") && Lacks("Content-Type", ':');
    assert Plain("application/json; charset=utf-8");
    PlainIsIdle(JSON_TYPE);
  }

  lemma CloseIsIdle()
    ensures Idle(CLOSE)
  {
    assert Plain("Connection") && Lacks("Connection", ':');
    assert Plain("close");
    PlainIsIdle(CLOSE);
  }

  lemma VersionIsIdle()
    ensures Idle(VERSION)
  {
    assert Plain("X-News-Broker-Version") && Lacks("X-News-Broker-Version", ':');
    assert Plain("1");
    PlainIsIdle(VERSION);
  }

  lemma LengthReadsBack(n: nat)
    ensures var h := LengthHeader(n);
      Proper(h) && IsAscii(HeaderText(h)) && Lower(h.name) == "content-length" && AllDigits(h.value) && DigitValue(h.value) == n
  {
    DigitValueOfDecimal(n);
    var value := Decimal(n);
    assert Plain(value) && !IsSpace(value[0]) && !IsSpace(value[|value| - 1]);
    assert Plain("Content-Length") && Lacks("Content-Length", ':');
    assert Lower("Content-Length") == "content-length";
    PlainIsProper(LengthHeader(n));
  }

  lemma {:induction false} NoLength(headers: seq<Header>)
    requires forall k :: 0 <= k < |headers| ==> Idle(headers[k])
    ensures ScanLines(HeaderLines(headers)) == Scanned([], false)
  {
    if headers != [] {
      var lines := HeaderLines(headers);
      assert lines[..|lines| - 1] == HeaderLines(headers[..|headers| - 1]);
      NoLength(headers[..|headers| - 1]);
      IdleScans(Scanned([], false), headers[|headers| - 1]);
    }
  }

  /** One Content-Length among headers of no interest is all a scan finds. */
  lemma {:induction false} OneLength(headers: seq<Header>, c: nat, n: nat)
    requires c < |headers| && headers[c] == LengthHeader(n) && |Decimal(n)| <= MAX_INT_DIGITS
    requires forall k :: 0 <= k < |headers| && k != c ==> Idle(headers[k])
    ensures ScanLines(HeaderLines(headers)) == Scanned([n], false)
  {
    var lines, init := HeaderLines(headers), headers[..|headers| - 1];
    assert lines[..|lines| - 1] == HeaderLines(init);
    if c == |init| {
      NoLength(init);
      LengthScans(Scanned([], false), n);
    } else {
      OneLength(init, c, n);
      IdleScans(Scanned([n], false), headers[|init|]);
    }
  }

  lemma IdleScans(sofar: Scan, h: Header)
    requires sofar.Scanned? && Idle(h)
    ensures ScanLine(sofar, HeaderText(h)) == sofar
  {
    HeaderReadsBack(h);
  }

  lemma LengthScans(sofar: Scan, n: nat)
    requires sofar.Scanned? && |Decimal(n)| <= MAX_INT_DIGITS
    ensures ScanLine(sofar, HeaderText(LengthHeader(n))) == sofar.(lengths := sofar.lengths + [n])
  {
    LengthReadsBack(n);
    HeaderReadsBack(LengthHeader(n));
  }

  lemma RequestHeadersAreIdle(n: nat)
    ensures forall k :: 0 <= k < 5 && k != 2 ==> Idle(RequestHeaders(n)[k])
  {
    HostIsIdle();
    JsonTypeIsIdle();
    CloseIsIdle();
    VersionIsIdle();
  }

  lemma RequestHeadersAreProper(n: nat)
    ensures forall k :: 0 <= k < 5 ==> Proper(RequestHeaders(n)[k])
  {
    RequestHeadersAreIdle(n);
    LengthReadsBack(n);
  }

  lemma RequestScan(n: nat)
    requires n <= MAX_REQUEST_BYTES
    ensures ScanLines(HeaderLines(RequestHeaders(n))) == Scanned([n], false)
  {
    RequestHeadersAreIdle(n);
    DecimalIsShort(n, 5, Power10(5));
    OneLength(RequestHeaders(n), 2, n);
  }

  lemma {:induction false} JoinedSize(lines: seq<string>, width: nat)
    requires lines != [] && forall k :: 0 <= k < |lines| ==> |lines[k]| <= width
    ensures |JoinLines(lines)| <= |lines| * (width + 2)
  {
    if |lines| > 1 {
      JoinedSize(lines[1..], width);
    }
  }

  lemma RequestHeadIsShort(n: nat)
    requires n <= MAX_REQUEST_BYTES
    ensures |JoinLines(RequestLines(n))| <= 400
  {
    DecimalIsShort(n, 5, Power10(5));
    var l := RequestLines(n);
    assert |l| == 6 && l[0] == REQUEST_LINE;
    assert |l[1]| == |HOST.name| + 2 + |HOST.value|;
    assert |l[2]| == |JSON_TYPE.name| + 2 + |JSON_TYPE.value|;
    assert |l[3]| == |"Content-Length"| + 2 + |Decimal(n)|;
    assert |l[4]| == |CLOSE.name| + 2 + |CLOSE.value|;
    assert |l[5]| == |VERSION.name| + 2 + |VERSION.value|;
    JoinedSize(l, 50);
  }

  lemma HeadAndBody(lines: seq<string>, body: string)
    requires PlainLines(lines)
    ensures var all := Message(lines, body); var h := Find(all, HEAD_END);
      && h == |JoinLines(lines)| && |all| == h + 4 + |body|
      && SplitLines(all[..h]) == lines && all[h + 4..] == body
  {
    HeadEndsWhereItEnds(lines, body);
    LinesRoundTrip(lines);
    assert Message(lines, body)[..|JoinLines(lines)|] == JoinLines(lines);
  }

  lemma RequestLinesArePlain(n: nat)
    ensures PlainLines(RequestLines(n))
  {
    RequestHeadersAreProper(n);
    LinesArePlain(REQUEST_LINE, RequestHeaders(n));
  }

  /** What the client prints is a framed request of this envelope and nothing else. */
  lemma RequestIsFramed(envelope: string, max: nat)
    requires 1 <= |envelope| <= max <= MAX_REQUEST_BYTES
    ensures var all := BuildHttpRequest(envelope);
      var h := Find(all, HEAD_END);
      && 0 <= h <= MAX_HTTP_HEADER_BYTES - 4
      && ReadHead(all[..h], max) == Length(|envelope|)
      && |all| == h + 4 + |envelope| && all[h + 4..] == envelope
  {
    var n := |envelope|;
    var lines := RequestLines(n);
    RequestLinesArePlain(n);
    HeadAndBody(lines, envelope);
    RequestScan(n);
    RequestHeadIsShort(n);
    assert lines[1..] == HeaderLines(RequestHeaders(n));
  }

  // ------------------------------------------------------------ the broker prints a response

  function ResponseHeaders(length: nat, extra: seq<Header>): seq<Header> {
    [JSON_TYPE, LengthHeader(length), CLOSE] + extra
  }

  function StatusLine(status: nat, reason: string): string { "HTTP/1.1" + " " + (Decimal(status) + " " + reason) }

  function BuildHttpResponse(status: nat, reason: string, body: string, extra: seq<Header>): string {
    Message([StatusLine(status, reason)] + HeaderLines(ResponseHeaders(|body|, extra)), body)
  }

  // ------------------------------------------------------------ the client reads a response

  datatype Parsed = Response(status: int, headers: seq<Header>, body: string) | Mismatch | NotAscii

  /** Decoding as ASCII with replacement: what is not ASCII becomes one foreign character. */
  function Ascii(s: string): string {
    seq(|s|, k requires 0 <= k < |s| => if s[k] < '\U{80}' then s[k] else '\U{FFFD}')
  }

  /** Digits with single underscores between them, as `int` accepts. */
  predicate IntDigits(s: string) {
    && s != "" && s[0] != '_' && s[|s| - 1] != '_'
    && (forall k :: 0 <= k < |s| ==> '0' <= s[k] <= '9' || s[k] == '_')
    && (forall k :: 0 <= k < |s| - 1 ==> !(s[k] == '_' && s[k + 1] == '_'))
  }

  function WithoutUnderscores(s: string): string {
    if s == "" then "" else
      WithoutUnderscores(s[..|s| - 1]) + (if s[|s| - 1] == '_' then "" else [s[|s| - 1]])
  }

  function PyInt(text: string): Option<int> {
    var t := Strip(text);
    var negative := t != "" && t[0] == '-';
    var digits := if t != "" && (t[0] == '-' || t[0] == '+') then t[1..] else t;
    var plain := WithoutUnderscores(digits);
    if !IntDigits(digits) || !AllDigits(plain) || |plain| > MAX_INT_DIGITS then None
    else
      var value: int := if negative then 0 - DigitValue(plain) else DigitValue(plain);
      Some(value)
  }

  function HeaderOf(line: string): Option<Header>
    requires Find(line, ":") >= 0
  {
    var colon := Find(line, ":");
    if !IsAscii(line) then None else Some(Header(Strip(line[..colon]), Strip(line[colon + 1..])))
  }

  /** Lines without a colon are skipped; one that is not ASCII raises. */
  function ReadHeaders(lines: seq<string>): Option<seq<Header>> {
    if lines == [] then Some([]) else
      var before, line := ReadHeaders(lines[..|lines| - 1]), lines[|lines| - 1];
      if before.None? then None
      else if Find(line, ":") < 0 then before
      else
        var h := HeaderOf(line);
        if h.None? then None else Some(before.value + [h.value])
  }

  function ReadStatus(line: string): Option<int> {
    var text := Ascii(line);
    var space := Find(text, " ");
    if space < 0 || text[..space] != "HTTP/1.1" then None
    else
      var rest := text[space + 1..];
      var next := Find(rest, " ");
      PyInt(if next < 0 then rest else rest[..next])
  }

  function ParseHttpResponse(raw: string): Parsed {
    var h := Find(raw, HEAD_END);
    if h < 0 then Mismatch
    else
      var lines := SplitLines(raw[..h]);
      var status := ReadStatus(lines[0]);
      if status.None? then Mismatch
      else
        var headers := ReadHeaders(lines[1..]);
        if headers.None? then NotAscii else Response(status.value, headers.value, raw[h + 4..])
  }

  method ParseResponse(raw: string) returns (r: Parsed)
    ensures r == ParseHttpResponse(raw)
  {
    var headEnd := Find(raw, HEAD_END);
    if headEnd < 0 { return Mismatch; }
    var lines := SplitLines(raw[..headEnd]);
    var status := ReadStatus(lines[0]);
    if status.None? { return Mismatch; }
    var headers := ParseHeaders(lines[1..]);
    if headers.None? { return NotAscii; }
    return Response(status.value, headers.value, raw[headEnd + 4..]);
  }

  method ParseHeaders(lines: seq<string>) returns (r: Option<seq<Header>>)
    ensures r == ReadHeaders(lines)
  {
    var headers: seq<Header> := [];
    for k := 0 to |lines|
      invariant ReadHeaders(lines[..k]) == Some(headers)
    {
      assert lines[..k + 1][..k] == lines[..k];
      if Find(lines[k], ":") >= 0 {
        var h := HeaderOf(lines[k]);
        if h.None? {
          NoneStays(lines, k + 1);
          return None;
        }
        headers := headers + [h.value];
      }
    }
    assert lines[..|lines|] == lines;
    return Some(headers);
  }

  lemma {:induction false} NoneStays(lines: seq<string>, k: nat)
    requires k <= |lines| && ReadHeaders(lines[..k]).None?
    ensures ReadHeaders(lines).None?
  {
    if k == |lines| {
      assert lines[..k] == lines;
    } else {
      var init := lines[..|lines| - 1];
      assert init[..k] == lines[..k];
      NoneStays(init, k);
    }
  }

  lemma {:induction false} HeadersReadBack(headers: seq<Header>)
    requires forall k :: 0 <= k < |headers| ==> Proper(headers[k]) && IsAscii(HeaderText(headers[k]))
    ensures ReadHeaders(HeaderLines(headers)) == Some(headers)
  {
    if headers != [] {
      var init, last := headers[..|headers| - 1], headers[|headers| - 1];
      HeadersReadBack(init);
      HeaderReadsBack(last);
      var lines := HeaderLines(headers);
      assert lines[..|lines| - 1] == HeaderLines(init);
      assert headers == init + [last];
    }
  }

  lemma {:induction false} DigitsStay(s: string)
    requires Lacks(s, '_')
    ensures WithoutUnderscores(s) == s
  {
    if s != "" {
      DigitsStay(s[..|s| - 1]);
    }
  }

  lemma DigitsAreTrimmed(d: string)
    requires AllDigits(d)
    ensures Strip(d) == d && IntDigits(d) && Lacks(d, '_') && d[0] != '-' && d[0] != '+'
  {
    assert !IsSpace(d[0]) && !IsSpace(d[|d| - 1]);
    assert StripLeft(d) == d;
    assert forall k :: 0 <= k < |d| ==> d[k] != '_';
  }

  lemma DigitsAreInt(d: string)
    requires AllDigits(d) && |d| <= MAX_INT_DIGITS
    ensures PyInt(d) == Some(DigitValue(d))
  {
    DigitsAreTrimmed(d);
    DigitsStay(d);
  }

  lemma PlainInt(n: nat)
    requires n < 1000
    ensures PyInt(Decimal(n)) == Some(n)
  {
    DecimalIsShort(n, 3, Power10(3));
    DigitsAreInt(Decimal(n));
    DigitValueOfDecimal(n);
  }

  lemma AsciiStatusLine(status: nat, reason: string)
    ensures Ascii(StatusLine(status, reason)) == "HTTP/1.1" + " " + (Decimal(status) + " " + Ascii(reason))
  {
    var d := Decimal(status);
    assert Ascii(d) == d;
    assert Ascii(d + " " + reason) == d + " " + Ascii(reason);
    assert Ascii("HTTP/1.1" + " ") == "HTTP/1.1" + " ";
  }

  lemma StatusReadsBack(status: nat, reason: string)
    requires status < 1000
    ensures ReadStatus(StatusLine(status, reason)) == Some(status)
  {
    var d, tail := Decimal(status), Ascii(reason);
    AsciiStatusLine(status, reason);
    FirstSeparator("HTTP/1.1", " ", d + " " + tail);
    FirstSeparator(d, " ", tail);
    var text := "HTTP/1.1" + " " + (d + " " + tail);
    assert text[..8] == "HTTP/1.1" && text[9..] == d + " " + tail;
    assert (d + " " + tail)[..|d|] == d;
    PlainInt(status);
  }

  lemma ResponseHeadersAreProper(length: nat, extra: seq<Header>)
    requires forall k :: 0 <= k < |extra| ==> Proper(extra[k]) && IsAscii(HeaderText(extra[k]))
    ensures var h := ResponseHeaders(length, extra);
      forall k :: 0 <= k < |h| ==> Proper(h[k]) && IsAscii(HeaderText(h[k]))
  {
    JsonTypeIsIdle();
    CloseIsIdle();
    LengthReadsBack(length);
  }

  /** The client recovers status, headers and body from what the broker prints, for any body
      and any proper extra headers. */
  lemma ResponseRoundTrip(status: nat, reason: string, body: string, extra: seq<Header>)
    requires status < 1000 && NoCr(reason)
    requires forall k :: 0 <= k < |extra| ==> Proper(extra[k]) && IsAscii(HeaderText(extra[k]))
    ensures ParseHttpResponse(BuildHttpResponse(status, reason, body, extra))
      == Response(status, ResponseHeaders(|body|, extra), body)
  {
    var headers := ResponseHeaders(|body|, extra);
    var first := StatusLine(status, reason);
    ResponseHeadersAreProper(|body|, extra);
    LinesArePlain(first, headers);
    HeadAndBody([first] + HeaderLines(headers), body);
    StatusReadsBack(status, reason);
    HeadersReadBack(headers);
    assert ([first] + HeaderLines(headers))[1..] == HeaderLines(headers);
  }

  // ------------------------------------------------------------ loops that gather a response

  const RECV_SLACK := 65536

  /** The client's receive loop: the whole stream, or an error once it outgrows the bound. */
  method ReceiveAll(conn: Conn, max: nat) returns (raw: Option<string>)
    modifies conn`pending
    ensures !conn.faulty ==> raw == if |old(conn.pending)| <= max + RECV_SLACK then Some(old(conn.pending)) else None
    ensures raw.Some? ==> raw.value == old(conn.pending)
  {
    ghost var all := conn.pending;
    var got := "";
    while true
      invariant all == got + conn.pending && |got| <= max + RECV_SLACK
      decreases |conn.pending|
    {
      ghost var before := got;
      var piece := conn.Recv(65536);
      if piece.None? { return None; }
      if piece.value == "" {
        assert got == all;
        return Some(got);
      }
      got := got + piece.value;
      assert before + (piece.value + conn.pending) == got + conn.pending;
      if |got| > max + RECV_SLACK { return None; }
    }
  }

  /** The broker's upstream loop: the body cut at the bound, and a status of -1 exactly when
      something was cut off. */
  method ReadUpstream(conn: Conn, code: int, max: nat) returns (r: Option<(int, string)>)
    modifies conn`pending
    ensures r.None? ==> conn.faulty
    ensures r.Some? ==>
      r.value == if |old(conn.pending)| <= max then (code, old(conn.pending)) else (-1, old(conn.pending)[..max])
  {
    ghost var all := conn.pending;
    var body, status := "", code;
    while true
      invariant all == body + conn.pending && |body| <= max && status == code
      decreases |conn.pending|
    {
      ghost var before := body;
      var room := max + 1 - |body|;
      var piece := conn.Recv(if room < 65536 then room else 65536);
      if piece.None? { return None; }
      if piece.value == "" {
        assert body == all;
        break;
      }
      body := body + piece.value;
      assert before + (piece.value + conn.pending) == body + conn.pending;
      if |body| > max {
        status := -1;
        break;
      }
    }
    if |body| > max {
      assert body[..max] == all[..max];
      body, status := body[..max], -1;
    }
    return Some((status, body));
  }

  // ------------------------------------------------------------ end to end

  /** A request and its response over healthy connections, in pieces of any size: the broker
      reads the client's envelope and the client recovers the broker's status and body. */
  method Exchange(envelope: string, limit: nat, status: nat, reason: string, body: string, extra: seq<Header>, max: nat)
    returns (received: ReadResult, answer: Option<Parsed>)
    requires 1 <= |envelope| <= limit <= MAX_REQUEST_BYTES
    requires status < 1000 && NoCr(reason)
    requires forall k :: 0 <= k < |extra| ==> Proper(extra[k]) && IsAscii(HeaderText(extra[k]))
    ensures received == Envelope(envelope)
    ensures answer == if |BuildHttpResponse(status, reason, body, extra)| <= max + RECV_SLACK
                      then Some(Response(status, ResponseHeaders(|body|, extra), body)) else None
  {
    RequestIsFramed(envelope, limit);
    var up := new Conn(BuildHttpRequest(envelope), false);
    received := ReadEnvelopeBytes(up, limit);
    ResponseRoundTrip(status, reason, body, extra);
    var down := new Conn(BuildHttpResponse(status, reason, body, extra), false);
    var raw := ReceiveAll(down, max);
    if raw.None? { return received, None; }
    var parsed := ParseResponse(raw.value);
    answer := Some(parsed);
  }
}
