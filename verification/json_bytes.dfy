/** Canonical JSON strings (json.dumps with ensure_ascii=False and no blanks) and their length in
    UTF-8 (section 3 of RFC 3629), the count the size limits are checked against. */
module JsonBytes {
  import opened TextRules

  /** UTF-8 octets of one character. */
  function Octets(c: char): nat {
    if c <= '\U{7F}' then 1 else if c <= '\U{7FF}' then 2 else if c <= '\U{FFFF}' then 3 else 4
  }

  function Length(s: string): nat {
    if s == "" then 0 else Length(s[..|s| - 1]) + Octets(s[|s| - 1])
  }

  function Hex(n: nat): char
    requires n < 16
  {
    if n < 10 then '0' + n as char else 'a' + (n - 10) as char
  }

  /** One character inside a JSON string. */
  function Escape(c: char): string {
    if c == '"' then "\\\"" else if c == '\\' then "\\\\"
    else if c == '\n' then "\\n" else if c == '\r' then "\\r" else if c == '\t' then "\\t"
    else if c == '\U{8}' then "\\b" else if c == '\U{C}' then "\\f"
    else if c < ' ' then "\\u00" + [Hex(c as int / 16), Hex(c as int % 16)]
    else [c]
  }

  function Escaped(s: string): string {
    if s == "" then "" else Escaped(s[..|s| - 1]) + Escape(s[|s| - 1])
  }

  function Quoted(s: string): string { "\"" + Escaped(s) + "\"" }

  lemma {:induction false} LengthAdds(a: string, b: string)
    ensures Length(a + b) == Length(a) + Length(b)
  {
    if b == "" {
      assert a + b == a;
    } else {
      LengthAdds(a, b[..|b| - 1]);
      assert (a + b)[..|a + b| - 1] == a + b[..|b| - 1];
    }
  }

  predicate Ascii(s: string) { forall k :: 0 <= k < |s| ==> s[k] <= '\U{7F}' }

  lemma {:induction false} AsciiLength(s: string)
    requires Ascii(s)
    ensures Length(s) == |s|
  {
    if s != "" { AsciiLength(s[..|s| - 1]); }
  }

  lemma EscapeLength(c: char)
    ensures Length(Escape(c)) == CharBytes(c)
  {
    if c == '"' || c == '\\' || c < ' ' {
      AsciiLength(Escape(c));
    } else {
      assert Length([c]) == Length("") + Octets(c);
    }
  }

  /** The counted bytes of a text are those of its JSON form. */
  lemma {:induction false} EscapedLength(s: string)
    ensures Length(Escaped(s)) == TextBytes(s)
  {
    if s != "" {
      EscapedLength(s[..|s| - 1]);
      EscapeLength(s[|s| - 1]);
      LengthAdds(Escaped(s[..|s| - 1]), Escape(s[|s| - 1]));
    }
  }

  lemma QuotedLength(s: string)
    ensures Length(Quoted(s)) == TextBytes(s) + 2
  {
    EscapedLength(s);
    LengthAdds("\"", Escaped(s));
    LengthAdds("\"" + Escaped(s), "\"");
    AsciiLength("\"");
  }

  /** A member of an object: its key and its printed value. */
  function Member(key: string, value: string): string { "\"" + key + "\":" + value }

  lemma MemberLength(key: string, value: string)
    requires Ascii(key)
    ensures Length(Member(key, value)) == |key| + 3 + Length(value)
  {
    AsciiLength("\"" + key + "\":");
    LengthAdds("\"" + key + "\":", value);
  }

  lemma QuotedMember(key: string, s: string)
    requires Ascii(key)
    ensures Length(Member(key, Quoted(s))) == |key| + 5 + TextBytes(s)
  {
    QuotedLength(s);
    MemberLength(key, Quoted(s));
  }

  lemma PlainMember(key: string, s: string)
    requires Ascii(key) && Plain(s)
    ensures Length(Member(key, Quoted(s))) == |key| + 5 + |s|
  {
    PlainBytes(s);
    QuotedMember(key, s);
  }

  /** The keys of a payload. */
  lemma KeysAreAscii()
    ensures Ascii("candidate_id") && Ascii("category") && Ascii("decision") && Ascii("summary") && Ascii("title")
    ensures Ascii("event_id") && Ascii("event_version") && Ascii("subject_id")
  {
  }

  /** A text that JSON prints as it stands. */
  predicate Plain(s: string) { forall k :: 0 <= k < |s| ==> ' ' <= s[k] <= '~' && s[k] != '"' && s[k] != '\\' }

  lemma {:induction false} PlainBytes(s: string)
    requires Plain(s)
    ensures TextBytes(s) == |s|
  {
    if s != "" { PlainBytes(s[..|s| - 1]); }
  }

  /** An object of some printed members. */
  function Listed(members: seq<string>): string {
    if members == [] then "" else if |members| == 1 then members[0]
    else Listed(members[..|members| - 1]) + "," + members[|members| - 1]
  }

  function Object(members: seq<string>): string { "{" + Listed(members) + "}" }

  function Total(members: seq<string>): nat {
    if members == [] then 0 else Total(members[..|members| - 1]) + Length(members[|members| - 1])
  }

  lemma {:induction false} ListedLength(members: seq<string>)
    ensures Length(Listed(members)) == Total(members) + (if members == [] then 0 else |members| - 1)
  {
    if members != [] {
      var init, last := members[..|members| - 1], members[|members| - 1];
      ListedLength(init);
      LengthAdds(Listed(init), ",");
      LengthAdds(Listed(init) + ",", last);
      AsciiLength(",");
      if |members| == 1 { assert members == [last] && Listed(members) == last; }
    }
  }

  lemma ObjectLength(members: seq<string>)
    requires members != []
    ensures Length(Object(members)) == Total(members) + |members| + 1
  {
    ListedLength(members);
    LengthAdds("{", Listed(members));
    LengthAdds("{" + Listed(members), "}");
    AsciiLength("{");
    AsciiLength("}");
  }

  lemma TotalGrows(members: seq<string>, last: string)
    ensures Total(members + [last]) == Total(members) + Length(last)
  {
    assert (members + [last])[..|members|] == members;
  }

  lemma {:induction false} TotalAdds(a: seq<string>, b: seq<string>)
    ensures Total(a + b) == Total(a) + Total(b)
  {
    if b == [] {
      assert a + b == a;
    } else {
      TotalAdds(a, b[..|b| - 1]);
      assert (a + b)[..|a + b| - 1] == a + b[..|b| - 1];
    }
  }

  lemma TotalOfThree(a: string, b: string, c: string)
    ensures Total([a, b, c]) == Length(a) + Length(b) + Length(c)
  {
    assert [a, b, c] == [] + [a] + [b] + [c];
    TotalGrows([], a);
    TotalGrows([] + [a], b);
    TotalGrows([] + [a] + [b], c);
  }

  lemma TotalOfTwo(a: string, b: string)
    ensures Total([a, b]) == Length(a) + Length(b)
  {
    assert [a, b] == [] + [a] + [b];
    TotalGrows([], a);
    TotalGrows([] + [a], b);
  }

  /** The place of a member inside an object. */
  lemma {:induction false} ListedHolds(members: seq<string>, k: nat) returns (before: string, after: string)
    requires k < |members|
    ensures Listed(members) == before + members[k] + after
  {
    var init, last := members[..|members| - 1], members[|members| - 1];
    if |members| == 1 {
      before, after := "", "";
    } else if k < |init| {
      var rest;
      before, rest := ListedHolds(init, k);
      after := rest + ("," + last);
    } else {
      before, after := Listed(init) + ",", "";
    }
  }
}
