/** The request envelope of the summariser (briefing_summarizer.py, canonical_request_bytes) as
    text, and that its size check counts the envelope's own bytes. */
module RequestText {
  import opened UtcText
  import opened TextRules
  import opened JsonBytes
  import E = BriefingEngine
  import T = EngineTerms
  import opened Summarizer

  function UrlText(url: Option<string>): string { if url.Some? then Quoted(url.value) else "null" }

  function ItemMembers(r: Raw): seq<string> {
    [Member("candidate_id", Quoted(r.candidate)), Member("title", Quoted(r.title))]
    + [Member("snippet", Quoted(r.snippet)), Member("url", UrlText(r.url))]
  }

  function ItemTexts(items: seq<Raw>): seq<string> {
    if items == [] then [] else ItemTexts(items[..|items| - 1]) + [Object(ItemMembers(items[|items| - 1]))]
  }

  /** The canonical envelope. */
  function RequestText(q: Request): string {
    Object([Member("category", Quoted(E.CategoryText(q.category))), Member("items", "[" + Listed(ItemTexts(q.items)) + "]")])
  }

  lemma KeysAreAscii()
    ensures Ascii("candidate_id") && Ascii("title") && Ascii("snippet") && Ascii("url") && Ascii("category") && Ascii("items")
    ensures Ascii("null") && Ascii("[") && Ascii("]")
  {
  }

  lemma UrlLength(url: Option<string>)
    ensures Length(UrlText(url)) == if url.Some? then 2 + TextBytes(url.value) else 4
  {
    KeysAreAscii();
    if url.Some? { QuotedLength(url.value); } else { AsciiLength("null"); }
  }

  lemma ItemLength(r: Raw)
    ensures Length(Object(ItemMembers(r))) ==
      50 + TextBytes(r.candidate) + TextBytes(r.title) + TextBytes(r.snippet) + (if r.url.Some? then 2 + TextBytes(r.url.value) else 4)
  {
    KeysAreAscii();
    var a, b := Member("candidate_id", Quoted(r.candidate)), Member("title", Quoted(r.title));
    var c, d := Member("snippet", Quoted(r.snippet)), Member("url", UrlText(r.url));
    QuotedMember("candidate_id", r.candidate);
    QuotedMember("title", r.title);
    QuotedMember("snippet", r.snippet);
    UrlLength(r.url);
    MemberLength("url", UrlText(r.url));
    TotalOfTwo(a, b);
    TotalOfTwo(c, d);
    TotalAdds([a, b], [c, d]);
    ObjectLength(ItemMembers(r));
  }

  lemma {:induction false} ItemsLength(items: seq<Raw>)
    ensures |ItemTexts(items)| == |items|
    ensures Total(ItemTexts(items)) + (if items == [] then 0 else |items| - 1) == ItemsBytes(items)
  {
    if items != [] {
      var init, last := items[..|items| - 1], items[|items| - 1];
      ItemsLength(init);
      ItemLength(last);
      TotalGrows(ItemTexts(init), Object(ItemMembers(last)));
      if |items| == 1 { assert init == []; }
    }
  }

  lemma Bracketed(s: string)
    ensures Length("[" + s + "]") == Length(s) + 2
  {
    KeysAreAscii();
    LengthAdds("[", s);
    LengthAdds("[" + s, "]");
    AsciiLength("[");
    AsciiLength("]");
  }

  /** The bytes compared with 65536 are the UTF-8 length of the printed envelope. */
  lemma RequestBytesAreCounted(q: Request)
    ensures RequestBytes(q) == Length(RequestText(q))
  {
    KeysAreAscii();
    var category, items := E.CategoryText(q.category), Listed(ItemTexts(q.items));
    T.CategoryIsPlain(q.category);
    PlainMember("category", category);
    ItemsLength(q.items);
    ListedLength(ItemTexts(q.items));
    Bracketed(items);
    MemberLength("items", "[" + items + "]");
    TotalOfTwo(Member("category", Quoted(category)), Member("items", "[" + items + "]"));
    ObjectLength([Member("category", Quoted(category)), Member("items", "[" + items + "]")]);
  }
}
