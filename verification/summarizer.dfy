/** The summariser session (briefing_summarizer.py, summarize_category): input bounds, a
    budget of eight calls and one per category, and a cache of successful answers.

    A request stands for its own SHA-256 key.  What the transport returns is a parameter;
    JSON decoding is left to it, the checks on the decoded items are here. */
module Summarizer {
  import opened TextRules
  import opened UtcText
  import R = Renderer
  import E = BriefingEngine

  type Category = R.Category

  const MAX_REQUEST_BYTES := 65536
  const MAX_ITEMS_PER_CATEGORY := 32
  const TOTAL_CALL_BUDGET := 8

  datatype Raw = Raw(candidate: string, title: string, snippet: string, url: Option<string>)
  datatype Request = Request(category: Category, items: seq<Raw>)

  datatype Source = Model | Cache | Fallback
  datatype Problem = TransportError | MalformedOutput | BudgetExhausted | InputBounds
  datatype Item = Item(candidate: string, summary: string, source: Source, error: Option<Problem>)

  /** One parsed response row: candidate id and summary. */
  datatype Row = Row(candidate: string, summary: string)

  datatype Answer =
    | TransportFails            // the one exception the session handles
    | Raises                    // any other exception from the transport
    | NotBytes                  // a value that is not bytes: counted, then raised
    | Unparseable
    | Rows(rows: seq<Row>)

  datatype Outcome =
    | Done(items: seq<Item>, modelUsed: bool, cacheHit: bool)
    | DuplicateId
    | CacheMismatch
    | Escaped

  /** The mutable fields of a session. */
  datatype Session = Session(modelCalls: nat, cacheHits: nat, uncached: map<Category, nat>, cache: map<Request, seq<Row>>)

  // ------------------------------------------------------------ bounds

  predicate TitleOk(t: string) { 1 <= |t| <= 512 && Clean(t) }

  predicate Valid(r: Raw) {
    1 <= |r.candidate| <= 256 && TitleOk(r.title) && |r.snippet| <= 2048
    && (r.url.Some? ==> E.CleanUrl(r.url.value) && Clean(r.url.value))
  }

  function ItemsBytes(items: seq<Raw>): nat {
    if items == [] then 0 else
      var r := items[|items| - 1];
      ItemsBytes(items[..|items| - 1]) + (if |items| > 1 then 1 else 0)
      + |"{\"candidate_id\":\"\",\"title\":\"\",\"snippet\":\"\",\"url\":}"|
      + TextBytes(r.candidate) + TextBytes(r.title) + TextBytes(r.snippet)
      + (if r.url.Some? then 2 + TextBytes(r.url.value) else 4)
  }

  /** UTF-8 length of the canonical JSON envelope. */
  function RequestBytes(q: Request): nat {
    |"{\"category\":\"\",\"items\":[]}"| + |E.CategoryText(q.category)| + ItemsBytes(q.items)
  }

  // ------------------------------------------------------------ classification

  predicate DistinctIds(raws: seq<Raw>) {
    forall i, j :: 0 <= i < j < |raws| ==> raws[i].candidate != raws[j].candidate
  }

  /** The valid inputs, at most 32, in order: the body of the request. */
  function Kept(raws: seq<Raw>): seq<Raw> {
    if raws == [] then [] else
      var before, last := Kept(raws[..|raws| - 1]), raws[|raws| - 1];
      if Valid(last) && |before| < MAX_ITEMS_PER_CATEGORY then before + [last] else before
  }

  /** Input k is valid and not crowded out. */
  predicate IsKept(raws: seq<Raw>, k: nat)
    requires k < |raws|
  {
    Valid(raws[k]) && |Kept(raws[..k])| < MAX_ITEMS_PER_CATEGORY
  }

  function FallbackText(r: Raw): string { if TitleOk(r.title) then r.title else "Untitled item" }

  function FallbackItem(r: Raw, p: Problem): Item { Item(r.candidate, FallbackText(r), Fallback, Some(p)) }

  /** How the kept inputs are reported. */
  datatype Fill = Failed(problem: Problem) | Answered(source: Source, rows: seq<Row>)

  function Lookup(rows: seq<Row>, id: string): Option<string> {
    if rows == [] then None
    else if rows[|rows| - 1].candidate == id then Some(rows[|rows| - 1].summary)
    else Lookup(rows[..|rows| - 1], id)
  }

  function ItemFor(r: Raw, fill: Fill): Item {
    match fill
    case Failed(p) => FallbackItem(r, p)
    case Answered(source, rows) =>
      var found := Lookup(rows, r.candidate);
      if found.Some? then Item(r.candidate, found.value, source, None) else FallbackItem(r, InputBounds)
  }

  function Filled(raws: seq<Raw>, fill: Fill): seq<Item> {
    seq(|raws|, k requires 0 <= k < |raws| =>
      if IsKept(raws, k) then ItemFor(raws[k], fill) else FallbackItem(raws[k], InputBounds))
  }

  // ------------------------------------------------------------ one call

  predicate SameIds(items: seq<Raw>, rows: seq<Row>) {
    |items| == |rows| && forall k :: 0 <= k < |items| ==> rows[k].candidate == items[k].candidate
  }

  predicate SummaryOk(s: string) { 1 <= |s| <= 512 && Clean(s) }

  /** `parse_summary_response` on decoded rows. */
  predicate Acceptable(items: seq<Raw>, rows: seq<Row>) {
    SameIds(items, rows) && forall k :: 0 <= k < |rows| ==> SummaryOk(rows[k].summary)
  }

  predicate HasBudget(s: Session, category: Category) {
    s.modelCalls < TOTAL_CALL_BUDGET && (if category in s.uncached then s.uncached[category] else 0) < 1
  }

  /** Count one uncached call. */
  function Charge(s: Session, category: Category): Session {
    s.(modelCalls := s.modelCalls + 1,
       uncached := s.uncached[category := (if category in s.uncached then s.uncached[category] else 0) + 1])
  }

  function Dispatch(s: Session, q: Request, raws: seq<Raw>, answer: Answer): (Session, Outcome) {
    var charged := Charge(s, q.category);
    match answer
    case Raises => (s, Escaped)
    case NotBytes => (charged, Escaped)
    case TransportFails => (charged, Done(Filled(raws, Failed(TransportError)), true, false))
    case Unparseable => (charged, Done(Filled(raws, Failed(MalformedOutput)), true, false))
    case Rows(rows) =>
      if !Acceptable(q.items, rows) then (charged, Done(Filled(raws, Failed(MalformedOutput)), true, false))
      else (charged.(cache := s.cache[q := rows]), Done(Filled(raws, Answered(Model, rows)), true, false))
  }

  function Summarize(s: Session, category: Category, raws: seq<Raw>, answer: Answer): (Session, Outcome) {
    var q := Request(category, Kept(raws));
    if !DistinctIds(raws) then (s, DuplicateId)
    else if q.items == [] || RequestBytes(q) > MAX_REQUEST_BYTES then
      (s, Done(AllFallback(raws), false, false))
    else Serve(s, q, raws, answer)
  }

  /** A well-formed request: from the cache, refused for lack of budget, or dispatched. */
  function Serve(s: Session, q: Request, raws: seq<Raw>, answer: Answer): (Session, Outcome) {
    if q in s.cache then
      if !SameIds(q.items, s.cache[q]) then (s, CacheMismatch)
      else (s.(cacheHits := s.cacheHits + 1), Done(Filled(raws, Answered(Cache, s.cache[q])), false, true))
    else if !HasBudget(s, q.category) then (s, Done(Filled(raws, Failed(BudgetExhausted)), false, false))
    else Dispatch(s, q, raws, answer)
  }

  function AllFallback(raws: seq<Raw>): seq<Item> {
    seq(|raws|, k requires 0 <= k < |raws| => FallbackItem(raws[k], InputBounds))
  }

  // ------------------------------------------------------------ the session object

  class SummarizerSession {
    var modelCalls: nat
    var cacheHits: nat
    var uncached: map<Category, nat>
    var cache: map<Request, seq<Row>>

    function Fields(): Session
      reads this
    {
      Session(modelCalls, cacheHits, uncached, cache)
    }

    constructor (initial: map<Request, seq<Row>>)
      ensures Fields() == Session(0, 0, map[], initial)
    {
      modelCalls, cacheHits, uncached, cache := 0, 0, map[], initial;
    }

    method SummarizeCategory(category: Category, raws: seq<Raw>, answer: Answer) returns (out: Outcome)
      modifies this
      ensures (Fields(), out) == Summarize(old(Fields()), category, raws, answer)
    {
      var distinct := CheckDistinct(raws);
      if !distinct { return DuplicateId; }
      var keptFlags, kept := Classify(raws);
      if kept == [] || RequestBytes(Request(category, kept)) > MAX_REQUEST_BYTES {
        return Done(AllFallback(raws), false, false);
      }
      out := Reply(Request(category, kept), raws, keptFlags, answer);
    }

    method Reply(q: Request, raws: seq<Raw>, keptFlags: seq<bool>, answer: Answer) returns (out: Outcome)
      requires |keptFlags| == |raws| && forall k :: 0 <= k < |raws| ==> (keptFlags[k] <==> IsKept(raws, k))
      modifies this
      ensures (Fields(), out) == Serve(old(Fields()), q, raws, answer)
    {
      if q in cache {
        var cached := cache[q];
        if !SameIds(q.items, cached) { return CacheMismatch; }
        cacheHits := cacheHits + 1;
        var rebuilt := Rebuild(raws, keptFlags, Answered(Cache, cached));
        return Done(rebuilt, false, true);
      }
      if !HasBudget(Fields(), q.category) {
        var rebuilt := Rebuild(raws, keptFlags, Failed(BudgetExhausted));
        return Done(rebuilt, false, false);
      }
      out := Ask(q, raws, keptFlags, answer);
    }

    method Ask(q: Request, raws: seq<Raw>, keptFlags: seq<bool>, answer: Answer) returns (out: Outcome)
      requires |keptFlags| == |raws| && forall k :: 0 <= k < |raws| ==> (keptFlags[k] <==> IsKept(raws, k))
      modifies this
      ensures (Fields(), out) == Dispatch(old(Fields()), q, raws, answer)
    {
      if answer.Raises? { return Escaped; }
      var count := if q.category in uncached then uncached[q.category] else 0;
      modelCalls := modelCalls + 1;
      uncached := uncached[q.category := count + 1];
      match answer {
        case NotBytes => return Escaped;
        case TransportFails =>
          var rebuilt := Rebuild(raws, keptFlags, Failed(TransportError));
          return Done(rebuilt, true, false);
        case Unparseable =>
          var rebuilt := Rebuild(raws, keptFlags, Failed(MalformedOutput));
          return Done(rebuilt, true, false);
        case Rows(rows) =>
          var fine := ParseRows(q.items, rows);
          if !fine {
            var rebuilt := Rebuild(raws, keptFlags, Failed(MalformedOutput));
            return Done(rebuilt, true, false);
          }
          var rebuilt := Rebuild(raws, keptFlags, Answered(Model, rows));
          cache := cache[q := rows];
          return Done(rebuilt, true, false);
      }
    }
  }

  method CheckDistinct(raws: seq<Raw>) returns (ok: bool)
    ensures ok <==> DistinctIds(raws)
  {
    var ids: set<string> := {};
    for i := 0 to |raws|
      invariant forall c :: c in ids <==> exists k :: 0 <= k < i && raws[k].candidate == c
      invariant forall a, b :: 0 <= a < b < i ==> raws[a].candidate != raws[b].candidate
    {
      if raws[i].candidate in ids { return false; }
      ids := ids + {raws[i].candidate};
    }
    return true;
  }

  method Classify(raws: seq<Raw>) returns (keptFlags: seq<bool>, kept: seq<Raw>)
    ensures |keptFlags| == |raws| && forall k :: 0 <= k < |raws| ==> (keptFlags[k] <==> IsKept(raws, k))
    ensures kept == Kept(raws)
  {
    keptFlags, kept := [], [];
    for i := 0 to |raws|
      invariant kept == Kept(raws[..i])
      invariant |keptFlags| == i && forall k :: 0 <= k < i ==> (keptFlags[k] <==> IsKept(raws, k))
    {
      assert raws[..i + 1][..i] == raws[..i];
      if Valid(raws[i]) && |kept| < MAX_ITEMS_PER_CATEGORY {
        keptFlags, kept := keptFlags + [true], kept + [raws[i]];
      } else {
        keptFlags := keptFlags + [false];
      }
    }
    assert raws[..|raws|] == raws;
  }

  method ParseRows(items: seq<Raw>, rows: seq<Row>) returns (ok: bool)
    ensures ok <==> Acceptable(items, rows)
  {
    if |rows| != |items| { return false; }
    for k := 0 to |rows|
      invariant forall j :: 0 <= j < k ==> rows[j].candidate == items[j].candidate && SummaryOk(rows[j].summary)
    {
      if rows[k].candidate != items[k].candidate || !SummaryOk(rows[k].summary) { return false; }
    }
    return true;
  }

  method Rebuild(raws: seq<Raw>, keptFlags: seq<bool>, fill: Fill) returns (items: seq<Item>)
    requires |keptFlags| == |raws| && forall k :: 0 <= k < |raws| ==> (keptFlags[k] <==> IsKept(raws, k))
    ensures items == Filled(raws, fill)
  {
    items := [];
    for k := 0 to |raws|
      invariant |items| == k && forall j :: 0 <= j < k ==> items[j] == Filled(raws, fill)[j]
    {
      items := items + [if keptFlags[k] then ItemFor(raws[k], fill) else FallbackItem(raws[k], InputBounds)];
    }
  }
}
