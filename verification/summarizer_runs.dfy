/** What a summariser session keeps over any sequence of calls. */
module SummarizerRuns {
  import opened TextRules
  import opened UtcText
  import R = Renderer
  import opened Summarizer

  // ------------------------------------------------------------ the request body

  /** An input that is kept stands in the request at the place its predecessors leave. */
  lemma {:induction false} KeptAt(raws: seq<Raw>, k: nat)
    requires k < |raws| && IsKept(raws, k)
    ensures |Kept(raws[..k])| < |Kept(raws)|
    ensures Kept(raws)[|Kept(raws[..k])|] == raws[k]
  {
    var init := raws[..|raws| - 1];
    if k < |init| {
      assert init[..k] == raws[..k] && init[k] == raws[k];
      KeptAt(init, k);
    }
  }

  lemma {:induction false} KeptFacts(raws: seq<Raw>)
    ensures |Kept(raws)| <= MAX_ITEMS_PER_CATEGORY
    ensures forall j :: 0 <= j < |Kept(raws)| ==> Valid(Kept(raws)[j]) && Kept(raws)[j] in raws
    ensures DistinctIds(raws) ==> DistinctIds(Kept(raws))
    ensures Kept(raws) != [] ==> exists k :: 0 <= k < |raws| && IsKept(raws, k)
  {
    if raws != [] {
      var init, last := raws[..|raws| - 1], raws[|raws| - 1];
      KeptFacts(init);
      if Kept(init) != [] {
        var k :| 0 <= k < |init| && IsKept(init, k);
        assert init[..k] == raws[..k];
        assert IsKept(raws, k);
      } else if Kept(raws) != [] {
        assert IsKept(raws, |raws| - 1);
      }
      if DistinctIds(raws) {
        forall j | 0 <= j < |Kept(init)| ensures Kept(init)[j].candidate != last.candidate {
          var n :| 0 <= n < |init| && init[n] == Kept(init)[j];
          assert raws[n] == init[n];
        }
      }
    }
  }

  lemma {:induction false} LookupHits(items: seq<Raw>, rows: seq<Row>, j: nat)
    requires SameIds(items, rows) && DistinctIds(items) && j < |items|
    ensures Lookup(rows, items[j].candidate) == Some(rows[j].summary)
  {
    var n := |items| - 1;
    assert rows[n].candidate == items[n].candidate;
    if j < n {
      assert items[j].candidate != items[n].candidate;
      LookupHits(items[..n], rows[..n], j);
    }
  }

  /** A kept input is reported with its own row of the answer. */
  lemma AnsweredItem(raws: seq<Raw>, source: Source, rows: seq<Row>, k: nat)
    requires DistinctIds(raws) && SameIds(Kept(raws), rows) && k < |raws| && IsKept(raws, k)
    ensures |Kept(raws[..k])| < |rows|
    ensures Filled(raws, Answered(source, rows))[k] == Item(raws[k].candidate, rows[|Kept(raws[..k])|].summary, source, None)
  {
    KeptAt(raws, k);
    KeptFacts(raws);
    LookupHits(Kept(raws), rows, |Kept(raws[..k])|);
  }

  // ------------------------------------------------------------ result checks

  /** `SummaryItem.__post_init__`. */
  predicate ItemOk(i: Item) {
    && SummaryOk(i.summary)
    && (i.source == Fallback <==> i.error.Some?)
    && (i.error == Some(InputBounds) || 1 <= |i.candidate| <= 256)
  }

  predicate FallbackFor(i: Item, p: Problem) { i.source == Fallback && i.error == Some(p) }

  predicate ShowsInvocation(i: Item) {
    i.source == Model || FallbackFor(i, TransportError) || FallbackFor(i, MalformedOutput)
  }

  /** `CategorySummaryResult.__post_init__`. */
  ghost predicate ResultOk(items: seq<Item>, modelUsed: bool, cacheHit: bool) {
    && !(modelUsed && cacheHit)
    && (cacheHit ==> exists k :: 0 <= k < |items| && items[k].source == Cache)
    && (cacheHit ==> forall k :: 0 <= k < |items| ==> items[k].source == Cache || FallbackFor(items[k], InputBounds))
    && (!cacheHit ==> forall k :: 0 <= k < |items| ==> items[k].source != Cache)
    && (!modelUsed ==> forall k :: 0 <= k < |items| ==> items[k].source != Model)
    && (modelUsed ==> forall k :: 0 <= k < |items| ==> !FallbackFor(items[k], BudgetExhausted))
    && (modelUsed ==> exists k :: 0 <= k < |items| && ShowsInvocation(items[k]))
    && (!modelUsed && !cacheHit ==> forall k :: 0 <= k < |items| ==>
          FallbackFor(items[k], InputBounds) || FallbackFor(items[k], BudgetExhausted))
  }

  /** One item per raw input, in order, under its own id. */
  ghost predicate Lists(items: seq<Item>, raws: seq<Raw>) {
    |items| == |raws| && forall k :: 0 <= k < |items| ==> items[k].candidate == raws[k].candidate && ItemOk(items[k])
  }

  ghost predicate OutcomeOk(out: Outcome, raws: seq<Raw>) {
    out.Done? ==> Lists(out.items, raws) && ResultOk(out.items, out.modelUsed, out.cacheHit)
  }

  lemma FallbackIsOk(r: Raw, p: Problem)
    requires p == InputBounds || 1 <= |r.candidate| <= 256
    ensures ItemOk(FallbackItem(r, p))
  {
    assert Clean("Untitled item");
  }

  lemma FailedItem(raws: seq<Raw>, p: Problem, k: nat)
    requires k < |raws|
    ensures var i := Filled(raws, Failed(p))[k];
      && i.candidate == raws[k].candidate && ItemOk(i)
      && (if IsKept(raws, k) then FallbackFor(i, p) else FallbackFor(i, InputBounds))
  {
    FallbackIsOk(raws[k], if IsKept(raws, k) then p else InputBounds);
  }

  /** What the result checks need of items that were all filled by one failure. */
  lemma FailureChecks(items: seq<Item>, p: Problem, k: nat)
    requires k < |items| && FallbackFor(items[k], p)
    requires forall j :: 0 <= j < |items| ==> FallbackFor(items[j], p) || FallbackFor(items[j], InputBounds)
    ensures p == BudgetExhausted ==> ResultOk(items, false, false)
    ensures p == TransportError || p == MalformedOutput ==> ResultOk(items, true, false)
  {
    if p == TransportError || p == MalformedOutput { assert ShowsInvocation(items[k]); }
  }

  lemma AnswerChecks(items: seq<Item>, source: Source, k: nat)
    requires source == Model || source == Cache
    requires k < |items| && items[k].source == source
    requires forall j :: 0 <= j < |items| ==> items[j].source == source || FallbackFor(items[j], InputBounds)
    ensures ResultOk(items, source == Model, source == Cache)
  {
    if source == Model { assert ShowsInvocation(items[k]); }
  }

  lemma FailedIsOk(raws: seq<Raw>, p: Problem)
    requires Kept(raws) != []
    ensures Lists(Filled(raws, Failed(p)), raws)
    ensures p == BudgetExhausted ==> ResultOk(Filled(raws, Failed(p)), false, false)
    ensures p == TransportError || p == MalformedOutput ==> ResultOk(Filled(raws, Failed(p)), true, false)
  {
    var items := Filled(raws, Failed(p));
    forall k | 0 <= k < |raws|
      ensures items[k].candidate == raws[k].candidate && ItemOk(items[k])
      ensures if IsKept(raws, k) then FallbackFor(items[k], p) else FallbackFor(items[k], InputBounds)
    {
      FailedItem(raws, p, k);
    }
    KeptFacts(raws);
    var k :| 0 <= k < |raws| && IsKept(raws, k);
    FailureChecks(items, p, k);
  }

  lemma OneAnsweredItem(raws: seq<Raw>, source: Source, rows: seq<Row>, k: nat)
    requires DistinctIds(raws) && Acceptable(Kept(raws), rows) && k < |raws|
    requires source == Model || source == Cache
    ensures var i := Filled(raws, Answered(source, rows))[k];
      && i.candidate == raws[k].candidate && ItemOk(i)
      && (if IsKept(raws, k) then i.source == source else FallbackFor(i, InputBounds))
  {
    if IsKept(raws, k) {
      AnsweredItem(raws, source, rows, k);
    } else {
      FallbackIsOk(raws[k], InputBounds);
    }
  }

  lemma AnsweredIsOk(raws: seq<Raw>, source: Source, rows: seq<Row>)
    requires DistinctIds(raws) && Kept(raws) != [] && Acceptable(Kept(raws), rows)
    requires source == Model || source == Cache
    ensures var items := Filled(raws, Answered(source, rows));
      Lists(items, raws) && ResultOk(items, source == Model, source == Cache)
  {
    var items := Filled(raws, Answered(source, rows));
    forall k | 0 <= k < |raws|
      ensures items[k].candidate == raws[k].candidate && ItemOk(items[k])
      ensures if IsKept(raws, k) then items[k].source == source else FallbackFor(items[k], InputBounds)
    {
      OneAnsweredItem(raws, source, rows, k);
    }
    KeptFacts(raws);
    var k :| 0 <= k < |raws| && IsKept(raws, k);
    AnswerChecks(items, source, k);
  }

  lemma AllFallbackIsOk(raws: seq<Raw>)
    ensures Lists(AllFallback(raws), raws) && ResultOk(AllFallback(raws), false, false)
  {
    forall k | 0 <= k < |raws| ensures ItemOk(AllFallback(raws)[k]) { FallbackIsOk(raws[k], InputBounds); }
  }

  // ------------------------------------------------------------ the invariant

  ghost predicate RowsFit(q: Request, rows: seq<Row>) {
    q.items != [] && Acceptable(q.items, rows)
  }

  ghost predicate SessionInv(s: Session) {
    && (forall q :: q in s.cache ==> RowsFit(q, s.cache[q]))
    && (forall c :: c in s.uncached ==> s.uncached[c] == 1)
    && s.modelCalls == |s.uncached.Keys|
  }

  /** Every call: the invariant stays, the result lists the inputs one for one and passes the
      result checks, and a cached value never disagrees with its request. */
  lemma CallFacts(s: Session, category: Category, raws: seq<Raw>, answer: Answer)
    requires SessionInv(s)
    ensures SessionInv(Summarize(s, category, raws, answer).0)
    ensures OutcomeOk(Summarize(s, category, raws, answer).1, raws)
    ensures Summarize(s, category, raws, answer).1 != CacheMismatch
  {
    var q := Request(category, Kept(raws));
    if !DistinctIds(raws) {
    } else if q.items == [] || RequestBytes(q) > MAX_REQUEST_BYTES {
      AllFallbackIsOk(raws);
    } else {
      ServeFacts(s, q, raws, answer);
    }
  }

  lemma ServeFacts(s: Session, q: Request, raws: seq<Raw>, answer: Answer)
    requires SessionInv(s) && DistinctIds(raws) && q.items == Kept(raws) != []
    ensures SessionInv(Serve(s, q, raws, answer).0)
    ensures OutcomeOk(Serve(s, q, raws, answer).1, raws) && Serve(s, q, raws, answer).1 != CacheMismatch
  {
    if q in s.cache {
      AnsweredIsOk(raws, Cache, s.cache[q]);
    } else if !HasBudget(s, q.category) {
      FailedIsOk(raws, BudgetExhausted);
    } else {
      DispatchFacts(s, q, raws, answer);
    }
  }

  lemma ChargeKeepsInv(s: Session, category: Category)
    requires SessionInv(s) && HasBudget(s, category)
    ensures SessionInv(Charge(s, category))
  {
    var charged := Charge(s, category);
    assert category !in s.uncached;
    assert charged.uncached.Keys == s.uncached.Keys + {category};
  }

  lemma DispatchFacts(s: Session, q: Request, raws: seq<Raw>, answer: Answer)
    requires SessionInv(s) && HasBudget(s, q.category) && DistinctIds(raws) && q.items == Kept(raws) != []
    ensures SessionInv(Dispatch(s, q, raws, answer).0)
    ensures OutcomeOk(Dispatch(s, q, raws, answer).1, raws) && Dispatch(s, q, raws, answer).1 != CacheMismatch
  {
    ChargeKeepsInv(s, q.category);
    match answer
    case Raises =>
    case NotBytes =>
    case TransportFails => FailedIsOk(raws, TransportError);
    case Unparseable => FailedIsOk(raws, MalformedOutput);
    case Rows(rows) =>
      if Acceptable(q.items, rows) { AnsweredIsOk(raws, Model, rows); } else { FailedIsOk(raws, MalformedOutput); }
  }

  // ------------------------------------------------------------ sequences of calls

  datatype Turn = Turn(category: Category, raws: seq<Raw>, answer: Answer)

  function Played(s: Session, turns: seq<Turn>, i: nat): Session
    requires i <= |turns|
  {
    if i == 0 then s else OutcomeSession(Played(s, turns, i - 1), turns[i - 1])
  }

  function OutcomeSession(s: Session, t: Turn): Session { Summarize(s, t.category, t.raws, t.answer).0 }

  function Reply(s: Session, t: Turn): Outcome { Summarize(s, t.category, t.raws, t.answer).1 }

  const NEW := Session(0, 0, map[], map[])

  lemma {:induction false} ReachableSessions(turns: seq<Turn>, i: nat)
    requires i <= |turns|
    ensures SessionInv(Played(NEW, turns, i))
  {
    if i > 0 {
      ReachableSessions(turns, i - 1);
      CallFacts(Played(NEW, turns, i - 1), turns[i - 1].category, turns[i - 1].raws, turns[i - 1].answer);
    }
  }

  lemma SubsetCount<T>(a: set<T>, b: set<T>)
    requires a <= b
    ensures |a| <= |b|
    decreases a
  {
    if a != {} {
      var x :| x in a;
      SubsetCount(a - {x}, b - {x});
    }
  }

  lemma EightCategories(a: set<Category>)
    ensures |a| <= 8
  {
    var all: set<Category> := {R.AI, R.WorldNews, R.AudioEngineering, R.Hardware, R.FantasyNovel, R.Audiovisual, R.AvCorporate, R.OurSetup};
    forall c: Category ensures c in all {
      match c
      case AI => case WorldNews => case AudioEngineering => case Hardware =>
      case FantasyNovel => case Audiovisual => case AvCorporate => case OurSetup =>
    }
    SubsetCount(a, all);
  }

  /** At most one uncached call per category, succeeding or failing, and at most eight in all;
      the counter is exactly the number of categories charged. */
  lemma BudgetHolds(turns: seq<Turn>, i: nat)
    requires i <= |turns|
    ensures var s := Played(NEW, turns, i);
      && (forall c :: c in s.uncached ==> s.uncached[c] == 1)
      && s.modelCalls == |s.uncached.Keys| <= TOTAL_CALL_BUDGET
  {
    ReachableSessions(turns, i);
    EightCategories(Played(NEW, turns, i).uncached.Keys);
  }

  /** In every run every reply lists the raw inputs one for one, passes all the result checks,
      and is never the cache-mismatch error. */
  lemma EveryReplyIsSound(turns: seq<Turn>, i: nat)
    requires i < |turns|
    ensures OutcomeOk(Reply(Played(NEW, turns, i), turns[i]), turns[i].raws)
    ensures Reply(Played(NEW, turns, i), turns[i]) != CacheMismatch
    ensures Reply(Played(NEW, turns, i), turns[i]) == DuplicateId <==> !DistinctIds(turns[i].raws)
  {
    ReachableSessions(turns, i);
    CallFacts(Played(NEW, turns, i), turns[i].category, turns[i].raws, turns[i].answer);
  }

  /** Exactly when a call is charged: it reached the transport, and the transport did not
      leave by an exception the session does not know. */
  predicate Asks(s: Session, t: Turn) {
    var q := Request(t.category, Kept(t.raws));
    DistinctIds(t.raws) && q.items != [] && RequestBytes(q) <= MAX_REQUEST_BYTES && q !in s.cache && HasBudget(s, t.category)
  }

  lemma ChargedIffAsked(s: Session, t: Turn)
    requires SessionInv(s)
    ensures OutcomeSession(s, t).modelCalls == s.modelCalls + (if Asks(s, t) && !t.answer.Raises? then 1 else 0)
    ensures t.category in OutcomeSession(s, t).uncached && t.category !in s.uncached <==> Asks(s, t) && !t.answer.Raises?
    ensures Asks(s, t) && t.answer.Raises? ==> OutcomeSession(s, t) == s && Reply(s, t) == Escaped
  {
    ServeCharges(s, Request(t.category, Kept(t.raws)), t.raws, t.answer);
  }

  /** A call that reaches the transport and consumes no budget, as the documentation rules
      out: one sound input, asked of a new session, and an exception it does not know. */
  lemma AnEscapedCallIsFree(category: Category)
    ensures var t := Turn(category, [SMALL], Raises);
      Asks(NEW, t) && Reply(NEW, t) == Escaped && OutcomeSession(NEW, t) == NEW
  {
    SmallIsKept(category);
    ChargedIffAsked(NEW, Turn(category, [SMALL], Raises));
  }

  const SMALL := Raw("a", "b", "", None)

  lemma SmallIsKept(category: Category)
    ensures Kept([SMALL]) == [SMALL] && RequestBytes(Request(category, [SMALL])) <= MAX_REQUEST_BYTES
  {
    assert [SMALL][..0] == [];
    assert TextBytes("a") == 1 && TextBytes("b") == 1 && TextBytes("") == 0;
    assert ItemsBytes([SMALL]) <= 200;
    CategoryIsShort(category);
  }

  lemma CategoryIsShort(category: Category)
    ensures |E.CategoryText(category)| <= 20
  {
  }

  lemma ServeCharges(s: Session, q: Request, raws: seq<Raw>, answer: Answer)
    ensures var s', asked := Serve(s, q, raws, answer).0, q !in s.cache && HasBudget(s, q.category);
      && s'.modelCalls == s.modelCalls + (if asked && !answer.Raises? then 1 else 0)
      && s'.uncached.Keys == s.uncached.Keys + (if asked && !answer.Raises? then {q.category} else {})
      && (asked && answer.Raises? ==> Serve(s, q, raws, answer) == (s, Escaped))
  {
    DispatchCharges(s, q, raws, answer);
  }

  lemma DispatchCharges(s: Session, q: Request, raws: seq<Raw>, answer: Answer)
    ensures var s' := Dispatch(s, q, raws, answer).0;
      if answer.Raises? then s' == s
      else s'.modelCalls == s.modelCalls + 1 && s'.uncached == Charge(s, q.category).uncached
  {
  }

  predicate Succeeded(out: Outcome) {
    out.Done? && exists k :: 0 <= k < |out.items| && out.items[k].source == Model
  }

  lemma CacheStep(s: Session, t: Turn, q: Request)
    requires q in s.cache
    ensures q in OutcomeSession(s, t).cache && OutcomeSession(s, t).cache[q] == s.cache[q]
  {
    ServeKeepsCache(s, Request(t.category, Kept(t.raws)), t.raws, t.answer, q);
  }

  lemma ServeKeepsCache(s: Session, asked: Request, raws: seq<Raw>, answer: Answer, q: Request)
    requires q in s.cache
    ensures var s' := Serve(s, asked, raws, answer).0; q in s'.cache && s'.cache[q] == s.cache[q]
  {
  }

  lemma {:induction false} CacheOnlyGrows(s: Session, turns: seq<Turn>, i: nat, j: nat, q: Request)
    requires i <= j <= |turns| && q in Played(s, turns, i).cache
    ensures q in Played(s, turns, j).cache && Played(s, turns, j).cache[q] == Played(s, turns, i).cache[q]
    decreases j
  {
    if i < j {
      CacheOnlyGrows(s, turns, i, j - 1, q);
      CacheStep(Played(s, turns, j - 1), turns[j - 1], q);
    }
  }

  lemma OnlyAskingSucceeds(s: Session, t: Turn)
    requires SessionInv(s) && Succeeded(Reply(s, t))
    ensures Asks(s, t) && Reply(s, t).modelUsed
  {
    CallFacts(s, t.category, t.raws, t.answer);
  }

  lemma SuccessIsCached(s: Session, t: Turn)
    requires SessionInv(s) && Succeeded(Reply(s, t))
    ensures var q := Request(t.category, Kept(t.raws));
      && Asks(s, t) && t.answer.Rows? && Acceptable(q.items, t.answer.rows)
      && q in OutcomeSession(s, t).cache && OutcomeSession(s, t).cache[q] == t.answer.rows
      && Reply(s, t) == Done(Filled(t.raws, Answered(Model, t.answer.rows)), true, false)
  {
    var q := Request(t.category, Kept(t.raws));
    OnlyAskingSucceeds(s, t);
    assert Reply(s, t) == Dispatch(s, q, t.raws, t.answer).1;
    FailedNeverSucceeds(t.raws, TransportError);
    FailedNeverSucceeds(t.raws, MalformedOutput);
  }

  lemma FailedNeverSucceeds(raws: seq<Raw>, p: Problem)
    ensures !Succeeded(Done(Filled(raws, Failed(p)), true, false))
  {
    var items := Filled(raws, Failed(p));
    forall k | 0 <= k < |items| ensures items[k].source != Model { FailedSource(raws, p, k); }
  }

  lemma FailedSource(raws: seq<Raw>, p: Problem, k: nat)
    requires k < |raws|
    ensures Filled(raws, Failed(p))[k].source == Fallback
  {
  }

  /** Once a request has succeeded it is served from the cache for ever: same items, CACHE in
      place of MODEL, whatever the transport would have said, and only the hit counter moves. */
  lemma SuccessIsServedFromCache(turns: seq<Turn>, i: nat, j: nat)
    requires i < j < |turns|
    requires turns[j].category == turns[i].category && turns[j].raws == turns[i].raws
    requires Succeeded(Reply(Played(NEW, turns, i), turns[i]))
    ensures var s := Played(NEW, turns, j);
      var first, again := Reply(Played(NEW, turns, i), turns[i]), Reply(s, turns[j]);
      && OutcomeSession(s, turns[j]) == s.(cacheHits := s.cacheHits + 1)
      && again.Done? && again.cacheHit && !again.modelUsed && |again.items| == |first.items|
      && forall k :: 0 <= k < |first.items| ==>
        again.items[k] == if first.items[k].source == Model then first.items[k].(source := Cache) else first.items[k]
  {
    var raws, q := turns[i].raws, Request(turns[i].category, Kept(turns[i].raws));
    ReachableSessions(turns, i);
    SuccessIsCached(Played(NEW, turns, i), turns[i]);
    CacheOnlyGrows(NEW, turns, i + 1, j, q);
    var rows := turns[i].answer.rows;
    forall k | 0 <= k < |raws|
      ensures Filled(raws, Answered(Cache, rows))[k] ==
        (var it := Filled(raws, Answered(Model, rows))[k]; if it.source == Model then it.(source := Cache) else it)
    {
      if IsKept(raws, k) {
        AnsweredItem(raws, Model, rows, k);
        AnsweredItem(raws, Cache, rows, k);
      }
    }
  }

  // ------------------------------------------------------------ who is refused for budget

  /** Turn j was charged: the call counter went up. */
  predicate Charged(turns: seq<Turn>, j: nat)
    requires j < |turns|
  {
    Played(NEW, turns, j + 1).modelCalls == Played(NEW, turns, j).modelCalls + 1
  }

  /** An earlier turn already charged this category. */
  ghost predicate ChargedBefore(turns: seq<Turn>, i: nat, c: Category)
    requires i <= |turns|
  {
    exists j :: 0 <= j < i && turns[j].category == c && Charged(turns, j)
  }

  lemma TurnCharges(s: Session, t: Turn, c: Category)
    ensures c in OutcomeSession(s, t).uncached <==>
      c in s.uncached || (t.category == c && OutcomeSession(s, t).modelCalls == s.modelCalls + 1)
  {
    ServeCharges(s, Request(t.category, Kept(t.raws)), t.raws, t.answer);
  }

  lemma ChargedStep(turns: seq<Turn>, i: nat, c: Category)
    requires i < |turns|
    ensures ChargedBefore(turns, i + 1, c) <==> ChargedBefore(turns, i, c) || (turns[i].category == c && Charged(turns, i))
  {
    if j :| 0 <= j < i + 1 && turns[j].category == c && Charged(turns, j) {
      if j < i { assert ChargedBefore(turns, i, c); }
    }
  }

  lemma ChargedNow(turns: seq<Turn>, i: nat, c: Category, before: Session, after: Session)
    requires i < |turns| && before == Played(NEW, turns, i) && after == Played(NEW, turns, i + 1)
    ensures c in after.uncached <==> c in before.uncached || (turns[i].category == c && Charged(turns, i))
  {
    assert after == OutcomeSession(before, turns[i]);
    TurnCharges(before, turns[i], c);
  }

  /** After i turns a category has an uncached call on record exactly when one charged it. */
  lemma {:induction false} UncachedIffCharged(turns: seq<Turn>, i: nat, c: Category, s: Session)
    requires i <= |turns| && s == Played(NEW, turns, i)
    ensures c in s.uncached <==> ChargedBefore(turns, i, c)
  {
    if i > 0 {
      var before := Played(NEW, turns, i - 1);
      UncachedIffCharged(turns, i - 1, c, before);
      ChargedNow(turns, i - 1, c, before, s);
      ChargedStep(turns, i - 1, c);
    }
  }

  lemma BudgetIffUncharged(s: Session, c: Category)
    requires SessionInv(s)
    ensures HasBudget(s, c) <==> c !in s.uncached
  {
    if c !in s.uncached {
      EightCategories(s.uncached.Keys + {c});
      assert |s.uncached.Keys + {c}| == |s.uncached.Keys| + 1;
    }
  }

  /** A well-formed request: distinct ids, something sound to ask, not too long. */
  predicate Askable(t: Turn) {
    DistinctIds(t.raws) && Kept(t.raws) != [] && RequestBytes(Request(t.category, Kept(t.raws))) <= 65536
  }

  /** In every run a well-formed request that is not cached is refused for budget exactly when
      its category was charged before.  Refused, nothing moves, and every sound input is listed
      under the exhausted budget; so the first such request of each category is always asked. */
  lemma RefusedForBudgetIff(turns: seq<Turn>, i: nat)
    requires i < |turns| && Askable(turns[i])
    requires Request(turns[i].category, Kept(turns[i].raws)) !in Played(NEW, turns, i).cache
    ensures var s, t := Played(NEW, turns, i), turns[i]; var reply := Reply(s, t);
      if ChargedBefore(turns, i, t.category) then
        && OutcomeSession(s, t) == s && reply.Done? && !reply.modelUsed && !reply.cacheHit && |reply.items| == |t.raws|
        && forall k :: 0 <= k < |t.raws| ==>
             reply.items[k].source == Fallback
             && reply.items[k].error == Some(if IsKept(t.raws, k) then BudgetExhausted else InputBounds)
      else if t.answer.Raises? then reply == Escaped && OutcomeSession(s, t) == s
      else
        && Charged(turns, i)
        && (t.answer.NotBytes? ==> reply == Escaped)
        && (!t.answer.NotBytes? ==> reply.Done? && reply.modelUsed && !reply.cacheHit)
  {
    var s, t := Played(NEW, turns, i), turns[i];
    ReachableSessions(turns, i);
    UncachedIffCharged(turns, i, t.category, s);
    BudgetIffUncharged(s, t.category);
    assert Reply(s, t) == Serve(s, Request(t.category, Kept(t.raws)), t.raws, t.answer).1;
  }

  /** What the transport said is what the reply shows for every sound input of an asked request:
      its own text when the answer covers the request, else why it failed. */
  lemma AskedReplyShows(turns: seq<Turn>, i: nat, k: nat)
    requires i < |turns| && Askable(turns[i]) && k < |turns[i].raws| && IsKept(turns[i].raws, k)
    requires Request(turns[i].category, Kept(turns[i].raws)) !in Played(NEW, turns, i).cache
    requires !ChargedBefore(turns, i, turns[i].category)
    ensures var t, reply := turns[i], Reply(Played(NEW, turns, i), turns[i]);
      match t.answer
      case TransportFails => reply.Done? && |reply.items| == |t.raws| && reply.items[k].error == Some(TransportError)
      case Unparseable => reply.Done? && |reply.items| == |t.raws| && reply.items[k].error == Some(MalformedOutput)
      case Rows(rows) =>
        reply.Done? && |reply.items| == |t.raws|
        && (if Acceptable(Kept(t.raws), rows)
            then reply.items[k].source == Model && reply.items[k].error == None && Row(t.raws[k].candidate, reply.items[k].summary) in rows
            else reply.items[k].error == Some(MalformedOutput))
      case _ => reply == Escaped
  {
    var s, t := Played(NEW, turns, i), turns[i];
    ReachableSessions(turns, i);
    UncachedIffCharged(turns, i, t.category, s);
    BudgetIffUncharged(s, t.category);
    assert Reply(s, t) == Dispatch(s, Request(t.category, Kept(t.raws)), t.raws, t.answer).1;
    if t.answer.Rows? && Acceptable(Kept(t.raws), t.answer.rows) {
      AnsweredItem(t.raws, Model, t.answer.rows, k);
      FoundIsThere(t.answer.rows, t.raws[k].candidate);
    }
  }

  lemma {:induction false} FoundIsThere(rows: seq<Row>, id: string)
    ensures Lookup(rows, id).Some? ==> Row(id, Lookup(rows, id).value) in rows
  {
    if rows != [] && rows[|rows| - 1].candidate != id { FoundIsThere(rows[..|rows| - 1], id); }
  }

  /** A fallback shows the item's own title, or a fixed text when the title is unusable. */
  predicate ShowsTitle(i: Item, r: Raw) {
    i.source == Fallback ==>
      i.summary == if 1 <= |r.title| <= 512 && Clean(r.title) then r.title else "Untitled item"
  }

  lemma FilledShows(raws: seq<Raw>, fill: Fill, k: nat)
    requires k < |raws| && (fill.Answered? ==> fill.source != Fallback)
    ensures ShowsTitle(Filled(raws, fill)[k], raws[k])
  {
  }

  /** What a reply's items were filled with; None is the fallback for all. */
  lemma WhatFills(s: Session, t: Turn) returns (fill: Option<Fill>)
    requires Reply(s, t).Done?
    ensures Reply(s, t).items == if fill.Some? then Filled(t.raws, fill.value) else AllFallback(t.raws)
    ensures fill.Some? && fill.value.Answered? ==> fill.value.source != Fallback
  {
    var q := Request(t.category, Kept(t.raws));
    if q.items == [] || RequestBytes(q) > MAX_REQUEST_BYTES { return None; }
    if q in s.cache { return Some(Answered(Cache, s.cache[q])); }
    if !HasBudget(s, t.category) { return Some(Failed(BudgetExhausted)); }
    match t.answer
    case TransportFails => return Some(Failed(TransportError));
    case Rows(rows) => return Some(if Acceptable(q.items, rows) then Answered(Model, rows) else Failed(MalformedOutput));
    case _ => return Some(Failed(MalformedOutput));
  }

  /** In every reply, item for item. */
  lemma FallbackShowsTheTitle(s: Session, t: Turn, k: nat)
    requires Reply(s, t).Done? && k < |t.raws|
    ensures |Reply(s, t).items| == |t.raws| && ShowsTitle(Reply(s, t).items[k], t.raws[k])
  {
    var fill := WhatFills(s, t);
    if fill.Some? { FilledShows(t.raws, fill.value, k); }
  }

  // ------------------------------------------------------------ who is asked about

  /** The bounds of an input, spelled out. */
  predicate Sound(r: Raw) {
    && 1 <= |r.candidate| <= 256 && 1 <= |r.title| <= 512 && Clean(r.title) && |r.snippet| <= 2048
    && (r.url.Some? ==>
          && 1 <= |r.url.value| <= 2048 && ("http://" <= r.url.value || "https://" <= r.url.value)
          && Clean(r.url.value) && (forall k :: 0 <= k < |r.url.value| ==> !Space(r.url.value[k]))
          && (var rest := if "http://" <= r.url.value then r.url.value[7..] else r.url.value[8..]; rest != "" && rest[0] !in "/?#"))
  }

  function SoundOnes(raws: seq<Raw>): nat {
    if raws == [] then 0 else SoundOnes(raws[..|raws| - 1]) + (if Sound(raws[|raws| - 1]) then 1 else 0)
  }

  lemma SoundIsValid(r: Raw)
    ensures Sound(r) <==> Valid(r)
  {
  }

  lemma {:induction false} KeptCounts(raws: seq<Raw>)
    ensures |Kept(raws)| == (if SoundOnes(raws) < 32 then SoundOnes(raws) else 32)
  {
    if raws != [] {
      KeptCounts(raws[..|raws| - 1]);
      SoundIsValid(raws[|raws| - 1]);
    }
  }

  /** An input is in the request exactly when it is sound and fewer than 32 sound ones precede it. */
  lemma KeptIffAmongFirst32(raws: seq<Raw>, k: nat)
    requires k < |raws|
    ensures IsKept(raws, k) <==> Sound(raws[k]) && SoundOnes(raws[..k]) < 32
  {
    KeptCounts(raws[..k]);
    SoundIsValid(raws[k]);
  }
}
