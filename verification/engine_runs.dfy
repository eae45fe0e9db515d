/** What briefing runs promise, alone and over any history of ledger operations: the report
    accounts for every input, rendering and recording agree, no identity is ever rendered
    twice, and the windows of completed runs do not overlap. */
module EngineRuns {
  import opened Ordering
  import opened UtcText
  import opened Grouping
  import opened MorningWindow
  import opened BriefingLedger
  import opened LedgerRuns
  import R = Renderer
  import opened BriefingEngine

  // ------------------------------------------------------------ one report

  function ExcludedInputs(s: seq<Excluded>): seq<Input> { seq(|s|, k requires 0 <= k < |s| => s[k].input) }

  function Unwanted(seen: map<CandidateId, SeenRow>, lower: Moment, upper: Moment): Input -> bool {
    i => WhyNot(seen, lower, upper, i).Some?
  }

  lemma {:induction false} ExcludedAreTheRest(seen: map<CandidateId, SeenRow>, lower: Moment, upper: Moment, inputs: seq<Input>)
    ensures var x := ExcludedOf(seen, lower, upper, inputs);
      && ExcludedInputs(x) == Filter(inputs, Unwanted(seen, lower, upper))
      && forall k :: 0 <= k < |x| ==> WhyNot(seen, lower, upper, x[k].input) == Some(x[k].reason)
  {
    if inputs != [] {
      var init := inputs[..|inputs| - 1];
      ExcludedAreTheRest(seen, lower, upper, init);
      var before, x := ExcludedOf(seen, lower, upper, init), ExcludedOf(seen, lower, upper, inputs);
      assert ExcludedInputs(x) == ExcludedInputs(before) + (if |x| > |before| then [inputs[|inputs| - 1]] else []);
    }
  }

  lemma NothingIsLost(seen: map<CandidateId, SeenRow>, lower: Moment, upper: Moment, inputs: seq<Input>, included: seq<Included>)
    requires multiset(Inputs(included)) == multiset(Queue(seen, lower, upper, inputs))
    ensures multiset(Inputs(included)) + multiset(ExcludedInputs(ExcludedOf(seen, lower, upper, inputs))) == multiset(inputs)
  {
    QueueFacts(seen, lower, upper, inputs);
    ExcludedAreTheRest(seen, lower, upper, inputs);
    FilterSplits(inputs, Wanted(seen, lower, upper), Unwanted(seen, lower, upper));
  }

  /** Included plus excluded items are the inputs, each once; the included ones are unseen,
      inside the window and eligible, and each excluded one carries its first reason. */
  lemma ReportAccountsForEveryInput(seen: map<CandidateId, SeenRow>, lower: Moment, upper: Moment, call: Call, summarize: Summarizer, report: Report, pages: seq<Page>)
    requires Reports(seen, lower, upper, call, summarize, report, pages)
    ensures multiset(Inputs(report.included)) + multiset(ExcludedInputs(report.excluded)) == multiset(call.inputs)
    ensures forall k :: 0 <= k < |report.included| ==>
      var i := report.included[k].input;
      Identity(i) !in seen && InWindow(i, lower, upper) && Eligible(i.decision, i.suppressed)
    ensures forall k :: 0 <= k < |report.excluded| ==>
      WhyNot(seen, lower, upper, report.excluded[k].input) == Some(report.excluded[k].reason)
  {
    IncludedIsQueue(Queue(seen, lower, upper, call.inputs), summarize);
    IncludedAreDistinct(seen, lower, upper, call.inputs, report.included);
    NothingIsLost(seen, lower, upper, call.inputs, report.included);
    ExcludedAreTheRest(seen, lower, upper, call.inputs);
  }

  function PageRecords(pages: seq<Page>): seq<R.Record> {
    if pages == [] then [] else PageRecords(pages[..|pages| - 1]) + pages[|pages| - 1].records
  }

  lemma {:induction false} PagesHoldTheGroups(records: seq<R.Record>, date: string, subjects: seq<string>, pages: seq<Page>)
    requires PagesOf(records, date, subjects, pages)
    ensures PageRecords(pages) == Grouped(records, RecordSubject(), subjects)
    decreases |subjects|
  {
    if subjects != [] {
      var init, subject := subjects[..|subjects| - 1], subjects[|subjects| - 1];
      if Filter(records, HasKey(RecordSubject(), subject)) == [] {
        PagesHoldTheGroups(records, date, init, pages);
      } else {
        PagesHoldTheGroups(records, date, init, pages[..|pages| - 1]);
      }
    }
  }

  /** Everything rendered was unseen, has an identity of its own and a listed subject. */
  lemma KeptFacts(seen: map<CandidateId, SeenRow>, lower: Moment, upper: Moment, call: Call, summarize: Summarizer, report: Report, pages: seq<Page>)
    requires Reports(seen, lower, upper, call, summarize, report, pages)
    ensures DistinctIncluded(Recordable(report.included))
    ensures forall x :: x in Recordable(report.included) ==> Identity(x.input) !in seen && x.input.subject in SUBJECTS
  {
    IncludedIsQueue(Queue(seen, lower, upper, call.inputs), summarize);
    IncludedAreDistinct(seen, lower, upper, call.inputs, report.included);
    forall x | x in Recordable(report.included) ensures Identity(x.input) !in seen && x.input.subject in SUBJECTS {
      var j :| 0 <= j < |report.included| && report.included[j] == x;
      SubjectIsListed(seen, lower, upper, call, report, j);
    }
  }

  lemma SubjectIsListed(seen: map<CandidateId, SeenRow>, lower: Moment, upper: Moment, call: Call, report: Report, j: nat)
    requires j < |report.included| && ValidSubjects(Queue(seen, lower, upper, call.inputs))
    requires multiset(Inputs(report.included)) == multiset(Queue(seen, lower, upper, call.inputs))
    ensures report.included[j].input.subject in SUBJECTS
  {
    assert Inputs(report.included)[j] in multiset(Inputs(report.included));
    assert report.included[j].input in Queue(seen, lower, upper, call.inputs);
  }

  lemma PagesHoldTheRecords(kept: seq<Included>, date: string, subjects: seq<string>, pages: seq<Page>)
    requires forall i, j :: 0 <= i < j < |subjects| ==> subjects[i] != subjects[j]
    requires forall x :: x in kept ==> x.input.subject in subjects
    requires PagesOf(Records(kept), date, subjects, pages)
    ensures multiset(PageRecords(pages)) == multiset(Records(kept))
  {
    var records := Records(kept);
    forall r | r in records ensures RecordSubject()(r) in subjects {
      var k :| 0 <= k < |records| && records[k] == r;
      RecordAt(kept, k);
      assert kept[k] in kept;
    }
    PagesHoldTheGroups(records, date, subjects, pages);
    GroupedIsPermutation(records, RecordSubject(), subjects);
  }

  lemma EventsMatchRecords(seen: map<CandidateId, SeenRow>, kept: seq<Included>, at: Time)
    requires forall x :: x in kept ==> Identity(x.input) !in seen
    ensures forall k :: 0 <= k < |kept| ==>
      && Events(kept, at)[k].candidate == Identity(kept[k].input) && Events(kept, at)[k].candidate !in seen
      && Records(kept)[k] == RecordOf(kept[k], CategoryCount(kept[..k], kept[k].input.category))
  {
    forall k | 0 <= k < |kept|
      ensures Events(kept, at)[k].candidate == Identity(kept[k].input)
      ensures Identity(kept[k].input) !in seen && Records(kept)[k] == RecordOf(kept[k], CategoryCount(kept[..k], kept[k].input.category))
    {
      RecordAt(kept, k);
      assert kept[k] in kept;
    }
  }

  /** The rendered records are exactly the recorded events: one record per event, each on
      the page of its subject, and no other record on any page. */
  lemma RenderedAreTheEvents(seen: map<CandidateId, SeenRow>, lower: Moment, upper: Moment, call: Call, summarize: Summarizer, report: Report, pages: seq<Page>)
    requires Reports(seen, lower, upper, call, summarize, report, pages)
    ensures var kept := Recordable(report.included);
      var events, records := Events(kept, Seconds(call.asOf)), Records(kept);
      && multiset(PageRecords(pages)) == multiset(records)
      && |events| == |records| == |kept|
      && DistinctCandidates(events)
      && forall k :: 0 <= k < |kept| ==>
        && events[k].candidate == Identity(kept[k].input) && events[k].candidate !in seen
        && records[k] == RecordOf(kept[k], CategoryCount(kept[..k], kept[k].input.category))
  {
    var kept := Recordable(report.included);
    KeptFacts(seen, lower, upper, call, summarize, report, pages);
    EventsAreDistinct(kept, Seconds(call.asOf));
    SubjectsAreDistinct();
    PagesHoldTheRecords(kept, call.date, SUBJECTS, pages);
    EventsMatchRecords(seen, kept, Seconds(call.asOf));
  }

  // ------------------------------------------------------------ the ledger's answer

  function EventIds(events: seq<ShadowEvent>): seq<CandidateId> {
    seq(|events|, k requires 0 <= k < |events| => events[k].candidate)
  }

  lemma {:induction false} FreshEventsAreAllNew(seen: map<CandidateId, SeenRow>, events: seq<ShadowEvent>)
    requires forall k :: 0 <= k < |events| ==> events[k].candidate !in seen
    ensures Marked(Rows(seen, events), Recorded) == EventIds(events)
    ensures Marked(Rows(seen, events), AlreadySeen) == []
  {
    if events != [] {
      var init, last := events[..|events| - 1], events[|events| - 1];
      FreshEventsAreAllNew(seen, init);
      assert Rows(seen, events)[..|events| - 1] == Rows(seen, init);
      assert EventIds(events) == EventIds(init) + [last.candidate];
    }
  }

  /** A begin that succeeds followed by a completion with fresh, distinct events. */
  lemma BeginThenComplete(l: Ledger, begin: Op, complete: Op)
    requires begin.BeginRun? && complete.CompleteRun? && begin.run == complete.run
    requires Step(l, begin).1 == Begun && DistinctCandidates(complete.events)
    requires forall k :: 0 <= k < |complete.events| ==> complete.events[k].candidate !in l.seen
    ensures var mid := Step(l, begin).0;
      var (after, reply) := Step(mid, complete);
      && (forall c :: c in after.seen <==> c in l.seen || Names(complete.events, c))
      && reply == Partition(EventIds(complete.events), [])
  {
    var mid := Step(l, begin).0;
    FreshEventsAreAllNew(mid.seen, complete.events);
    AbsorbKeys(mid.seen, begin.run, complete.events);
  }

  // ------------------------------------------------------------ histories

  /** At position p of a history of ledger operations, this call's begin and completion took
      effect with this report's window and events. */
  ghost predicate Completed(l: Ledger, trace: seq<Op>, p: nat, call: Call, at8: Mornings, report: Report) {
    && p + 2 <= |trace|
    && Bounds.Bounds(report.lower, report.upper) == ComputeWindow(at8, call.today, call.asOf, call.last)
    && trace[p] == BeginOp(call, report.lower, report.upper)
    && trace[p + 1] == CompleteOp(call, report)
    && Step(At(l, trace, p), trace[p]).1 == Begun
    && Step(At(l, trace, p + 1), trace[p + 1]).1.Partition?
  }

  function Rendered(report: Report): set<CandidateId> {
    set x | x in Recordable(report.included) :: Identity(x.input)
  }

  lemma CompletedRow(l: Ledger, trace: seq<Op>, p: nat, call: Call, at8: Mornings, report: Report)
    requires Completed(l, trace, p, call, at8, report)
    ensures Seconds(report.lower) < Seconds(report.upper)
    ensures var after := At(l, trace, p + 2);
      && call.run in after.runs && after.runs[call.run].status == Status.Completed
      && after.runs[call.run].upper == Seconds(report.upper)
  {
    var mid := Step(At(l, trace, p), trace[p]).0;
    assert mid == At(l, trace, p + 1) && At(l, trace, p + 2) == Step(mid, trace[p + 1]).0;
  }

  lemma RenderedAreNamed(report: Report, at: Time)
    ensures forall id :: Names(Events(Recordable(report.included), at), id) <==> id in Rendered(report)
  {
    var kept := Recordable(report.included);
    var events := Events(kept, at);
    forall id ensures Names(events, id) <==> id in Rendered(report) {
      if id in Rendered(report) {
        var x :| x in kept && Identity(x.input) == id;
        var k :| 0 <= k < |kept| && kept[k] == x;
        assert events[k].candidate == id;
      }
      if Names(events, id) {
        var k :| 0 <= k < |events| && events[k].candidate == id;
        assert kept[k] in kept;
      }
    }
  }

  lemma RenderedAreFresh(seen: map<CandidateId, SeenRow>, lower: Moment, upper: Moment, call: Call, summarize: Summarizer, report: Report, pages: seq<Page>, at: Time)
    requires Reports(seen, lower, upper, call, summarize, report, pages)
    ensures var events := Events(Recordable(report.included), at);
      && DistinctCandidates(events)
      && forall k :: 0 <= k < |events| ==> events[k].candidate !in seen
    ensures Rendered(report) !! seen.Keys
  {
    var kept := Recordable(report.included);
    KeptFacts(seen, lower, upper, call, summarize, report, pages);
    EventsAreDistinct(kept, at);
    forall k | 0 <= k < |kept| ensures Identity(kept[k].input) !in seen { assert kept[k] in kept; }
  }

  /** What a returned run leaves behind: its events and only its events become seen, none of
      them was, and the ledger's answer lists every one as new. */
  lemma RunLeavesItsMark(l: Ledger, trace: seq<Op>, p: nat, call: Call, at8: Mornings, summarize: Summarizer, report: Report, pages: seq<Page>)
    requires Completed(l, trace, p, call, at8, report)
    requires Reports(At(l, trace, p).seen, report.lower, report.upper, call, summarize, report, pages)
    ensures Rendered(report) !! At(l, trace, p).seen.Keys
    ensures At(l, trace, p + 2).seen.Keys == At(l, trace, p).seen.Keys + Rendered(report)
    ensures Step(At(l, trace, p + 1), trace[p + 1]).1
      == Partition(EventIds(Events(Recordable(report.included), Seconds(call.asOf))), [])
  {
    RenderedAreFresh(At(l, trace, p).seen, report.lower, report.upper, call, summarize, report, pages, Seconds(call.asOf));
    BeginThenComplete(At(l, trace, p), trace[p], trace[p + 1]);
    RenderedAreNamed(report, Seconds(call.asOf));
  }

  /** A returned run, placed in a history by its two operations, did complete there. */
  lemma ReturnedRunsComplete(l: Ledger, trace: seq<Op>, p: nat, call: Call, at8: Mornings, summarize: Summarizer, f: Faults, report: Report, pages: seq<Page>)
    requires p + 2 <= |trace|
    requires CanReturn(At(l, trace, p), call, ComputeWindow(at8, call.today, call.asOf, call.last), summarize, f)
    requires var w := ComputeWindow(at8, call.today, call.asOf, call.last);
      Reports(At(l, trace, p).seen, w.lower, w.upper, call, summarize, report, pages)
    requires trace[p] == BeginOp(call, report.lower, report.upper) && trace[p + 1] == CompleteOp(call, report)
    ensures Completed(l, trace, p, call, at8, report)
  {
    RenderedAreFresh(At(l, trace, p).seen, report.lower, report.upper, call, summarize, report, pages, Seconds(call.asOf));
    BeginThenComplete(At(l, trace, p), trace[p], trace[p + 1]);
  }

  /** No identity is rendered by two returned runs, whatever ledger operations come between:
      other runs, failed runs, stale recovery. */
  lemma RenderedAtMostOnce(l: Ledger, trace: seq<Op>, at8: Mornings,
      p: nat, a: Call, sa: Summarizer, ra: Report, pa: seq<Page>,
      q: nat, b: Call, sb: Summarizer, rb: Report, pb: seq<Page>)
    requires p + 2 <= q
    requires Completed(l, trace, p, a, at8, ra) && Reports(At(l, trace, p).seen, ra.lower, ra.upper, a, sa, ra, pa)
    requires Completed(l, trace, q, b, at8, rb) && Reports(At(l, trace, q).seen, rb.lower, rb.upper, b, sb, rb, pb)
    ensures Rendered(ra) !! Rendered(rb)
  {
    RunLeavesItsMark(l, trace, p, a, at8, sa, ra, pa);
    RunLeavesItsMark(l, trace, q, b, at8, sb, rb, pb);
    NothingIsTakenBack(l, trace, p + 2, q);
    var after, later := At(l, trace, p + 2), At(l, trace, q);
    forall id | id in Rendered(ra) ensures id in later.seen { assert id in after.seen; }
  }

  /** The call takes its start from the ledger it runs against. */
  ghost predicate StartsFromLedger(l: Ledger, call: Call) {
    if call.last.None? then IsLastUpper(l, None)
    else IsLastUpper(l, Some(Seconds(call.last.value))) && call.last.value % SECOND == 0
  }

  /** A non-empty window whose start comes from an end already on record. */
  lemma StartsWhereTheLastEnded(at8: Mornings, today: int, asOf: Moment, last: Moment, previous: Moment)
    requires Calendar(at8) && LocalDate(at8, today, asOf)
    requires previous % SECOND == 0 && last % SECOND == 0 && Seconds(previous) <= Seconds(last)
    requires var w := ComputeWindow(at8, today, asOf, Some(last)); w.Bounds? && Seconds(w.lower) < Seconds(w.upper)
    ensures var w := ComputeWindow(at8, today, asOf, Some(last));
      && previous <= w.lower < w.upper
      && (w.lower != last ==> last < w.lower == at8(UpperDate(at8, today, asOf) - 7))
  {
    WindowShape(at8, today, asOf, Some(last));
  }

  lemma EndIsWhole(at8: Mornings, today: int, asOf: Moment, last: Option<Moment>)
    requires Calendar(at8) && ComputeWindow(at8, today, asOf, last).Bounds?
    ensures ComputeWindow(at8, today, asOf, last).upper % SECOND == 0
  {
    var date := UpperDate(at8, today, asOf);
    assert at8(date) % SECOND == 0;
  }

  lemma UpperIsKept(l: Ledger, later: Ledger, run: RunId)
    requires Extends(l, later) && run in l.runs && l.runs[run].status == Status.Completed
    ensures l.runs[run].upper in CompletedUppers(later)
  {
    assert later.runs[run] == l.runs[run];
  }

  lemma UpperIsOnRecord(l: Ledger, trace: seq<Op>, p: nat, a: Call, at8: Mornings, ra: Report, q: nat)
    requires p + 2 <= q <= |trace| && Completed(l, trace, p, a, at8, ra)
    ensures Seconds(ra.upper) in CompletedUppers(At(l, trace, q))
  {
    CompletedRow(l, trace, p, a, at8, ra);
    NothingIsTakenBack(l, trace, p + 2, q);
    UpperIsKept(At(l, trace, p + 2), At(l, trace, q), a.run);
  }

  predicate WindowOf(call: Call, at8: Mornings, report: Report) {
    && Bounds.Bounds(report.lower, report.upper) == ComputeWindow(at8, call.today, call.asOf, call.last)
    && Seconds(report.lower) < Seconds(report.upper)
  }

  lemma NextWindow(at8: Mornings, a: Call, ra: Report, later: Ledger, b: Call, rb: Report)
    requires Calendar(at8) && LocalDate(at8, b.today, b.asOf) && WindowOf(a, at8, ra) && WindowOf(b, at8, rb)
    requires Seconds(ra.upper) in CompletedUppers(later) && StartsFromLedger(later, b)
    ensures ra.lower < ra.upper <= rb.lower < rb.upper && b.last.Some?
    ensures rb.lower != b.last.value ==> b.last.value < rb.lower == at8(UpperDate(at8, b.today, b.asOf) - 7)
  {
    EndIsWhole(at8, a.today, a.asOf, a.last);
    StartsWhereTheLastEnded(at8, b.today, b.asOf, b.last.value, ra.upper);
  }

  /** Windows of completed runs that start from the ledger are half-open, disjoint and in
      order, for any `asOf` values.  A later one starts exactly where the last completed run
      ended unless that lies more than seven mornings back. */
  lemma WindowsAreDisjoint(l: Ledger, trace: seq<Op>, at8: Mornings, p: nat, a: Call, ra: Report, q: nat, b: Call, rb: Report)
    requires p + 2 <= q && Calendar(at8) && LocalDate(at8, b.today, b.asOf)
    requires Completed(l, trace, p, a, at8, ra) && Completed(l, trace, q, b, at8, rb)
    requires StartsFromLedger(At(l, trace, q), b)
    ensures ra.lower < ra.upper <= rb.lower < rb.upper
    ensures b.last.Some?
    ensures rb.lower != b.last.value ==>
      b.last.value < rb.lower == at8(UpperDate(at8, b.today, b.asOf) - 7)
  {
    UpperIsOnRecord(l, trace, p, a, at8, ra, q);
    CompletedRow(l, trace, p, a, at8, ra);
    CompletedRow(l, trace, q, b, at8, rb);
    NextWindow(at8, a, ra, At(l, trace, q), b, rb);
  }

  // ------------------------------------------------------------ a sequence of engine calls

  /** One entry of a history: an engine call with how it ended and what it did to the ledger,
      or a ledger operation by somebody else. */
  datatype Entry =
    | Engine(call: Call, summarize: Summarizer, faults: Faults, result: Outcome, ops: seq<Op>, pages: seq<Page>)
    | Other(op: Op)

  function OpsOf(e: Entry): seq<Op> { if e.Engine? then e.ops else [e.op] }

  /** The ledger operations of some entries, in order. */
  function Flat(entries: seq<Entry>): seq<Op> {
    if entries == [] then [] else Flat(entries[..|entries| - 1]) + OpsOf(entries[|entries| - 1])
  }

  function Apply(l: Ledger, e: Entry): Ledger { At(l, OpsOf(e), |OpsOf(e)|) }

  /** The ledger they leave. */
  function LedgerAfter(l: Ledger, entries: seq<Entry>): Ledger {
    if entries == [] then l else Apply(LedgerAfter(l, entries[..|entries| - 1]), entries[|entries| - 1])
  }

  /** What `ExecuteBriefingRun` ensures of a call made on ledger l, whether it returned,
      raised or was rejected. */
  ghost predicate Ran(l: Ledger, at8: Mornings, e: Entry) {
    e.Engine? ==>
      var w := ComputeWindow(at8, e.call.today, e.call.asOf, e.call.last);
      match e.result
      case Returned(report) =>
        && CanReturn(l, e.call, w, e.summarize, e.faults)
        && Reports(l.seen, w.lower, w.upper, e.call, e.summarize, report, e.pages)
        && e.ops == [BeginOp(e.call, report.lower, report.upper), CompleteOp(e.call, report)]
      case Raised(code) => !CanReturn(l, e.call, w, e.summarize, e.faults) && w.Bounds? && RaisedAs(l, e.call, w, e.summarize, e.faults, code, e.ops)
      case Rejected => w.LastAfterAsOf? && e.ops == []
  }

  /** Every entry is what it says, on the ledger the entries before it left. */
  ghost predicate AllRan(l: Ledger, at8: Mornings, entries: seq<Entry>) {
    entries == [] ||
    (AllRan(l, at8, entries[..|entries| - 1]) && Ran(LedgerAfter(l, entries[..|entries| - 1]), at8, entries[|entries| - 1]))
  }

  lemma {:induction false} RanAt(l: Ledger, at8: Mornings, entries: seq<Entry>, i: nat)
    requires AllRan(l, at8, entries) && i < |entries|
    ensures AllRan(LedgerAfter(l, entries[..i]), at8, [entries[i]])
  {
    var init := entries[..|entries| - 1];
    if i < |init| {
      RanAt(l, at8, init, i);
      assert init[..i] == entries[..i];
    } else {
      RanAlone(LedgerAfter(l, init), at8, entries[i]);
    }
  }

  lemma {:induction false} AtConcat(l: Ledger, a: seq<Op>, b: seq<Op>, k: nat)
    requires k <= |b|
    ensures At(l, a + b, |a| + k) == At(At(l, a, |a|), b, k)
  {
    if k == 0 {
      AtPrefix(l, a, b, |a|);
    } else {
      AtConcat(l, a, b, k - 1);
    }
  }

  /** Entry by entry or operation by operation, the ledger is the same. */
  lemma {:induction false} LedgerIsFlat(l: Ledger, entries: seq<Entry>)
    ensures LedgerAfter(l, entries) == At(l, Flat(entries), |Flat(entries)|)
  {
    if entries != [] {
      var init, ops := entries[..|entries| - 1], OpsOf(entries[|entries| - 1]);
      LedgerIsFlat(l, init);
      AtConcat(l, Flat(init), ops, |ops|);
    }
  }

  lemma {:induction false} FlatPrefix(entries: seq<Entry>, i: nat)
    requires i <= |entries|
    ensures Flat(entries[..i]) <= Flat(entries)
  {
    if i == |entries| {
      assert entries[..i] == entries;
    } else {
      var init := entries[..|entries| - 1];
      FlatPrefix(init, i);
      assert init[..i] == entries[..i];
    }
  }

  lemma FlatStep(entries: seq<Entry>, i: nat)
    requires i < |entries|
    ensures Flat(entries[..i + 1]) == Flat(entries[..i]) + OpsOf(entries[i])
  {
    assert entries[..i + 1][..i] == entries[..i];
  }

  lemma StandsAfter<T>(before: seq<T>, own: seq<T>, whole: seq<T>, k: nat)
    requires before + own <= whole && k < |own|
    ensures |before| + k < |whole| && whole[|before| + k] == own[k]
  {
    assert (before + own)[|before| + k] == own[k];
  }

  /** The k-th operation of entry i stands in the whole history behind the earlier entries'. */
  lemma OpStands(entries: seq<Entry>, i: nat, k: nat)
    requires i < |entries| && k < |OpsOf(entries[i])|
    ensures |Flat(entries[..i])| + k < |Flat(entries)|
    ensures Flat(entries)[|Flat(entries[..i])| + k] == OpsOf(entries[i])[k]
  {
    FlatPrefix(entries, i + 1);
    FlatStep(entries, i);
    StandsAfter(Flat(entries[..i]), OpsOf(entries[i]), Flat(entries), k);
  }

  lemma AtOwnEnd(l: Ledger, before: seq<Op>, trace: seq<Op>)
    requires before <= trace
    ensures At(l, trace, |before|) == At(l, before, |before|)
  {
    assert trace == before + trace[|before|..];
    AtPrefix(l, before, trace[|before|..], |before|);
  }

  lemma RanCompletes(l: Ledger, trace: seq<Op>, p: nat, at8: Mornings, e: Entry)
    requires p + 2 <= |trace| && e.Engine? && e.result.Returned? && AllRan(At(l, trace, p), at8, [e])
    requires |e.ops| == 2 && trace[p] == e.ops[0] && trace[p + 1] == e.ops[1]
    ensures var report := e.result.report;
      && Completed(l, trace, p, e.call, at8, report)
      && Reports(At(l, trace, p).seen, report.lower, report.upper, e.call, e.summarize, report, e.pages)
  {
    assert [e][..0] == [] && LedgerAfter(At(l, trace, p), []) == At(l, trace, p);
    ReturnedRunsComplete(l, trace, p, e.call, at8, e.summarize, e.faults, e.result.report, e.pages);
  }

  lemma TwoOps(l: Ledger, at8: Mornings, e: Entry)
    requires e.Engine? && e.result.Returned? && AllRan(l, at8, [e])
    ensures |OpsOf(e)| == |e.ops| == 2
  {
    assert [e][..0] == [];
  }

  /** Where a returned call's two operations stand in the history. */
  lemma ReturnedStands(l: Ledger, at8: Mornings, entries: seq<Entry>, i: nat)
    requires AllRan(l, at8, entries) && i < |entries| && entries[i].Engine? && entries[i].result.Returned?
    ensures var trace, p, e := Flat(entries), |Flat(entries[..i])|, entries[i];
      && p + 2 == |Flat(entries[..i + 1])| <= |trace| && AllRan(At(l, trace, p), at8, [e])
      && |e.ops| == 2 && trace[p] == e.ops[0] && trace[p + 1] == e.ops[1]
  {
    RanAt(l, at8, entries, i);
    TwoOps(LedgerAfter(l, entries[..i]), at8, entries[i]);
    OpStands(entries, i, 0);
    OpStands(entries, i, 1);
    FlatStep(entries, i);
    FlatPrefix(entries, i);
    AtOwnEnd(l, Flat(entries[..i]), Flat(entries));
    LedgerIsFlat(l, entries[..i]);
    FlatPrefix(entries, i + 1);
  }

  /** The operations of a later entry come after those of an earlier one. */
  lemma LaterStandsLater(entries: seq<Entry>, i: nat, j: nat)
    requires i < j < |entries|
    ensures |Flat(entries[..i + 1])| <= |Flat(entries[..j])|
  {
    FlatPrefix(entries[..j], i + 1);
    assert entries[..j][..i + 1] == entries[..i + 1];
  }

  /** What a returned call rendered was not seen before it, and is seen after it. */
  lemma MarkedThere(l: Ledger, at8: Mornings, entries: seq<Entry>, i: nat)
    requires AllRan(l, at8, entries) && i < |entries| && entries[i].Engine? && entries[i].result.Returned?
    ensures var trace, p := Flat(entries), |Flat(entries[..i])|;
      && p + 2 == |Flat(entries[..i + 1])| <= |trace|
      && Rendered(entries[i].result.report) !! At(l, trace, p).seen.Keys
      && Rendered(entries[i].result.report) <= At(l, trace, p + 2).seen.Keys
  {
    var e := entries[i];
    ReturnedStands(l, at8, entries, i);
    RanCompletes(l, Flat(entries), |Flat(entries[..i])|, at8, e);
    RunLeavesItsMark(l, Flat(entries), |Flat(entries[..i])|, e.call, at8, e.summarize, e.result.report, e.pages);
  }

  lemma SeenStays(l: Ledger, trace: seq<Op>, p: nat, q: nat)
    requires p <= q <= |trace|
    ensures At(l, trace, p).seen.Keys <= At(l, trace, q).seen.Keys
  {
    NothingIsTakenBack(l, trace, p, q);
  }

  /** Over any sequence of engine calls, returned, raised or rejected, with any ledger
      operations in between, no identity is rendered in two returned results. */
  lemma NoIdentityIsRenderedTwice(l: Ledger, at8: Mornings, entries: seq<Entry>, i: nat, j: nat)
    requires AllRan(l, at8, entries) && i < j < |entries|
    requires entries[i].Engine? && entries[j].Engine? && entries[i].result.Returned? && entries[j].result.Returned?
    ensures Rendered(entries[i].result.report) !! Rendered(entries[j].result.report)
  {
    MarkedThere(l, at8, entries, i);
    MarkedThere(l, at8, entries, j);
    LaterStandsLater(entries, i, j);
    SeenStays(l, Flat(entries), |Flat(entries[..i + 1])|, |Flat(entries[..j])|);
  }

  lemma CompletedThere(l: Ledger, at8: Mornings, entries: seq<Entry>, i: nat)
    requires AllRan(l, at8, entries) && i < |entries| && entries[i].Engine? && entries[i].result.Returned?
    ensures |Flat(entries[..i])| + 2 == |Flat(entries[..i + 1])| <= |Flat(entries)|
    ensures Completed(l, Flat(entries), |Flat(entries[..i])|, entries[i].call, at8, entries[i].result.report)
  {
    ReturnedStands(l, at8, entries, i);
    RanCompletes(l, Flat(entries), |Flat(entries[..i])|, at8, entries[i]);
  }

  /** The ledger before an entry, as a point of the flat history. */
  lemma LedgerThere(l: Ledger, entries: seq<Entry>, j: nat)
    requires j <= |entries|
    ensures |Flat(entries[..j])| <= |Flat(entries)|
    ensures At(l, Flat(entries), |Flat(entries[..j])|) == LedgerAfter(l, entries[..j])
  {
    FlatPrefix(entries, j);
    AtOwnEnd(l, Flat(entries[..j]), Flat(entries));
    LedgerIsFlat(l, entries[..j]);
  }

  /** And the windows of those that take their start from the ledger follow each other. */
  lemma ReturnedWindowsFollow(l: Ledger, at8: Mornings, entries: seq<Entry>, i: nat, j: nat)
    requires AllRan(l, at8, entries) && i < j < |entries| && Calendar(at8)
    requires entries[i].Engine? && entries[j].Engine? && entries[i].result.Returned? && entries[j].result.Returned?
    requires LocalDate(at8, entries[j].call.today, entries[j].call.asOf)
    requires StartsFromLedger(LedgerAfter(l, entries[..j]), entries[j].call)
    ensures var a, b := entries[i].result.report, entries[j].result.report; a.lower < a.upper <= b.lower < b.upper
    ensures var call, b := entries[j].call, entries[j].result.report;
      call.last.Some? && (b.lower != call.last.value ==> call.last.value < b.lower == at8(UpperDate(at8, call.today, call.asOf) - 7))
  {
    var a, b := entries[i], entries[j];
    CompletedThere(l, at8, entries, i);
    CompletedThere(l, at8, entries, j);
    LedgerThere(l, entries, j);
    LaterStandsLater(entries, i, j);
    WindowsAreDisjoint(l, Flat(entries), at8,
      |Flat(entries[..i])|, a.call, a.result.report, |Flat(entries[..j])|, b.call, b.result.report);
  }

  // ------------------------------------------------------------ the calls themselves

  /** What a caller asks for: an engine run, or a ledger operation of its own. */
  datatype Request = Run(call: Call, summarize: Summarizer, faults: Faults) | Ask(op: Op)

  ghost predicate Answers(r: Request, e: Entry) {
    match r
    case Run(call, summarize, faults) => e.Engine? && e.call == call && e.summarize == summarize && e.faults == faults
    case Ask(op) => e == Other(op)
  }

  ghost predicate AllAnswered(requests: seq<Request>, entries: seq<Entry>) {
    |entries| <= |requests| && forall i :: 0 <= i < |entries| ==> Answers(requests[i], entries[i])
  }

  lemma AnsweredAppend(requests: seq<Request>, entries: seq<Entry>, e: Entry)
    requires AllAnswered(requests, entries) && |entries| < |requests| && Answers(requests[|entries|], e)
    ensures AllAnswered(requests, entries + [e])
  {
  }

  /** A history and one more entry. */
  lemma RanAppend(l: Ledger, at8: Mornings, entries: seq<Entry>, e: Entry)
    requires AllRan(l, at8, entries) && AllRan(LedgerAfter(l, entries), at8, [e])
    ensures AllRan(l, at8, entries + [e])
  {
    assert (entries + [e])[..|entries|] == entries;
    assert [e][..0] == [] && LedgerAfter(LedgerAfter(l, entries), []) == LedgerAfter(l, entries);
  }

  lemma LedgerAppend(l: Ledger, entries: seq<Entry>, e: Entry)
    ensures LedgerAfter(l, entries + [e]) == Apply(LedgerAfter(l, entries), e)
  {
    assert (entries + [e])[..|entries|] == entries;
  }

  lemma RanAlone(l: Ledger, at8: Mornings, e: Entry)
    requires Ran(l, at8, e)
    ensures AllRan(l, at8, [e])
  {
    assert [e][..0] == [] && LedgerAfter(l, []) == l;
  }

  method Execute(db: LedgerDb, at8: Mornings, r: Request) returns (ghost e: Entry)
    modifies db
    ensures Answers(r, e) && AllRan(old(db.Model()), at8, [e])
    ensures db.Model() == Apply(old(db.Model()), e)
  {
    ghost var l := db.Model();
    match r {
      case Run(call, summarize, faults) =>
        var result, ops, pages := ExecuteBriefingRun(db, call, at8, summarize, faults);
        e := Engine(call, summarize, faults, result, ops, pages);
      case Ask(op) =>
        OneOp(db.Model(), op);
        e := Other(op);
        match op {
          case BeginRun(run, lower, upper, started) => var _ := db.BeginRun(run, lower, upper, started);
          case CompleteRun(run, updated, events) => var _ := db.CompleteRun(run, updated, events);
          case FailRun(run, updated, code) => var _ := db.FailRun(run, updated, code);
          case RecoverStale(cutoff, updated) => var _ := db.RecoverStaleRuns(cutoff, updated);
        }
    }
    RanAlone(l, at8, e);
  }

  /** Any program of such requests, executed one at a time, leaves a history the lemmas above
      speak about; so no two of its returned runs render the same identity. */
  method ExecuteAll(db: LedgerDb, at8: Mornings, requests: seq<Request>) returns (ghost entries: seq<Entry>)
    modifies db
    ensures |entries| == |requests| && AllAnswered(requests, entries)
    ensures AllRan(old(db.Model()), at8, entries)
    ensures db.Model() == LedgerAfter(old(db.Model()), entries)
  {
    entries := [];
    ghost var start := db.Model();
    for n := 0 to |requests|
      invariant |entries| == n && AllAnswered(requests, entries)
      invariant AllRan(start, at8, entries)
      invariant db.Model() == LedgerAfter(start, entries)
    {
      ghost var e := Execute(db, at8, requests[n]);
      AnsweredAppend(requests, entries, e);
      RanAppend(start, at8, entries, e);
      LedgerAppend(start, entries, e);
      entries := entries + [e];
    }
  }
}
