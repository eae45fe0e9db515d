/** The shadow briefing ledger (briefing_ledger.py): runs, a write-once seen table, and the
    events each completed run recorded.

    One transaction is one step.  Times are whole seconds, the precision the ledger's
    normalised timestamps keep; payloads are already canonical bytes. */
module BriefingLedger {
  import opened Ordering
  import opened UtcText

  type RunId = string
  type CandidateId = string
  type Payload = string
  type Time = int

  datatype Status = Running | Completed | Failed | Stale
  datatype RunRow = RunRow(lower: Time, upper: Time, started: Time, updated: Time, status: Status, error: Option<string>)
  datatype SeenRow = SeenRow(firstRun: RunId, firstSeen: Time, category: string, decision: string, payload: Payload)
  datatype Mark = Recorded | AlreadySeen
  datatype EventRow = EventRow(candidate: CandidateId, mark: Mark, payload: Payload)

  /** The three tables; a run's events are indexed by their ordinal. */
  datatype Ledger = Ledger(runs: map<RunId, RunRow>, seen: map<CandidateId, SeenRow>, events: map<RunId, seq<EventRow>>)

  datatype ShadowEvent = ShadowEvent(candidate: CandidateId, category: string, decision: string, payload: Payload, recordedAt: Time)

  datatype Op =
    | BeginRun(run: RunId, lower: Time, upper: Time, started: Time)
    | CompleteRun(run: RunId, updated: Time, events: seq<ShadowEvent>)
    | FailRun(run: RunId, updated: Time, code: string)
    | RecoverStale(cutoff: Time, updated: Time)

  datatype Reply =
    | ContractError | RunConflict | RunState
    | Begun
    | Partition(newIds: seq<CandidateId>, alreadySeen: seq<CandidateId>)
    | FailedNow
    | Recovered(runs: seq<RunId>)

  const EMPTY := Ledger(map[], map[], map[])

  // ------------------------------------------------------------ begin and fail

  function BeginStep(l: Ledger, run: RunId, lower: Time, upper: Time, started: Time): (Ledger, Reply) {
    if lower >= upper then (l, ContractError)
    else
      var row := RunRow(lower, upper, started, started, Running, None);
      if run in l.runs then (l, if l.runs[run] == row then Begun else RunConflict)
      else (l.(runs := l.runs[run := row], events := l.events[run := []]), Begun)
  }

  function FailStep(l: Ledger, run: RunId, updated: Time, code: string): (Ledger, Reply) {
    if run !in l.runs then (l, RunConflict)
    else if l.runs[run].status != Running then (l, RunState)
    else (l.(runs := l.runs[run := l.runs[run].(status := Failed, error := Some(code), updated := updated)]), FailedNow)
  }

  predicate IsStale(l: Ledger, run: RunId, cutoff: Time) {
    run in l.runs && l.runs[run].status == Running && l.runs[run].updated < cutoff
  }

  function RunIdOrder(): (RunId, RunId) -> bool { (a, b) => TextLess(a, b) }

  lemma RunIdOrderIsStrictTotal()
    ensures StrictTotal(RunIdOrder())
  {
    forall a: RunId, b: RunId ensures !RunIdOrder()(a, a) && (a != b ==> RunIdOrder()(a, b) || RunIdOrder()(b, a)) {
      TextLessTrichotomy(a, a);
      TextLessTrichotomy(a, b);
    }
    forall a: RunId, b: RunId, c: RunId | RunIdOrder()(a, b) && RunIdOrder()(b, c) ensures RunIdOrder()(a, c) {
      TextLessTransitive(a, b, c);
    }
  }

  function StaleIds(l: Ledger, cutoff: Time): set<RunId> { set r | r in l.runs && IsStale(l, r, cutoff) }

  function RecoverStep(l: Ledger, cutoff: Time, updated: Time): (Ledger, Reply) {
    RunIdOrderIsStrictTotal();
    (l.(runs := map r | r in l.runs :: if IsStale(l, r, cutoff) then l.runs[r].(status := Stale, updated := updated) else l.runs[r]),
     Recovered(InOrder(StaleIds(l, cutoff), RunIdOrder())))
  }

  // ------------------------------------------------------------ complete

  predicate DistinctCandidates(events: seq<ShadowEvent>) {
    forall i, j :: 0 <= i < j < |events| ==> events[i].candidate != events[j].candidate
  }

  /** A retry matches when it repeats the persisted candidates, order and payloads exactly. */
  predicate SameEvents(rows: seq<EventRow>, events: seq<ShadowEvent>) {
    |rows| == |events|
    && forall i :: 0 <= i < |rows| ==> rows[i].candidate == events[i].candidate && rows[i].payload == events[i].payload
  }

  function Marked(rows: seq<EventRow>, m: Mark): seq<CandidateId> {
    if rows == [] then [] else
      Marked(rows[..|rows| - 1], m) + (if rows[|rows| - 1].mark == m then [rows[|rows| - 1].candidate] else [])
  }

  function MarkFor(seen: map<CandidateId, SeenRow>, e: ShadowEvent): EventRow {
    EventRow(e.candidate, if e.candidate in seen then AlreadySeen else Recorded, e.payload)
  }

  /** INSERT OR IGNORE of every event: a candidate already seen keeps its row. */
  function Absorb(seen: map<CandidateId, SeenRow>, run: RunId, events: seq<ShadowEvent>): map<CandidateId, SeenRow> {
    if events == [] then seen else
      var before, e := Absorb(seen, run, events[..|events| - 1]), events[|events| - 1];
      if e.candidate in before then before
      else before[e.candidate := SeenRow(run, e.recordedAt, e.category, e.decision, e.payload)]
  }

  function Rows(seen: map<CandidateId, SeenRow>, events: seq<ShadowEvent>): seq<EventRow> {
    seq(|events|, i requires 0 <= i < |events| => MarkFor(seen, events[i]))
  }

  function CompleteStep(l: Ledger, run: RunId, updated: Time, events: seq<ShadowEvent>): (Ledger, Reply) {
    if !DistinctCandidates(events) then (l, ContractError)
    else if run !in l.runs then (l, RunConflict)
    else if l.runs[run].status == Completed then
      var rows := if run in l.events then l.events[run] else [];
      (l, if SameEvents(rows, events) then Partition(Marked(rows, Recorded), Marked(rows, AlreadySeen)) else RunConflict)
    else if l.runs[run].status != Running then (l, RunState)
    else
      var rows := Rows(l.seen, events);
      (Ledger(l.runs[run := l.runs[run].(status := Completed, updated := updated, error := None)],
              Absorb(l.seen, run, events),
              l.events[run := rows]),
       Partition(Marked(rows, Recorded), Marked(rows, AlreadySeen)))
  }

  function Step(l: Ledger, op: Op): (Ledger, Reply) {
    match op
    case BeginRun(run, lower, upper, started) => BeginStep(l, run, lower, upper, started)
    case CompleteRun(run, updated, events) => CompleteStep(l, run, updated, events)
    case FailRun(run, updated, code) => FailStep(l, run, updated, code)
    case RecoverStale(cutoff, updated) => RecoverStep(l, cutoff, updated)
  }

  // ------------------------------------------------------------ queries

  /** The ids of the input that were seen, in input order; duplicates are refused. */
  function SeenIds(l: Ledger, ids: seq<CandidateId>): seq<CandidateId> {
    Filter(ids, c => c in l.seen)
  }

  function CompletedUppers(l: Ledger): set<Time> {
    set r | r in l.runs && l.runs[r].status == Completed :: l.runs[r].upper
  }

  /** Latest upper bound among completed runs. */
  ghost predicate IsLastUpper(l: Ledger, last: Option<Time>) {
    if last.None? then CompletedUppers(l) == {}
    else last.value in CompletedUppers(l) && forall u :: u in CompletedUppers(l) ==> u <= last.value
  }

  // ------------------------------------------------------------ the ledger object

  lemma AbsorbOne(seen: map<CandidateId, SeenRow>, run: RunId, events: seq<ShadowEvent>, i: nat)
    requires i < |events| && DistinctCandidates(events)
    ensures Absorb(seen, run, events[..i + 1]) ==
      (var before := Absorb(seen, run, events[..i]); var e := events[i];
       if e.candidate in before then before
       else before[e.candidate := SeenRow(run, e.recordedAt, e.category, e.decision, e.payload)])
    ensures events[i].candidate in Absorb(seen, run, events[..i]) <==> events[i].candidate in seen
  {
    assert events[..i + 1][..i] == events[..i];
    AbsorbKeys(seen, run, events[..i]);
  }

  ghost predicate Names(events: seq<ShadowEvent>, c: CandidateId) {
    exists i :: 0 <= i < |events| && events[i].candidate == c
  }

  lemma NamesInit(events: seq<ShadowEvent>, c: CandidateId)
    requires events != []
    ensures Names(events, c) <==> Names(events[..|events| - 1], c) || events[|events| - 1].candidate == c
  {
    var init := events[..|events| - 1];
    if i :| 0 <= i < |init| && init[i].candidate == c { assert events[i].candidate == c; }
    if i :| 0 <= i < |events| && events[i].candidate == c {
      if i < |init| { assert init[i].candidate == c; }
    }
  }

  lemma {:induction false} AbsorbKeys(seen: map<CandidateId, SeenRow>, run: RunId, events: seq<ShadowEvent>)
    ensures forall c :: c in Absorb(seen, run, events) <==> c in seen || Names(events, c)
    ensures forall c :: c in seen ==> Absorb(seen, run, events)[c] == seen[c]
  {
    if events != [] {
      AbsorbKeys(seen, run, events[..|events| - 1]);
      forall c ensures c in Absorb(seen, run, events) <==> c in seen || Names(events, c) {
        NamesInit(events, c);
      }
    }
  }

  lemma MarkedAppend(rows: seq<EventRow>, row: EventRow)
    ensures Marked(rows + [row], Recorded) == Marked(rows, Recorded) + (if row.mark == Recorded then [row.candidate] else [])
    ensures Marked(rows + [row], AlreadySeen) == Marked(rows, AlreadySeen) + (if row.mark == AlreadySeen then [row.candidate] else [])
  {
    assert (rows + [row])[..|rows|] == rows;
  }

  method CheckDistinct(batch: seq<ShadowEvent>) returns (ok: bool)
    ensures ok <==> DistinctCandidates(batch)
  {
    var ids: set<CandidateId> := {};
    for i := 0 to |batch|
      invariant forall c :: c in ids <==> exists k :: 0 <= k < i && batch[k].candidate == c
      invariant forall a, b :: 0 <= a < b < i ==> batch[a].candidate != batch[b].candidate
    {
      if batch[i].candidate in ids { return false; }
      ids := ids + {batch[i].candidate};
    }
    return true;
  }

  class LedgerDb {
    var runs: map<RunId, RunRow>
    var seen: map<CandidateId, SeenRow>
    var events: map<RunId, seq<EventRow>>

    function Model(): Ledger
      reads this
    {
      Ledger(runs, seen, events)
    }

    constructor ()
      ensures Model() == EMPTY
    {
      runs, seen, events := map[], map[], map[];
    }

    method BeginRun(run: RunId, lower: Time, upper: Time, started: Time) returns (r: Reply)
      modifies this`runs, this`events
      ensures (Model(), r) == Step(old(Model()), Op.BeginRun(run, lower, upper, started))
    {
      if lower >= upper { return ContractError; }
      var requested := RunRow(lower, upper, started, started, Running, None);
      if run in runs {
        return if runs[run] != requested then RunConflict else Begun;
      }
      runs := runs[run := requested];
      events := events[run := []];
      return Begun;
    }

    method SeenCandidateIds(ids: seq<CandidateId>) returns (found: Option<seq<CandidateId>>)
      ensures found == if forall i, j :: 0 <= i < j < |ids| ==> ids[i] != ids[j] then Some(SeenIds(Model(), ids)) else None
    {
      var local: set<CandidateId> := {};
      for i := 0 to |ids|
        invariant forall c :: c in local <==> c in ids[..i]
        invariant forall a, b :: 0 <= a < b < i ==> ids[a] != ids[b]
      {
        if ids[i] in local {
          var k :| 0 <= k < i && ids[k] == ids[i];
          return None;
        }
        assert ids[..i + 1] == ids[..i] + [ids[i]];
        assert forall a :: 0 <= a < i ==> ids[a] in ids[..i];
        local := local + {ids[i]};
      }
      var kept: seq<CandidateId> := [];
      ghost var m := Model();
      for i := 0 to |ids|
        invariant kept == Filter(ids[..i], c => c in m.seen)
      {
        assert ids[..i + 1][..i] == ids[..i];
        if ids[i] in seen { kept := kept + [ids[i]]; }
      }
      assert ids[..|ids|] == ids;
      return Some(kept);
    }

    /** Insert-or-ignore each event into `seen`, log it for this run, then flip the status. */
    method CompleteRun(run: RunId, updated: Time, batch: seq<ShadowEvent>) returns (r: Reply)
      modifies this
      ensures (Model(), r) == Step(old(Model()), Op.CompleteRun(run, updated, batch))
    {
      var distinct := CheckDistinct(batch);
      if !distinct { return ContractError; }
      if run !in runs { return RunConflict; }
      if runs[run].status == Completed {
        r := Replay(run, batch);
        return;
      }
      if runs[run].status != Running { return RunState; }
      var rows, newIds, already := Record(run, batch);
      events := events[run := rows];
      runs := runs[run := runs[run].(status := Completed, updated := updated, error := None)];
      return Partition(newIds, already);
    }

    /** The event loop of the normal path. */
    method Record(run: RunId, batch: seq<ShadowEvent>)
      returns (rows: seq<EventRow>, newIds: seq<CandidateId>, already: seq<CandidateId>)
      requires DistinctCandidates(batch)
      modifies this`seen
      ensures seen == Absorb(old(seen), run, batch)
      ensures rows == Rows(old(seen), batch)
      ensures newIds == Marked(rows, Recorded) && already == Marked(rows, AlreadySeen)
    {
      rows, newIds, already := [], [], [];
      ghost var was := seen;
      for i := 0 to |batch|
        invariant seen == Absorb(was, run, batch[..i])
        invariant rows == Rows(was, batch)[..i]
        invariant newIds == Marked(rows, Recorded) && already == Marked(rows, AlreadySeen)
      {
        var e := batch[i];
        AbsorbOne(was, run, batch, i);
        var mark := AlreadySeen;
        if e.candidate !in seen {
          seen := seen[e.candidate := SeenRow(run, e.recordedAt, e.category, e.decision, e.payload)];
          mark := Recorded;
          newIds := newIds + [e.candidate];
        } else {
          already := already + [e.candidate];
        }
        MarkedAppend(rows, EventRow(e.candidate, mark, e.payload));
        rows := rows + [EventRow(e.candidate, mark, e.payload)];
      }
      assert batch[..|batch|] == batch;
    }

    /** The completed branch: compare with the persisted rows ordinal by ordinal. */
    method Replay(run: RunId, batch: seq<ShadowEvent>) returns (r: Reply)
      requires run in runs && runs[run].status == Completed && DistinctCandidates(batch)
      ensures (Model(), r) == CompleteStep(Model(), run, 0, batch)
    {
      var rows := if run in events then events[run] else [];
      if |rows| != |batch| { return RunConflict; }
      for i := 0 to |rows|
        invariant forall k :: 0 <= k < i ==> rows[k].candidate == batch[k].candidate && rows[k].payload == batch[k].payload
      {
        if rows[i].candidate != batch[i].candidate || rows[i].payload != batch[i].payload {
          return RunConflict;
        }
      }
      return Partition(Marked(rows, Recorded), Marked(rows, AlreadySeen));
    }

    method FailRun(run: RunId, updated: Time, code: string) returns (r: Reply)
      modifies this`runs
      ensures (Model(), r) == Step(old(Model()), Op.FailRun(run, updated, code))
    {
      if run !in runs { return RunConflict; }
      if runs[run].status != Running { return RunState; }
      runs := runs[run := runs[run].(status := Failed, error := Some(code), updated := updated)];
      return FailedNow;
    }

    method RecoverStaleRuns(cutoff: Time, updated: Time) returns (r: Reply)
      modifies this`runs
      ensures (Model(), r) == Step(old(Model()), Op.RecoverStale(cutoff, updated))
    {
      RunIdOrderIsStrictTotal();
      var m := Model();
      runs := map k | k in m.runs :: if IsStale(m, k, cutoff) then m.runs[k].(status := Stale, updated := updated) else m.runs[k];
      return Recovered(InOrder(StaleIds(m, cutoff), RunIdOrder()));
    }

    method LastCompletedUpper() returns (last: Option<Time>)
      ensures IsLastUpper(Model(), last)
    {
      var left := CompletedUppers(Model());
      ghost var all := left;
      last := None;
      while left != {}
        invariant left <= all
        invariant last.None? ==> left == all
        invariant last.Some? ==> last.value in all && forall u :: u in all ==> u in left || u <= last.value
        decreases |left|
      {
        var u :| u in left;
        if last.None? || last.value < u { last := Some(u); }
        left := left - {u};
      }
    }
  }
}
