/** What every run of the briefing ledger keeps: one recorded event per seen candidate,
    write-once rows, terminal states, and exact replay of a completed run. */
module LedgerRuns {
  import opened Ordering
  import opened UtcText
  import opened BriefingLedger

  function At(l: Ledger, trace: seq<Op>, i: nat): Ledger
    requires i <= |trace|
  {
    if i == 0 then l else Step(At(l, trace, i - 1), trace[i - 1]).0
  }

  // ------------------------------------------------------------ the invariant

  ghost predicate DistinctRows(rows: seq<EventRow>) {
    forall i, j :: 0 <= i < j < |rows| ==> rows[i].candidate != rows[j].candidate
  }

  ghost predicate HasRow(rows: seq<EventRow>, row: EventRow) {
    exists k :: 0 <= k < |rows| && rows[k] == row
  }

  /** The event rows of one run: only completed runs own any; each names a seen candidate,
      RECORDED exactly when this run saw it first. */
  ghost predicate RunInv(l: Ledger, run: RunId)
    requires run in l.runs && run in l.events
  {
    && (l.runs[run].status != Completed ==> l.events[run] == [])
    && DistinctRows(l.events[run])
    && forall k :: 0 <= k < |l.events[run]| ==> RowInv(l, run, l.events[run][k])
  }

  ghost predicate RowInv(l: Ledger, run: RunId, row: EventRow) {
    && row.candidate in l.seen
    && (row.mark == Recorded <==> l.seen[row.candidate].firstRun == run)
    && (row.mark == Recorded ==> l.seen[row.candidate].payload == row.payload)
  }

  /** A seen row points at a completed run that recorded it with the first-seen payload. */
  ghost predicate SeenInv(l: Ledger, c: CandidateId)
    requires c in l.seen
  {
    var row := l.seen[c];
    && row.firstRun in l.runs && l.runs[row.firstRun].status == Completed && row.firstRun in l.events
    && HasRow(l.events[row.firstRun], EventRow(c, Recorded, row.payload))
  }

  ghost predicate Inv(l: Ledger) {
    && l.events.Keys == l.runs.Keys
    && (forall r :: r in l.runs ==> RunInv(l, r))
    && (forall c :: c in l.seen ==> SeenInv(l, c))
  }

  /** Where a completion puts each event. */
  lemma {:induction false} AbsorbRows(seen: map<CandidateId, SeenRow>, run: RunId, events: seq<ShadowEvent>)
    requires DistinctCandidates(events)
    ensures forall k :: 0 <= k < |events| && events[k].candidate !in seen ==>
      var e := events[k]; var after := Absorb(seen, run, events);
      e.candidate in after && after[e.candidate] == SeenRow(run, e.recordedAt, e.category, e.decision, e.payload)
  {
    if events != [] {
      var init := events[..|events| - 1];
      AbsorbRows(seen, run, init);
      AbsorbKeys(seen, run, init);
      forall k | 0 <= k < |events| && events[k].candidate !in seen
        ensures var e := events[k]; var after := Absorb(seen, run, events);
          e.candidate in after && after[e.candidate] == SeenRow(run, e.recordedAt, e.category, e.decision, e.payload)
      {
        if k < |init| {
          assert init[k] == events[k];
        } else {
          assert forall i :: 0 <= i < |init| ==> init[i] == events[i];
          assert !Names(init, events[k].candidate);
        }
      }
    }
  }

  lemma CompletedRunInv(l: Ledger, run: RunId, updated: Time, events: seq<ShadowEvent>)
    requires Inv(l) && DistinctCandidates(events) && run in l.runs && l.runs[run].status == Running
    ensures var l' := CompleteStep(l, run, updated, events).0; RunInv(l', run)
    ensures var l' := CompleteStep(l, run, updated, events).0;
      forall c :: c in l'.seen && c !in l.seen ==> SeenInv(l', c)
  {
    var l' := CompleteStep(l, run, updated, events).0;
    var rows := Rows(l.seen, events);
    AbsorbRows(l.seen, run, events);
    AbsorbKeys(l.seen, run, events);
    forall k | 0 <= k < |rows| ensures RowInv(l', run, rows[k]) {
      var c := events[k].candidate;
      assert Names(events, c);
      if c in l.seen { assert SeenInv(l, c); }
    }
    forall c | c in l'.seen && c !in l.seen ensures SeenInv(l', c) {
      var k :| 0 <= k < |events| && events[k].candidate == c;
      assert rows[k] == EventRow(c, Recorded, events[k].payload);
    }
  }

  lemma CompleteKeepsInv(l: Ledger, run: RunId, updated: Time, events: seq<ShadowEvent>)
    requires Inv(l)
    ensures Inv(CompleteStep(l, run, updated, events).0)
  {
    var l' := CompleteStep(l, run, updated, events).0;
    if DistinctCandidates(events) && run in l.runs && l.runs[run].status == Running {
      CompletedRunInv(l, run, updated, events);
      AbsorbKeys(l.seen, run, events);
      forall r | r in l'.runs ensures RunInv(l', r) {
        if r != run {
          assert RunInv(l, r);
          forall k | 0 <= k < |l.events[r]| ensures RowInv(l', r, l'.events[r][k]) {
            assert RowInv(l, r, l.events[r][k]);
          }
        }
      }
      forall c | c in l'.seen ensures SeenInv(l', c) {
        if c in l.seen { assert SeenInv(l, c); }
      }
    }
  }

  lemma StatusChangeKeepsInv(l: Ledger, l': Ledger)
    requires Inv(l) && l'.seen == l.seen && l.runs.Keys <= l'.runs.Keys && l'.events.Keys == l'.runs.Keys
    requires forall r :: r in l.runs ==> l'.events[r] == l.events[r]
    requires forall r :: r in l.runs ==> (l.runs[r].status == Completed <==> l'.runs[r].status == Completed)
    requires forall r :: r in l'.runs && r !in l.runs ==> l'.events[r] == []
    ensures Inv(l')
  {
    forall r | r in l'.runs ensures RunInv(l', r) {
      if r in l.runs {
        assert RunInv(l, r);
        forall k | 0 <= k < |l.events[r]| ensures RowInv(l', r, l'.events[r][k]) {
          assert RowInv(l, r, l.events[r][k]);
        }
      }
    }
    forall c | c in l'.seen ensures SeenInv(l', c) { assert SeenInv(l, c); }
  }

  lemma StepKeepsInv(l: Ledger, op: Op)
    requires Inv(l)
    ensures Inv(Step(l, op).0)
  {
    match op
    case CompleteRun(run, updated, events) => CompleteKeepsInv(l, run, updated, events);
    case BeginRun(run, lower, upper, started) => StatusChangeKeepsInv(l, Step(l, op).0);
    case FailRun(run, updated, code) => StatusChangeKeepsInv(l, Step(l, op).0);
    case RecoverStale(cutoff, updated) => StatusChangeKeepsInv(l, Step(l, op).0);
  }

  /** In every reachable ledger a seen candidate has its one RECORDED event in its first run,
      with its first payload; other events of it are ALREADY_SEEN in other completed runs. */
  lemma {:induction false} ReachableLedgersAreSound(trace: seq<Op>, i: nat)
    requires i <= |trace|
    ensures Inv(At(EMPTY, trace, i))
  {
    if i > 0 {
      ReachableLedgersAreSound(trace, i - 1);
      StepKeepsInv(At(EMPTY, trace, i - 1), trace[i - 1]);
    }
  }

  /** The same read off for one candidate: exactly one RECORDED event over all runs. */
  lemma OneRecordedEvent(l: Ledger, c: CandidateId)
    requires Inv(l) && c in l.seen
    ensures exists r, k :: r in l.events && 0 <= k < |l.events[r]| && l.events[r][k] == EventRow(c, Recorded, l.seen[c].payload)
    ensures forall r, k :: r in l.events && 0 <= k < |l.events[r]| && l.events[r][k].candidate == c ==>
      l.runs[r].status == Completed
    ensures forall r, k :: r in l.events && 0 <= k < |l.events[r]| && l.events[r][k].candidate == c ==>
      (if r == l.seen[c].firstRun then l.events[r][k] == EventRow(c, Recorded, l.seen[c].payload) else l.events[r][k].mark == AlreadySeen)
    ensures forall r, j, k :: r in l.events && 0 <= j < |l.events[r]| && 0 <= k < |l.events[r]| ==>
      l.events[r][j].candidate == l.events[r][k].candidate == c ==> j == k
  {
    assert SeenInv(l, c);
    var f := l.seen[c].firstRun;
    var k :| 0 <= k < |l.events[f]| && l.events[f][k] == EventRow(c, Recorded, l.seen[c].payload);
    forall r, k | r in l.events && 0 <= k < |l.events[r]| && l.events[r][k].candidate == c
      ensures l.runs[r].status == Completed
      ensures if r == f then l.events[r][k] == EventRow(c, Recorded, l.seen[c].payload) else l.events[r][k].mark == AlreadySeen
    {
      assert RunInv(l, r);
      assert RowInv(l, r, l.events[r][k]);
    }
    forall r, j, k | r in l.events && 0 <= j < |l.events[r]| && 0 <= k < |l.events[r]|
      && l.events[r][j].candidate == c && l.events[r][k].candidate == c ensures j == k
    {
      assert RunInv(l, r);
    }
  }

  // ------------------------------------------------------------ nothing is taken back

  /** l' may only extend l: seen rows stay, a finished run's row stays, and so do its events. */
  ghost predicate Extends(l: Ledger, l': Ledger) {
    && (forall c :: c in l.seen ==> c in l'.seen && l'.seen[c] == l.seen[c])
    && (forall r :: r in l.runs ==> r in l'.runs)
    && (forall r :: r in l.runs && l.runs[r].status != Running ==> l'.runs[r] == l.runs[r])
    && (forall r :: r in l.runs && l.runs[r].status == Completed && r in l.events ==> r in l'.events && l'.events[r] == l.events[r])
  }

  lemma StepExtends(l: Ledger, op: Op)
    ensures Extends(l, Step(l, op).0)
  {
    if op.CompleteRun? { AbsorbKeys(l.seen, op.run, op.events); }
  }

  /** Seen rows are write-once and terminal run states are terminal, over any later steps. */
  lemma {:induction false} NothingIsTakenBack(l: Ledger, trace: seq<Op>, i: nat, j: nat)
    requires i <= j <= |trace|
    ensures Extends(At(l, trace, i), At(l, trace, j))
    decreases j - i
  {
    if i < j {
      NothingIsTakenBack(l, trace, i, j - 1);
      StepExtends(At(l, trace, j - 1), trace[j - 1]);
    }
  }

  // ------------------------------------------------------------ replay

  /** Same candidates, same order, same count, same canonical payloads. */
  ghost predicate SameBatch(a: seq<ShadowEvent>, b: seq<ShadowEvent>) {
    |a| == |b| && forall i :: 0 <= i < |a| ==> a[i].candidate == b[i].candidate && a[i].payload == b[i].payload
  }

  lemma CompletionLeavesItsRows(l: Ledger, run: RunId, updated: Time, events: seq<ShadowEvent>)
    requires Inv(l) && CompleteStep(l, run, updated, events).1.Partition?
    ensures var (l', r) := CompleteStep(l, run, updated, events);
      && run in l'.runs && l'.runs[run].status == Completed && run in l'.events
      && SameEvents(l'.events[run], events)
      && r == Partition(Marked(l'.events[run], Recorded), Marked(l'.events[run], AlreadySeen))
  {
  }

  /** Replay is exact.  After a completion, and after any later ledger operations, completing
      the same run again with the same ordered ids and payloads returns the original partition
      and changes nothing; any difference is refused and changes nothing. */
  lemma ReplayIsExact(trace: seq<Op>, i: nat, j: nat)
    requires i < j < |trace| && trace[i].CompleteRun? && trace[j].CompleteRun? && trace[j].run == trace[i].run
    requires Step(At(EMPTY, trace, i), trace[i]).1.Partition?
    ensures var (l', r) := Step(At(EMPTY, trace, j), trace[j]);
      && l' == At(EMPTY, trace, j)
      && r == if !DistinctCandidates(trace[j].events) then ContractError
              else if SameBatch(trace[i].events, trace[j].events) then Step(At(EMPTY, trace, i), trace[i]).1
              else RunConflict
  {
    var run := trace[i].run;
    ReachableLedgersAreSound(trace, i);
    CompletionLeavesItsRows(At(EMPTY, trace, i), run, trace[i].updated, trace[i].events);
    NothingIsTakenBack(EMPTY, trace, i + 1, j);
    var rows := At(EMPTY, trace, i + 1).events[run];
    var late := At(EMPTY, trace, j);
    assert late.runs[run] == At(EMPTY, trace, i + 1).runs[run] && late.events[run] == rows;
    SameBatchIffSameRows(rows, trace[i].events, trace[j].events);
  }

  lemma SameBatchIffSameRows(rows: seq<EventRow>, a: seq<ShadowEvent>, b: seq<ShadowEvent>)
    requires SameEvents(rows, a)
    ensures SameBatch(a, b) <==> SameEvents(rows, b)
  {
  }

  /** Candidate x stands before candidate y. */
  ghost predicate StandsBefore(rows: seq<EventRow>, x: CandidateId, y: CandidateId) {
    exists i, j :: 0 <= i < j < |rows| && rows[i].candidate == x && rows[j].candidate == y
  }

  ghost predicate InRowOrder(rows: seq<EventRow>, ids: seq<CandidateId>) {
    forall a, b :: 0 <= a < b < |ids| ==> StandsBefore(rows, ids[a], ids[b])
  }

  lemma {:induction false} MarkedComeFromRows(rows: seq<EventRow>, mark: Mark, a: nat)
    requires a < |Marked(rows, mark)|
    ensures exists i :: 0 <= i < |rows| && rows[i].candidate == Marked(rows, mark)[a]
  {
    var init, last := rows[..|rows| - 1], rows[|rows| - 1];
    if a < |Marked(init, mark)| {
      MarkedComeFromRows(init, mark, a);
      var i :| 0 <= i < |init| && init[i].candidate == Marked(init, mark)[a];
      assert rows[i] == init[i];
    } else {
      assert rows[|rows| - 1] == last;
    }
  }

  lemma {:induction false} MarkedKeepsOrder(rows: seq<EventRow>, mark: Mark)
    ensures InRowOrder(rows, Marked(rows, mark))
  {
    if rows != [] {
      var init, last := rows[..|rows| - 1], rows[|rows| - 1];
      MarkedKeepsOrder(init, mark);
      var before, ids := Marked(init, mark), Marked(rows, mark);
      forall a, b | 0 <= a < b < |ids| ensures StandsBefore(rows, ids[a], ids[b]) {
        if b < |before| {
          assert StandsBefore(init, before[a], before[b]);
          var i, j :| 0 <= i < j < |init| && init[i].candidate == before[a] && init[j].candidate == before[b];
          assert rows[i] == init[i] && rows[j] == init[j];
        } else {
          MarkedComeFromRows(init, mark, a);
          var i :| 0 <= i < |init| && init[i].candidate == before[a];
          assert rows[i] == init[i] && rows[|rows| - 1] == last;
        }
      }
    }
  }

  /** A partition splits the batch: nothing lost, nothing in both halves, input order kept. */
  lemma {:induction false} PartitionSplitsTheBatch(rows: seq<EventRow>)
    requires DistinctRows(rows)
    ensures forall k :: 0 <= k < |rows| ==>
      (rows[k].candidate in Marked(rows, Recorded) <==> rows[k].mark == Recorded)
      && (rows[k].candidate in Marked(rows, AlreadySeen) <==> rows[k].mark == AlreadySeen)
    ensures InRowOrder(rows, Marked(rows, Recorded)) && InRowOrder(rows, Marked(rows, AlreadySeen))
    ensures |Marked(rows, Recorded)| + |Marked(rows, AlreadySeen)| == |rows|
    ensures forall c :: c in Marked(rows, Recorded) || c in Marked(rows, AlreadySeen) ==> exists k :: 0 <= k < |rows| && rows[k].candidate == c
  {
    MarkedKeepsOrder(rows, Recorded);
    MarkedKeepsOrder(rows, AlreadySeen);
    if rows != [] {
      var init, last := rows[..|rows| - 1], rows[|rows| - 1];
      PartitionSplitsTheBatch(init);
      forall c | c in Marked(init, Recorded) || c in Marked(init, AlreadySeen)
        ensures c != last.candidate && exists k :: 0 <= k < |rows| && rows[k].candidate == c
      {
        var k :| 0 <= k < |init| && init[k].candidate == c;
        assert rows[k].candidate == c;
      }
      forall k | 0 <= k < |rows|
        ensures (rows[k].candidate in Marked(rows, Recorded) <==> rows[k].mark == Recorded)
          && (rows[k].candidate in Marked(rows, AlreadySeen) <==> rows[k].mark == AlreadySeen)
      {
        if k < |init| { assert init[k] == rows[k]; }
      }
    }
  }

  // ------------------------------------------------------------ what each step leaves

  /** A recovery makes stale exactly the running runs last updated before the cutoff, and stamps
      them; it lists them once each in text order, and nothing else changes. */
  lemma RecoveryChangesIff(trace: seq<Op>, i: nat)
    requires i < |trace| && trace[i].RecoverStale?
    ensures var before, after, op := At(EMPTY, trace, i), At(EMPTY, trace, i + 1), trace[i];
      var reply := Step(before, op).1;
      && after.runs.Keys == before.runs.Keys && after.seen == before.seen && after.events == before.events
      && (forall r :: r in before.runs ==>
            after.runs[r] == if before.runs[r].status == Running && before.runs[r].updated < op.cutoff
                             then before.runs[r].(status := Stale, updated := op.updated) else before.runs[r])
      && reply.Recovered?
      && (forall r :: r in reply.runs <==> r in before.runs && before.runs[r].status == Running && before.runs[r].updated < op.cutoff)
      && (forall j, k :: 0 <= j < k < |reply.runs| ==> TextLess(reply.runs[j], reply.runs[k]))
  {
    RunIdOrderIsStrictTotal();
    var before, op := At(EMPTY, trace, i), trace[i];
    var ids := InOrder(StaleIds(before, op.cutoff), RunIdOrder());
    assert Step(before, op).1 == Recovered(ids);
    forall j, k | 0 <= j < k < |ids| ensures TextLess(ids[j], ids[k]) { assert RunIdOrder()(ids[j], ids[k]); }
  }

  /** A begin is refused for an empty window, repeated for an identical row, and refused for any
      other row of that run; otherwise the run is running, with no events yet. */
  lemma BeginAnswers(trace: seq<Op>, i: nat)
    requires i < |trace| && trace[i].BeginRun?
    ensures var before, after, op := At(EMPTY, trace, i), At(EMPTY, trace, i + 1), trace[i];
      var reply, row := Step(before, op).1, RunRow(op.lower, op.upper, op.started, op.started, Running, None);
      if op.upper <= op.lower then reply == ContractError && after == before
      else if op.run in before.runs then after == before && reply == (if before.runs[op.run] == row then Begun else RunConflict)
      else reply == Begun && after == Ledger(before.runs[op.run := row], before.seen, before.events[op.run := []])
  {
  }

  /** Only a running run fails, and keeps everything but status, code and time. */
  lemma FailAnswers(trace: seq<Op>, i: nat)
    requires i < |trace| && trace[i].FailRun?
    ensures var before, after, op := At(EMPTY, trace, i), At(EMPTY, trace, i + 1), trace[i];
      var reply := Step(before, op).1;
      if op.run !in before.runs then reply == RunConflict && after == before
      else if before.runs[op.run].status != Running then reply == RunState && after == before
      else
        var row := before.runs[op.run];
        reply == FailedNow && after.seen == before.seen && after.events == before.events
        && after.runs == before.runs[op.run := RunRow(row.lower, row.upper, row.started, op.updated, Failed, Some(op.code))]
  {
  }

  /** A running run's completion: every event is logged in order under its mark, the unseen
      ones become seen with this run and their own payload, and the row is completed. */
  lemma CompletionRecords(trace: seq<Op>, i: nat)
    requires i < |trace| && trace[i].CompleteRun? && trace[i].run in At(EMPTY, trace, i).runs
    requires At(EMPTY, trace, i).runs[trace[i].run].status == Running && DistinctCandidates(trace[i].events)
    ensures var before, after, op := At(EMPTY, trace, i), At(EMPTY, trace, i + 1), trace[i];
      var row := before.runs[op.run];
      && after.runs == before.runs[op.run := RunRow(row.lower, row.upper, row.started, op.updated, Completed, None)]
      && op.run in after.events && |after.events[op.run]| == |op.events|
      && (forall k :: 0 <= k < |op.events| ==>
            after.events[op.run][k] ==
              EventRow(op.events[k].candidate, if op.events[k].candidate in before.seen then AlreadySeen else Recorded, op.events[k].payload))
      && (forall r :: r in before.events && r != op.run ==> r in after.events && after.events[r] == before.events[r])
      && (forall c :: c in after.seen <==> c in before.seen || Names(op.events, c))
      && (forall c :: c in before.seen ==> after.seen[c] == before.seen[c])
      && (forall k :: 0 <= k < |op.events| && op.events[k].candidate !in before.seen ==>
            after.seen[op.events[k].candidate] ==
              SeenRow(op.run, op.events[k].recordedAt, op.events[k].category, op.events[k].decision, op.events[k].payload))
  {
    var before, op := At(EMPTY, trace, i), trace[i];
    AbsorbKeys(before.seen, op.run, op.events);
    forall k | 0 <= k < |op.events| && op.events[k].candidate !in before.seen
      ensures op.events[k].candidate in Absorb(before.seen, op.run, op.events)
      ensures Absorb(before.seen, op.run, op.events)[op.events[k].candidate] ==
        SeenRow(op.run, op.events[k].recordedAt, op.events[k].category, op.events[k].decision, op.events[k].payload)
    {
      NewRowIsOwn(before.seen, op.run, op.events, k);
    }
  }

  lemma {:induction false} NewRowIsOwn(seen: map<CandidateId, SeenRow>, run: RunId, events: seq<ShadowEvent>, k: nat)
    requires k < |events| && DistinctCandidates(events) && events[k].candidate !in seen
    ensures events[k].candidate in Absorb(seen, run, events)
    ensures Absorb(seen, run, events)[events[k].candidate] ==
      SeenRow(run, events[k].recordedAt, events[k].category, events[k].decision, events[k].payload)
  {
    var init := events[..|events| - 1];
    if k < |init| {
      NewRowIsOwn(seen, run, init, k);
    } else {
      AbsorbKeys(seen, run, init);
    }
  }
}
