/** Many ingest runs sharing one registry: the lease timestamp never suffers ABA. */
module IngestProtocol {
  import opened Ordering
  import opened UtcText
  import opened IngestLease

  type RunId = nat

  /** A run claims its sources once, then persists and finalises each; `open` are the
      claimed sources it has not finalised yet.  A crashed run simply takes no more steps. */
  datatype RunInfo = RunInfo(start: int, open: set<SourceId>)

  /** `holder` is history: the run that claimed a source last. */
  datatype Sys = Sys(rows: Registry, runs: map<RunId, RunInfo>, holder: map<SourceId, RunId>)

  datatype Action =
    | Sync(rows: Registry)
    | Claim(run: RunId, start: int, ids: set<SourceId>)
    | Persist(run: RunId, source: SourceId)
    | Finalize(run: RunId, source: SourceId, finish: int, due: int)

  function LeaseOf(run: RunInfo): int { run.start + LEASE_SECONDS }

  /** The compare both `_persist_outcome` and `_finalize_sources` make. */
  predicate CarriesLease(rows: Registry, source: SourceId, lease: int) {
    source in rows && rows[source].nextDue == Some(lease)
  }

  /** What the code's own callers guarantee: a fresh run, due sources, a finish time no
      earlier than the claim, and a next due time as `NextDue` computes it. */
  ghost predicate Enabled(s: Sys, a: Action) {
    match a
    case Sync(rows) => forall id :: id in s.rows ==> id in rows && rows[id].nextDue == s.rows[id].nextDue
    case Claim(run, start, ids) => run !in s.runs && forall id :: id in ids ==> Due(s.rows, id, start)
    case Persist(run, source) => run in s.runs && source in s.runs[run].open
    case Finalize(run, source, finish, due) =>
      run in s.runs && source in s.runs[run].open && finish >= s.runs[run].start && due >= finish + 60
  }

  /** Whether a persist writes items, or a finalise moves `next_due_at`. */
  predicate Accepted(s: Sys, a: Action) {
    (a.Persist? || a.Finalize?) && a.run in s.runs && CarriesLease(s.rows, a.source, LeaseOf(s.runs[a.run]))
  }

  function Apply(s: Sys, a: Action): Sys {
    match a
    case Sync(rows) => s.(rows := rows)
    case Claim(run, start, ids) =>
      Sys(map id | id in s.rows :: if id in ids then s.rows[id].(nextDue := Some(start + LEASE_SECONDS)) else s.rows[id],
          s.runs[run := RunInfo(start, ids)],
          map id | id in s.holder.Keys + ids :: if id in ids then run else s.holder[id])
    case Persist(run, source) => s
    case Finalize(run, source, finish, due) =>
      if run !in s.runs then s else
        s.(rows := if Accepted(s, a) then s.rows[source := s.rows[source].(nextDue := Some(due))] else s.rows,
           runs := s.runs[run := s.runs[run].(open := s.runs[run].open - {source})])
  }

  function At(s: Sys, trace: seq<Action>, i: nat): Sys
    requires i <= |trace|
  {
    if i == 0 then s else Apply(At(s, trace, i - 1), trace[i - 1])
  }

  ghost predicate LegalAt(s: Sys, trace: seq<Action>, i: nat)
    requires i < |trace|
  {
    Enabled(At(s, trace, i), trace[i])
  }

  ghost predicate Legal(s: Sys, trace: seq<Action>) {
    forall i :: 0 <= i < |trace| ==> LegalAt(s, trace, i)
  }

  // ------------------------------------------------------------ the store's methods are steps

  function SourcesOf(claims: seq<SourceClaim>): set<SourceId> { set k | 0 <= k < |claims| :: claims[k].source }

  lemma GreedyClaimsFrom(claims: seq<SourceClaim>, order: seq<SourceId>, ask: Asked)
    requires Greedy(claims, Wanted(order, ask), ask)
    ensures forall k :: 0 <= k < |claims| ==> claims[k].source in order && claims[k].lease == ask.now + LEASE_SECONDS
  {
    var wanted := Wanted(order, ask);
    FilterMembers(order, Wants(ask));
    forall k | 0 <= k < |claims| ensures claims[k].source in order && claims[k].lease == ask.now + LEASE_SECONDS {
      assert GreedyClaim(claims[..k], claims[k], wanted[k], ask);
      assert wanted[k] in wanted;
    }
  }

  lemma LeasedIsApplied(s: Sys, run: RunId, now: int, claims: seq<SourceClaim>)
    ensures Apply(s, Claim(run, now, SourcesOf(claims))).rows == Leased(s.rows, claims, now + LEASE_SECONDS)
  {
    forall id ensures ClaimedIn(claims, id) <==> id in SourcesOf(claims) {
      if ClaimedIn(claims, id) {
        var k :| 0 <= k < |claims| && claims[k].source == id;
      }
    }
  }

  /** Everything a claiming call leases was due. */
  predicate AllDue(rows: Registry, claims: seq<SourceClaim>, now: int) {
    forall k :: 0 <= k < |claims| ==> Due(rows, claims[k].source, now) && claims[k].lease == now + LEASE_SECONDS
  }

  method ClaimDue(db: IngestDb, ask: Asked) returns (claims: seq<SourceClaim>)
    modifies db
    ensures AllDue(old(db.rows), claims, ask.now)
    ensures db.rows == Leased(old(db.rows), claims, ask.now + LEASE_SECONDS)
  {
    ghost var order := DueRows(db.rows, ask.now);
    claims := db.ClaimQueries(ask);
    GreedyClaimsFrom(claims, order, ask);
  }

  /** `_sync_sources` is a step. */
  method RunSync(db: IngestDb, ghost s: Sys, sources: seq<Source>) returns (retired: nat, ghost t: Sys)
    requires db.rows == s.rows && DistinctIds(sources)
    modifies db
    ensures Enabled(s, Sync(db.rows)) && t == Apply(s, Sync(db.rows)) && t.rows == db.rows
  {
    retired := db.SyncSources(sources);
    t := Apply(s, Sync(db.rows));
  }

  /** `_claim_queries` is a step: a fresh run claims due sources, with leases of its own start. */
  method RunClaim(db: IngestDb, ghost s: Sys, run: RunId, ask: Asked) returns (claims: seq<SourceClaim>, ghost t: Sys)
    requires db.rows == s.rows && run !in s.runs
    modifies db
    ensures var a := Claim(run, ask.now, SourcesOf(claims)); Enabled(s, a) && t == Apply(s, a)
    ensures t.rows == db.rows && run in t.runs && t.runs[run].open == SourcesOf(claims)
    ensures forall k :: 0 <= k < |claims| ==> claims[k].lease == LeaseOf(t.runs[run])
  {
    claims := ClaimDue(db, ask);
    LeasedIsApplied(s, run, ask.now, claims);
    t := Apply(s, Claim(run, ask.now, SourcesOf(claims)));
  }

  /** A claim the run was given and has not finalised yet. */
  ghost predicate Holds(s: Sys, run: RunId, claim: SourceClaim) {
    run in s.runs && claim.source in s.runs[run].open && claim.lease == LeaseOf(s.runs[run])
  }

  /** `_persist_outcome` is a step: it writes items exactly when the step is accepted. */
  method RunPersist(db: IngestDb, ghost s: Sys, run: RunId, claim: SourceClaim, ids: seq<ItemId>) returns (accepted: bool)
    requires db.rows == s.rows && Holds(s, run, claim)
    modifies db
    ensures Enabled(s, Persist(run, claim.source)) && (accepted <==> Accepted(s, Persist(run, claim.source)))
    ensures db.rows == Apply(s, Persist(run, claim.source)).rows
    ensures if accepted then forall id :: id in ids ==> id in db.items else db.items == old(db.items)
  {
    var inserted;
    accepted, inserted := db.Persist(claim.source, claim.lease, ids);
  }

  /** `_finalize_sources` is a step, one source at a time, with the due time `NextDue` computes;
      a run's network work finishes no earlier than its claim. */
  method RunFinalize(db: IngestDb, ghost s: Sys, run: RunId, claim: SourceClaim, finish: int, failures: seq<Failure>, streak: nat, cadence: nat)
    returns (due: int, changed: bool, ghost t: Sys)
    requires db.rows == s.rows && Holds(s, run, claim) && finish >= s.runs[run].start
    modifies db
    ensures var a := Finalize(run, claim.source, finish, due);
      Enabled(s, a) && t == Apply(s, a) && (changed <==> Accepted(s, a))
    ensures t.rows == db.rows && db.items == old(db.items)
  {
    due := NextDue(finish, failures, streak, cadence);
    changed := db.Finalize(claim.source, claim.lease, due);
    t := Apply(s, Finalize(run, claim.source, finish, due));
  }

  /** So whatever calls are made, by however many runs, their history is a legal one. */
  lemma LegalExtends(s: Sys, trace: seq<Action>, a: Action)
    requires Legal(s, trace) && Enabled(At(s, trace, |trace|), a)
    ensures Legal(s, trace + [a])
    ensures At(s, trace + [a], |trace| + 1) == Apply(At(s, trace, |trace|), a)
  {
    var longer := trace + [a];
    PrefixAt(s, trace, a, |trace|);
    forall i | 0 <= i < |longer| ensures LegalAt(s, longer, i) {
      PrefixAt(s, trace, a, i);
      assert i < |trace| ==> LegalAt(s, trace, i);
    }
  }

  lemma {:induction false} PrefixAt(s: Sys, trace: seq<Action>, a: Action, i: nat)
    requires i <= |trace|
    ensures At(s, trace + [a], i) == At(s, trace, i)
  {
    if i > 0 { PrefixAt(s, trace, a, i - 1); }
  }

  // ------------------------------------------------------------ the invariant

  /** The last claimant's source is due only after its claim. */
  ghost predicate HolderInv(s: Sys, id: SourceId)
    requires id in s.holder
  {
    && s.holder[id] in s.runs && id in s.rows && s.rows[id].nextDue.Some?
    && s.runs[s.holder[id]].start < s.rows[id].nextDue.value
  }

  /** A run with the source still open either is the last claimant and its lease is in the
      row, or was superseded by a claim made at or after its lease ran out. */
  ghost predicate OpenInv(s: Sys, r: RunId, id: SourceId)
    requires r in s.runs
  {
    && id in s.holder && id in s.rows && s.holder[id] in s.runs
    && (if s.holder[id] == r then s.rows[id].nextDue == Some(LeaseOf(s.runs[r]))
        else LeaseOf(s.runs[r]) <= s.runs[s.holder[id]].start)
  }

  ghost predicate Inv(s: Sys) {
    && (forall id :: id in s.holder ==> HolderInv(s, id))
    && (forall r, id :: r in s.runs && id in s.runs[r].open ==> OpenInv(s, r, id))
  }

  lemma ApplyKeepsInv(s: Sys, a: Action)
    requires Inv(s) && Enabled(s, a)
    ensures Inv(Apply(s, a))
  {
    var s' := Apply(s, a);
    forall id | id in s'.holder ensures HolderInv(s', id) {
      if id in s.holder { assert HolderInv(s, id); }
    }
    forall r, id | r in s'.runs && id in s'.runs[r].open ensures OpenInv(s', r, id) {
      if r in s.runs && id in s.runs[r].open { assert OpenInv(s, r, id) && HolderInv(s, id); }
    }
  }

  lemma {:induction false} LegalRunsKeepInv(s: Sys, trace: seq<Action>, i: nat)
    requires Inv(s) && Legal(s, trace) && i <= |trace|
    ensures Inv(At(s, trace, i))
  {
    if i > 0 {
      LegalRunsKeepInv(s, trace, i - 1);
      assert LegalAt(s, trace, i - 1);
      ApplyKeepsInv(At(s, trace, i - 1), trace[i - 1]);
    }
  }

  // ------------------------------------------------------------ the theorems

  /** The token is exact: a run that still has a source open passes the timestamp compare
      if and only if nobody has claimed the source since. */
  lemma TokenNamesTheHolder(s: Sys, r: RunId, id: SourceId)
    requires Inv(s) && r in s.runs && id in s.runs[r].open
    ensures CarriesLease(s.rows, id, LeaseOf(s.runs[r])) <==> s.holder[id] == r
  {
    assert OpenInv(s, r, id) && HolderInv(s, id);
  }

  /** Successive leases of one source strictly increase, whatever clock values the runs use. */
  lemma LeasesIncrease(s: Sys, a: Action, id: SourceId)
    requires Inv(s) && Enabled(s, a) && a.Claim? && id in a.ids && id in s.holder
    ensures s.runs[s.holder[id]].start < a.start
    ensures LeaseOf(s.runs[s.holder[id]]) < LeaseOf(Apply(s, a).runs[a.run])
  {
    assert HolderInv(s, id);
  }

  /** No finalisation writes back the lease of another run that could still use it. */
  lemma FinalizeRevivesNobody(s: Sys, a: Action, r: RunId)
    requires Inv(s) && Enabled(s, a) && a.Finalize? && Accepted(s, a)
    requires r in s.runs && r != a.run && a.source in s.runs[r].open
    ensures a.due != LeaseOf(s.runs[r]) && LeaseOf(s.runs[r]) < a.due
  {
    TokenNamesTheHolder(s, a.run, a.source);
    assert OpenInv(s, r, a.source) && OpenInv(s, a.run, a.source);
  }

  lemma HolderStartsGrow(s: Sys, a: Action, id: SourceId)
    requires Inv(s) && Enabled(s, a) && id in s.holder
    ensures var s' := Apply(s, a);
      && id in s'.holder && s'.holder[id] in s'.runs && s.holder[id] in s.runs
      && s.runs[s.holder[id]].start <= s'.runs[s'.holder[id]].start
  {
    assert HolderInv(s, id);
  }

  lemma HolderIsARun(s: Sys, id: SourceId)
    requires Inv(s) && id in s.holder
    ensures s.holder[id] in s.runs
  {
    assert HolderInv(s, id);
  }

  lemma {:induction false} HolderStartsGrowOverRuns(s: Sys, trace: seq<Action>, i: nat, j: nat, id: SourceId)
    requires Inv(s) && Legal(s, trace) && i <= j <= |trace| && id in At(s, trace, i).holder
    ensures var (a, b) := (At(s, trace, i), At(s, trace, j));
      && id in b.holder && b.holder[id] in b.runs && a.holder[id] in a.runs
      && a.runs[a.holder[id]].start <= b.runs[b.holder[id]].start
    decreases j - i
  {
    if i == j {
      LegalRunsKeepInv(s, trace, i);
      HolderIsARun(At(s, trace, i), id);
    } else {
      HolderStartsGrowOverRuns(s, trace, i, j - 1, id);
      LegalRunsKeepInv(s, trace, j - 1);
      assert LegalAt(s, trace, j - 1);
      HolderStartsGrow(At(s, trace, j - 1), trace[j - 1], id);
    }
  }

  lemma {:induction false} RunsKeepTheirStart(s: Sys, trace: seq<Action>, i: nat, j: nat, r: RunId)
    requires Legal(s, trace) && i <= j <= |trace| && r in At(s, trace, i).runs
    ensures r in At(s, trace, j).runs && At(s, trace, j).runs[r].start == At(s, trace, i).runs[r].start
    ensures At(s, trace, j).runs[r].open <= At(s, trace, i).runs[r].open
    decreases j - i
  {
    if i < j {
      RunsKeepTheirStart(s, trace, i, j - 1, r);
      assert LegalAt(s, trace, j - 1);
      RunKeepsStart(At(s, trace, j - 1), trace[j - 1], r);
    }
  }

  lemma RunKeepsStart(s: Sys, a: Action, r: RunId)
    requires Enabled(s, a) && r in s.runs
    ensures r in Apply(s, a).runs && Apply(s, a).runs[r].start == s.runs[r].start
    ensures Apply(s, a).runs[r].open <= s.runs[r].open
  {
  }

  lemma OpenStartsBounded(s: Sys, r: RunId, id: SourceId)
    requires Inv(s) && r in s.runs && id in s.runs[r].open
    ensures id in s.holder && s.holder[id] in s.runs && s.runs[r].start <= s.runs[s.holder[id]].start
  {
    assert OpenInv(s, r, id);
  }

  lemma ClaimTakes(s: Sys, a: Action, id: SourceId)
    requires a.Claim? && id in a.ids
    ensures var after := Apply(s, a);
      && id in after.holder && after.holder[id] == a.run && a.run in after.runs && after.runs[a.run].start == a.start
  {
  }

  /** After step i claimed `id`, its holder never again started before that claim. */
  lemma ClaimRaisesTheFloor(s: Sys, trace: seq<Action>, i: nat, j: nat, id: SourceId)
    requires Inv(s) && Legal(s, trace) && i < j <= |trace| && trace[i].Claim? && id in trace[i].ids
    ensures var b := At(s, trace, j); id in b.holder && b.holder[id] in b.runs && trace[i].start <= b.runs[b.holder[id]].start
  {
    ClaimTakes(At(s, trace, i), trace[i], id);
    HolderStartsGrowOverRuns(s, trace, i + 1, j, id);
  }

  /** Once run B claims a source, no later step of an older run persists items for it or
      moves its `next_due_at`, in any interleaving of any number of runs. */
  lemma OlderRunsAreLockedOut(s: Sys, trace: seq<Action>, i: nat, j: nat)
    requires Inv(s) && Legal(s, trace) && i < j < |trace|
    requires trace[i].Claim? && (trace[j].Persist? || trace[j].Finalize?)
    requires trace[j].source in trace[i].ids && trace[j].run in At(s, trace, i).runs
    ensures !Accepted(At(s, trace, j), trace[j])
    ensures At(s, trace, j + 1).rows == At(s, trace, j).rows
  {
    var id, r := trace[j].source, trace[j].run;
    assert LegalAt(s, trace, i) && LegalAt(s, trace, j);
    LegalRunsKeepInv(s, trace, i);
    LegalRunsKeepInv(s, trace, j);
    RunsKeepTheirStart(s, trace, i, j, r);
    OpenStartsBounded(At(s, trace, i), r, id);
    LeasesIncrease(At(s, trace, i), trace[i], id);
    ClaimRaisesTheFloor(s, trace, i, j, id);
    TokenNamesTheHolder(At(s, trace, j), r, id);
    assert At(s, trace, j + 1) == Apply(At(s, trace, j), trace[j]);
  }

  // ------------------------------------------------------------ when a lease value can recur

  /** Every finalisation puts its source at least `wait` seconds off. */
  ghost predicate WaitsAtLeast(trace: seq<Action>, wait: int) {
    forall k :: 0 <= k < |trace| && trace[k].Finalize? ==> trace[k].due >= trace[k].finish + wait
  }

  /** Step j writes the lease value that step i gave another run of the same source. */
  ghost predicate Recurs(s: Sys, trace: seq<Action>, i: nat, j: nat)
    requires i < j < |trace|
  {
    && trace[i].Claim? && trace[j].Finalize? && trace[j].source in trace[i].ids && trace[j].run != trace[i].run
    && Accepted(At(s, trace, j), trace[j]) && trace[j].due == trace[i].start + LEASE_SECONDS
  }

  function Sooner(wait: int): int { if wait < LEASE_SECONDS then wait else LEASE_SECONDS }

  /** Since `run` claimed `id` at `start`: either it still holds it and the row is not due
      before start + wait, or somebody claimed it no earlier than that. */
  ghost predicate HeldOff(s: Sys, id: SourceId, run: RunId, start: int, wait: int) {
    && id in s.holder && s.holder[id] in s.runs && id in s.rows && s.rows[id].nextDue.Some?
    && (if s.holder[id] == run then s.runs[run].start == start && s.rows[id].nextDue.value >= start + Sooner(wait)
        else s.runs[s.holder[id]].start >= start + Sooner(wait))
  }

  lemma StepHoldsOff(s: Sys, a: Action, id: SourceId, run: RunId, start: int, wait: int)
    requires Inv(s) && Enabled(s, a) && run in s.runs && wait >= 0
    requires a.Finalize? ==> a.due >= a.finish + wait
    requires HeldOff(s, id, run, start, wait)
    ensures HeldOff(Apply(s, a), id, run, start, wait)
  {
    if a.Finalize? && a.source == id { TokenNamesTheHolder(s, a.run, id); }
  }

  lemma {:induction false} StaysHeldOff(s: Sys, trace: seq<Action>, i: nat, j: nat, id: SourceId, wait: int)
    requires Inv(s) && Legal(s, trace) && i < j <= |trace| && trace[i].Claim? && id in trace[i].ids
    requires WaitsAtLeast(trace, wait) && wait >= 0
    ensures trace[i].run in At(s, trace, j).runs
    ensures HeldOff(At(s, trace, j), id, trace[i].run, trace[i].start, wait)
    decreases j
  {
    var before, last := At(s, trace, j - 1), trace[j - 1];
    assert LegalAt(s, trace, j - 1);
    assert At(s, trace, j) == Apply(before, last);
    if j == i + 1 {
      ClaimHoldsOff(before, last, id, wait);
    } else {
      StaysHeldOff(s, trace, i, j - 1, id, wait);
      LegalRunsKeepInv(s, trace, j - 1);
      OneMoreStep(before, last, id, trace[i].run, trace[i].start, wait);
    }
  }

  lemma OneMoreStep(s: Sys, a: Action, id: SourceId, run: RunId, start: int, wait: int)
    requires Inv(s) && Enabled(s, a) && run in s.runs && wait >= 0 && (a.Finalize? ==> a.due >= a.finish + wait)
    requires HeldOff(s, id, run, start, wait)
    ensures run in Apply(s, a).runs && HeldOff(Apply(s, a), id, run, start, wait)
  {
    StepHoldsOff(s, a, id, run, start, wait);
    RunKeepsStart(s, a, run);
  }

  lemma ClaimHoldsOff(s: Sys, a: Action, id: SourceId, wait: int)
    requires Enabled(s, a) && a.Claim? && id in a.ids && wait >= 0
    ensures a.run in Apply(s, a).runs && HeldOff(Apply(s, a), id, a.run, a.start, wait)
  {
  }

  /** Waits of more than half a lease never write an old lease value again. */
  lemma LongWaitsNeverRecur(s: Sys, trace: seq<Action>, i: nat, j: nat, wait: int)
    requires Inv(s) && Legal(s, trace) && i < j < |trace| && WaitsAtLeast(trace, wait)
    requires 2 * wait > LEASE_SECONDS
    ensures !Recurs(s, trace, i, j)
  {
    if trace[i].Claim? && trace[j].Finalize? && trace[j].source in trace[i].ids && trace[j].run != trace[i].run {
      var late, r := At(s, trace, j), trace[j].run;
      assert LegalAt(s, trace, j);
      LegalRunsKeepInv(s, trace, j);
      StaysHeldOff(s, trace, i, j, trace[j].source, wait);
      TokenNamesTheHolder(late, r, trace[j].source);
    }
  }

  const EMPTY_SYS := Sys(map["feed" := Row(true, None)], map[], map[])

  /** Two runs of one source: the second finishes just when its wait ends on the first lease. */
  function ShortWaits(wait: int): seq<Action> {
    [Claim(0, 0, {"feed"}), Finalize(0, "feed", 0, wait), Claim(1, wait, {"feed"}), Finalize(1, "feed", LEASE_SECONDS - wait, LEASE_SECONDS)]
  }

  function ShortState(wait: int, i: nat): Sys
    requires i <= 3
  {
    if i == 0 then EMPTY_SYS
    else if i == 1 then Sys(map["feed" := Row(true, Some(LEASE_SECONDS))], map[0 := RunInfo(0, {"feed"})], map["feed" := 0])
    else if i == 2 then Sys(map["feed" := Row(true, Some(wait))], map[0 := RunInfo(0, {})], map["feed" := 0])
    else Sys(map["feed" := Row(true, Some(wait + LEASE_SECONDS))], map[0 := RunInfo(0, {}), 1 := RunInfo(wait, {"feed"})], map["feed" := 1])
  }

  lemma ShortStep(wait: int, i: nat)
    requires i <= 2
    ensures Apply(ShortState(wait, i), ShortWaits(wait)[i]) == ShortState(wait, i + 1)
  {
    var s, a, t := ShortState(wait, i), ShortWaits(wait)[i], ShortState(wait, i + 1);
    assert {"feed"} - {"feed"} == {};
    assert i == 1 ==> Accepted(s, a);
    assert Apply(s, a).rows == t.rows && Apply(s, a).runs == t.runs && Apply(s, a).holder == t.holder;
  }

  lemma {:induction false} ShortStates(wait: int, i: nat)
    requires i <= 3
    ensures At(EMPTY_SYS, ShortWaits(wait), i) == ShortState(wait, i)
  {
    if i > 0 {
      ShortStates(wait, i - 1);
      ShortStep(wait, i - 1);
    }
  }

  /** A wait of at most half a lease can write an old lease value again. */
  lemma ShortWaitsCanRecur(wait: int)
    requires 60 <= wait && 2 * wait <= LEASE_SECONDS
    ensures var trace := ShortWaits(wait);
      Inv(EMPTY_SYS) && Legal(EMPTY_SYS, trace) && WaitsAtLeast(trace, wait) && Recurs(EMPTY_SYS, trace, 0, 3)
  {
    var trace := ShortWaits(wait);
    forall i | 0 <= i < |trace| ensures LegalAt(EMPTY_SYS, trace, i) {
      ShortStates(wait, i);
      assert i == 0 || i == 1 || i == 2 || i == 3;
    }
    ShortStates(wait, 3);
    assert At(EMPTY_SYS, trace, 3) == ShortState(wait, 3);
  }

  /** The literal claim "no finalisation ever writes back an earlier lease value" holds for a
      minimum wait exactly when that wait is more than half the lease: two and a half
      minutes.  (A value that recurs revives nobody: FinalizeRevivesNobody.) */
  lemma LeaseValuesNeverRecurIff(wait: int)
    requires wait >= 60
    ensures 2 * wait > LEASE_SECONDS <==>
      forall s: Sys, trace: seq<Action>, i: nat, j: nat ::
        Inv(s) && Legal(s, trace) && WaitsAtLeast(trace, wait) && i < j < |trace| ==> !Recurs(s, trace, i, j)
  {
    if 2 * wait > LEASE_SECONDS {
      forall s: Sys, trace: seq<Action>, i: nat, j: nat | Inv(s) && Legal(s, trace) && WaitsAtLeast(trace, wait) && i < j < |trace|
        ensures !Recurs(s, trace, i, j)
      {
        LongWaitsNeverRecur(s, trace, i, j, wait);
      }
    } else {
      ShortWaitsCanRecur(wait);
      assert |ShortWaits(wait)| == 4;
    }
  }
}
