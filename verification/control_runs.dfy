/** Safety of the control store over every interleaving: fencing, exclusive leases,
    one owner per generation, conservation of outcomes, and the selector. */
module ControlRuns {
  import opened Ordering
  import opened UtcText
  import opened ControlStore

  predicate Fenced(op: Op) { op.Renew? || op.Complete? || op.AssertClaim? }

  /** The lease (t, owner, g) is the live one at time `now`. */
  predicate Holds(s: Store, now: Instant, t: TaskId, owner: Owner, g: nat) {
    t in s.claims && s.claims[t].owner == owner && s.claims[t].generation == g && now < s.claims[t].expires
  }

  /** Renew, complete and assert accept exactly the same callers: the live lease holder. */
  lemma FenceIsExact(s: Store, now: Instant, op: Op)
    requires Fenced(op) && (op.Renew? ==> op.ttl > 0)
    ensures Holds(s, now, op.task, op.owner, op.generation) <==> !Step(s, now, op).1.Refused?
    ensures Step(s, now, op).1.Refused? ==> Step(s, now, op).0 == s
  {
  }

  // ------------------------------------------------------------ generations

  /** The part of the invariant that concerns one task. */
  ghost predicate Coherent(s: Store, t: TaskId) {
    && (t in s.claims ==> t in s.tasks)
    && (t in s.tasks ==> PhaseInv(s, t, s.tasks[t]))
  }

  lemma CoherentAt(s: Store, trace: seq<Timed>, i: nat, t: TaskId)
    requires Inv(s) && i <= |trace|
    ensures Coherent(StateAt(s, trace, i), t)
  {
    ReachableStoresAreCoherent(s, trace, i);
    var si := StateAt(s, trace, i);
    if t in si.tasks { assert TaskInv(si, t, si.tasks[t]); }
  }

  /** A generation moves only by a granted claim, by one, and only over an expired claim
      or a task nobody holds. */
  lemma GenerationMoves(s: Store, now: Instant, op: Op, t: TaskId)
    requires Coherent(s, t) && t in s.tasks
    ensures var (s', r) := Step(s, now, op);
      && t in s'.tasks
      && (s'.tasks[t].generation != s.tasks[t].generation ==>
            && op.TakeClaim? && op.task == t
            && s'.tasks[t].generation == s.tasks[t].generation + 1
            && r == Granted(s'.tasks[t].generation, s'.claims[t].attempt, s'.claims[t].expires)
            && (if t in s.claims then s.claims[t].expires <= now else s.tasks[t].state == Pending))
  {
    if t != Target(op) { OthersUnchanged(s, now, op, t); }
  }

  lemma {:induction false} GenerationsNeverFall(s: Store, trace: seq<Timed>, i: nat, j: nat, t: TaskId)
    requires Inv(s) && i <= j <= |trace| && t in StateAt(s, trace, i).tasks
    ensures t in StateAt(s, trace, j).tasks
    ensures StateAt(s, trace, i).tasks[t].generation <= StateAt(s, trace, j).tasks[t].generation
    decreases j - i
  {
    if i < j {
      GenerationsNeverFall(s, trace, i, j - 1, t);
      CoherentAt(s, trace, j - 1, t);
      GenerationMoves(StateAt(s, trace, j - 1), trace[j - 1].now, trace[j - 1].op, t);
    }
  }

  lemma GrantNamesTheGeneration(s: Store, now: Instant, op: Op)
    requires op.TakeClaim? && Coherent(s, op.task) && Step(s, now, op).1.Granted?
    ensures var (s', r) := Step(s, now, op); var t := op.task;
      && t in s'.tasks && t in s'.claims
      && s'.tasks[t].generation == r.generation == s'.claims[t].generation
      && s'.claims[t].owner == op.owner && s'.claims[t].expires == r.expires
      && now < r.expires
  {
  }

  /** The fence: once generation g' has been granted, no renew, complete or assert by an
      older generation ever succeeds again, and none of them changes the store. */
  lemma StaleGenerationIsShutOut(s: Store, trace: seq<Timed>, i: nat, j: nat)
    requires Inv(s) && i < j < |trace|
    requires trace[i].op.TakeClaim? && ReplyAt(s, trace, i).Granted?
    requires Fenced(trace[j].op) && trace[j].op.task == trace[i].op.task
    requires trace[j].op.generation < ReplyAt(s, trace, i).generation
    ensures ReplyAt(s, trace, j).Refused?
    ensures StateAt(s, trace, j + 1) == StateAt(s, trace, j)
  {
    var t := trace[i].op.task;
    CoherentAt(s, trace, i, t);
    GrantNamesTheGeneration(StateAt(s, trace, i), trace[i].now, trace[i].op);
    GenerationsNeverFall(s, trace, i + 1, j, t);
    CoherentAt(s, trace, j, t);
    StaleFenceRefuses(StateAt(s, trace, j), trace[j].now, trace[j].op);
  }

  lemma StaleFenceRefuses(s: Store, now: Instant, op: Op)
    requires Fenced(op) && Coherent(s, op.task) && op.task in s.tasks && op.generation < s.tasks[op.task].generation
    ensures Step(s, now, op).1.Refused? && Step(s, now, op).0 == s
  {
  }

  // ------------------------------------------------------------ exclusive leases

  /** What the holder of (t, g) may do that ends or moves its own lease. */
  predicate HolderActs(op: Op, t: TaskId, owner: Owner, g: nat) {
    (op.Renew? || op.Complete?) && op.task == t && op.owner == owner && op.generation == g
  }

  /** Until its stored expiry a lease cannot be taken, moved or ended by anyone else:
      any operations by anyone leave the claim row as it is unless the holder itself
      renews or completes. */
  lemma {:induction false} LiveLeaseIsExclusive(s: Store, trace: seq<Timed>, i: nat, j: nat, t: TaskId)
    requires Inv(s) && i <= j <= |trace| && t in StateAt(s, trace, i).claims
    requires var c := StateAt(s, trace, i).claims[t];
      forall k :: i <= k < j ==> trace[k].now < c.expires && !HolderActs(trace[k].op, t, c.owner, c.generation)
    ensures t in StateAt(s, trace, j).claims && StateAt(s, trace, j).claims[t] == StateAt(s, trace, i).claims[t]
    decreases j - i
  {
    if i < j {
      LiveLeaseIsExclusive(s, trace, i, j - 1, t);
      var before, step := StateAt(s, trace, j - 1), trace[j - 1];
      assert step.now < before.claims[t].expires;
      assert !HolderActs(step.op, t, before.claims[t].owner, before.claims[t].generation);
      CoherentAt(s, trace, j - 1, t);
      LiveClaimSurvives(before, step.now, step.op, t);
    }
  }

  lemma LiveClaimSurvives(s: Store, now: Instant, op: Op, t: TaskId)
    requires Coherent(s, t) && t in s.claims && now < s.claims[t].expires
    requires !HolderActs(op, t, s.claims[t].owner, s.claims[t].generation)
    ensures var s' := Step(s, now, op).0; t in s'.claims && s'.claims[t] == s.claims[t]
  {
    if t != Target(op) { OthersUnchanged(s, now, op, t); }
  }

  /** So a holder told "yours until E" can still complete at any later moment before E. */
  lemma HolderCanStillComplete(s: Store, trace: seq<Timed>, i: nat, j: nat)
    requires Inv(s) && i < j < |trace|
    requires trace[i].op.TakeClaim? && ReplyAt(s, trace, i).Granted?
    requires var (t, o, g, e) := (trace[i].op.task, trace[i].op.owner, ReplyAt(s, trace, i).generation, ReplyAt(s, trace, i).expires);
      && (forall k :: i < k < j ==> trace[k].now < e && !HolderActs(trace[k].op, t, o, g))
      && trace[j].now < e
      && trace[j].op.Complete? && HolderActs(trace[j].op, t, o, g)
    ensures ReplyAt(s, trace, j) == Recorded
  {
    CoherentAt(s, trace, i, trace[i].op.task);
    GrantNamesTheGeneration(StateAt(s, trace, i), trace[i].now, trace[i].op);
    LiveLeaseIsExclusive(s, trace, i + 1, j, trace[i].op.task);
  }

  // ------------------------------------------------------------ one owner per generation

  /** Generation g of t, once granted to `owner`, can only ever be held by `owner`. */
  ghost predicate Bound(s: Store, t: TaskId, owner: Owner, g: nat) {
    && t in s.tasks && g <= s.tasks[t].generation
    && (t in s.claims && s.claims[t].generation == g ==> s.claims[t].owner == owner)
  }

  lemma BoundIsStable(s: Store, now: Instant, op: Op, t: TaskId, owner: Owner, g: nat)
    requires Coherent(s, t) && Bound(s, t, owner, g)
    ensures Bound(Step(s, now, op).0, t, owner, g)
  {
    if t != Target(op) { OthersUnchanged(s, now, op, t); }
  }

  lemma {:induction false} StaysBound(s: Store, trace: seq<Timed>, i: nat, j: nat, t: TaskId, owner: Owner, g: nat)
    requires Inv(s) && i <= j <= |trace| && Bound(StateAt(s, trace, i), t, owner, g)
    ensures Bound(StateAt(s, trace, j), t, owner, g)
    decreases j - i
  {
    if i < j {
      StaysBound(s, trace, i, j - 1, t, owner, g);
      CoherentAt(s, trace, j - 1, t);
      BoundIsStable(StateAt(s, trace, j - 1), trace[j - 1].now, trace[j - 1].op, t, owner, g);
    }
  }

  /** No two owners ever act under the same generation of a task. */
  lemma OneOwnerPerGeneration(s: Store, trace: seq<Timed>, i: nat, j: nat)
    requires Inv(s) && i < j < |trace|
    requires trace[i].op.TakeClaim? && ReplyAt(s, trace, i).Granted?
    requires !ReplyAt(s, trace, j).Refused?
    requires var t, g := trace[i].op.task, ReplyAt(s, trace, i).generation;
      || (Fenced(trace[j].op) && trace[j].op.task == t && trace[j].op.generation == g)
      || (trace[j].op.TakeClaim? && trace[j].op.task == t && ReplyAt(s, trace, j).Granted? && ReplyAt(s, trace, j).generation == g)
    ensures trace[j].op.owner == trace[i].op.owner
  {
    var t, g := trace[i].op.task, ReplyAt(s, trace, i).generation;
    CoherentAt(s, trace, i, trace[i].op.task);
    GrantNamesTheGeneration(StateAt(s, trace, i), trace[i].now, trace[i].op);
    StaysBound(s, trace, i + 1, j, t, trace[i].op.owner, g);
    CoherentAt(s, trace, j, t);
    var sj := StateAt(s, trace, j);
    BoundIsStable(sj, trace[j].now, trace[j].op, t, trace[i].op.owner, g);
    if trace[j].op.TakeClaim? {
      GrantNamesTheGeneration(sj, trace[j].now, trace[j].op);
    } else {
      FencedReplyNamesOwner(sj, trace[j].now, trace[j].op);
    }
  }

  lemma FencedReplyNamesOwner(s: Store, now: Instant, op: Op)
    requires Fenced(op) && !Step(s, now, op).1.Refused?
    ensures op.task in s.claims && s.claims[op.task].owner == op.owner && s.claims[op.task].generation == op.generation
  {
  }

  // ------------------------------------------------------------ conservation of outcomes

  function CountRuns(runs: seq<Run>, t: TaskId, v: Verdict): nat {
    if runs == [] then 0 else
      var last := runs[|runs| - 1];
      CountRuns(runs[..|runs| - 1], t, v) + (if last.task == t && last.verdict == v then 1 else 0)
  }

  /** Retries of t accepted in the first i steps. */
  function Retries(s: Store, trace: seq<Timed>, i: nat, t: TaskId): nat
    requires i <= |trace|
  {
    if i == 0 then 0 else
      Retries(s, trace, i - 1, t)
      + (if trace[i - 1].op.Retry? && trace[i - 1].op.task == t && ReplyAt(s, trace, i - 1) == Requeued then 1 else 0)
  }

  /** The round number the task was created with. */
  function FirstRound(s: Store, trace: seq<Timed>, i: nat, t: TaskId): int
    requires i <= |trace|
  {
    if i == 0 then 0
    else if trace[i - 1].op.Enqueue? && ReplyAt(s, trace, i - 1) == Enqueued(t, true) && trace[i - 1].op.payload.Investigation?
    then trace[i - 1].op.payload.round
    else FirstRound(s, trace, i - 1, t)
  }

  /** t's run rows carry strictly increasing generations up to `top`; an open claim has none yet. */
  ghost predicate RunsOf(runs: seq<Run>, t: TaskId, top: nat, open: bool) {
    && (forall a :: 0 <= a < |runs| && runs[a].task == t ==> 1 <= runs[a].generation <= top && (open ==> runs[a].generation < top))
    && (forall a, b :: 0 <= a < b < |runs| && runs[a].task == t && runs[b].task == t ==> runs[a].generation < runs[b].generation)
  }

  /** The books of one task balance: retries and rounds counted from its whole history. */
  ghost predicate Balanced(s: Store, t: TaskId, retries: nat, firstRound: int)
    requires t in s.tasks
  {
    var row := s.tasks[t];
    && CountRuns(s.runs, t, RunCompleted) == (if row.state == Completed then 1 else 0)
    && CountRuns(s.runs, t, RunFailed) == retries + (if row.state == Failed then 1 else 0)
    && (row.kind == "investigate" ==> row.payload.Investigation? && row.payload.round == firstRound + retries && firstRound >= 0)
    && (row.kind != "investigate" ==> retries == 0)
    && RunsOf(s.runs, t, row.generation, row.state == Claimed)
    && (row.state == Pending && row.generation > 0 ==>
          exists k :: 0 <= k < |s.runs| && s.runs[k].task == t && s.runs[k].generation == row.generation && s.runs[k].verdict == RunFailed)
    && (row.state == Failed ==>
          exists k :: 0 <= k < |s.runs| && s.runs[k].task == t && s.runs[k].generation == row.generation && s.runs[k].verdict == RunFailed)
  }

  lemma {:induction false} NoRunsNoCount(runs: seq<Run>, t: TaskId, v: Verdict)
    requires forall a :: 0 <= a < |runs| ==> runs[a].task != t
    ensures CountRuns(runs, t, v) == 0
  {
    if runs != [] { NoRunsNoCount(runs[..|runs| - 1], t, v); }
  }

  lemma AppendCount(runs: seq<Run>, r: Run, t: TaskId, v: Verdict)
    ensures CountRuns(runs + [r], t, v) == CountRuns(runs, t, v) + (if r.task == t && r.verdict == v then 1 else 0)
  {
    assert (runs + [r])[..|runs|] == runs;
  }

  lemma {:induction false} StrangerAppends(runs: seq<Run>, r: Run, t: TaskId)
    requires r.task != t
    ensures forall v :: CountRuns(runs + [r], t, v) == CountRuns(runs, t, v)
  {
    AppendCount(runs, r, t, RunCompleted);
    AppendCount(runs, r, t, RunFailed);
  }

  ghost predicate FailedRowAt(runs: seq<Run>, t: TaskId, g: nat) {
    exists k :: 0 <= k < |runs| && runs[k].task == t && runs[k].generation == g && runs[k].verdict == RunFailed
  }

  lemma FailedRowStays(runs: seq<Run>, r: Run, t: TaskId, g: nat)
    requires FailedRowAt(runs, t, g)
    ensures FailedRowAt(runs + [r], t, g)
  {
    var k :| 0 <= k < |runs| && runs[k].task == t && runs[k].generation == g && runs[k].verdict == RunFailed;
    assert (runs + [r])[k] == runs[k];
  }

  lemma OtherTaskBooks(s: Store, now: Instant, op: Op, t: TaskId, retries: nat, first: int)
    requires t in s.tasks && t != Target(op) && Balanced(s, t, retries, first)
    ensures var s' := Step(s, now, op).0; t in s'.tasks && Balanced(s', t, retries, first)
  {
    var s' := Step(s, now, op).0;
    OthersUnchanged(s, now, op, t);
    RunsGrow(s, now, op);
    if s'.runs != s.runs {
      var r := s'.runs[|s.runs|];
      StrangerAppends(s.runs, r, t);
      if FailedRowAt(s.runs, t, s.tasks[t].generation) { FailedRowStays(s.runs, r, t, s.tasks[t].generation); }
    }
  }

  lemma CompleteBooks(s: Store, now: Instant, op: Op, retries: nat, first: int)
    requires op.Complete? && FenceError(s, now, op.task, op.owner, op.generation).None?
    requires Coherent(s, op.task) && op.task in s.tasks && Balanced(s, op.task, retries, first)
    ensures var s' := Step(s, now, op).0; op.task in s'.tasks && Balanced(s', op.task, retries, first)
  {
    var s', t := Step(s, now, op).0, op.task;
    var r := Run(t, op.owner, op.generation, op.verdict, now);
    assert s'.runs == s.runs + [r];
    AppendCount(s.runs, r, t, RunCompleted);
    AppendCount(s.runs, r, t, RunFailed);
    assert s'.runs[|s.runs|] == r;
  }

  lemma TargetBooks(s: Store, now: Instant, op: Op, t: TaskId, retries: nat, first: int)
    requires t == Target(op) && t in s.tasks && Coherent(s, t) && NamedRight(t, s.tasks[t]) && Balanced(s, t, retries, first)
    ensures var (s', r) := Step(s, now, op);
      t in s'.tasks && Balanced(s', t, retries + (if op.Retry? && r == Requeued then 1 else 0), first)
  {
    if op.Complete? && FenceError(s, now, op.task, op.owner, op.generation).None? {
      CompleteBooks(s, now, op, retries, first);
    } else {
      RunsGrow(s, now, op);
    }
  }

  lemma NewTaskBooks(s: Store, now: Instant, op: Op, t: TaskId, first: int)
    requires Inv(s) && t !in s.tasks && t in Step(s, now, op).0.tasks
    requires op.Enqueue? && op.payload.Investigation? ==> first == op.payload.round
    ensures op.Enqueue? && Step(s, now, op).1 == Enqueued(t, true)
    ensures Balanced(Step(s, now, op).0, t, 0, first)
  {
    if t != Target(op) { OthersUnchanged(s, now, op, t); }
    NoRunsNoCount(s.runs, t, RunCompleted);
    NoRunsNoCount(s.runs, t, RunFailed);
  }

  lemma {:induction false} UnknownTaskHasNoRetries(trace: seq<Timed>, i: nat, t: TaskId)
    requires i <= |trace| && t !in StateAt(EMPTY, trace, i).tasks
    ensures Retries(EMPTY, trace, i, t) == 0
  {
    if i > 0 {
      var s := StateAt(EMPTY, trace, i - 1);
      CoherentAt(EMPTY, trace, i - 1, t);
      if t in s.tasks { GenerationMoves(s, trace[i - 1].now, trace[i - 1].op, t); }
      UnknownTaskHasNoRetries(trace, i - 1, t);
    }
  }

  lemma StepBooks(s: Store, now: Instant, op: Op, t: TaskId, retries: nat, first: int)
    requires Inv(s) && t in s.tasks && Balanced(s, t, retries, first)
    ensures var (s', r) := Step(s, now, op);
      t in s'.tasks && Balanced(s', t, retries + (if op.Retry? && op.task == t && r == Requeued then 1 else 0), first)
  {
    assert TaskInv(s, t, s.tasks[t]);
    if t == Target(op) {
      TargetBooks(s, now, op, t, retries, first);
    } else {
      OtherTaskBooks(s, now, op, t, retries, first);
    }
  }

  lemma CountersStep(trace: seq<Timed>, i: nat, t: TaskId)
    requires 0 < i <= |trace| && t in StateAt(EMPTY, trace, i - 1).tasks
    ensures FirstRound(EMPTY, trace, i, t) == FirstRound(EMPTY, trace, i - 1, t)
  {
    ExistingIsNotCreated(StateAt(EMPTY, trace, i - 1), trace[i - 1].now, trace[i - 1].op, t);
  }

  lemma BooksOpen(trace: seq<Timed>, i: nat, t: TaskId)
    requires 0 < i <= |trace| && t !in StateAt(EMPTY, trace, i - 1).tasks && t in StateAt(EMPTY, trace, i).tasks
    ensures Balanced(StateAt(EMPTY, trace, i), t, Retries(EMPTY, trace, i, t), FirstRound(EMPTY, trace, i, t))
  {
    var s, now, op := StateAt(EMPTY, trace, i - 1), trace[i - 1].now, trace[i - 1].op;
    ReachableStoresAreCoherent(EMPTY, trace, i - 1);
    EnqueueCreates(s, now, op, t);
    UnknownTaskHasNoRetries(trace, i - 1, t);
    assert Retries(EMPTY, trace, i, t) == 0;
    NewTaskBooks(s, now, op, t, FirstRound(EMPTY, trace, i, t));
  }

  lemma EnqueueCreates(s: Store, now: Instant, op: Op, t: TaskId)
    requires Inv(s) && t !in s.tasks && t in Step(s, now, op).0.tasks
    ensures op.Enqueue? && Step(s, now, op).1 == Enqueued(t, true)
  {
    if t != Target(op) { OthersUnchanged(s, now, op, t); }
  }

  /** Conservation over every run from the empty store: one completed row iff the task is
      completed, failed rows are its retries plus one while failed, the stored round is the
      first round plus the retries, and run generations strictly increase. */
  lemma {:induction false} BooksBalance(trace: seq<Timed>, i: nat, t: TaskId)
    requires i <= |trace| && t in StateAt(EMPTY, trace, i).tasks
    ensures Balanced(StateAt(EMPTY, trace, i), t, Retries(EMPTY, trace, i, t), FirstRound(EMPTY, trace, i, t))
  {
    var s := StateAt(EMPTY, trace, i - 1);
    if t !in s.tasks {
      BooksOpen(trace, i, t);
    } else {
      BooksBalance(trace, i - 1, t);
      ReachableStoresAreCoherent(EMPTY, trace, i - 1);
      CountersStep(trace, i, t);
      StepBooks(s, trace[i - 1].now, trace[i - 1].op, t, Retries(EMPTY, trace, i - 1, t), FirstRound(EMPTY, trace, i - 1, t));
    }
  }

  lemma ExistingIsNotCreated(s: Store, now: Instant, op: Op, t: TaskId)
    requires t in s.tasks
    ensures Step(s, now, op).1 != Enqueued(t, true)
  {
  }

  /** A scheduled task records at most one outcome for ever; an investigation at most one
      per round, so never more than MAX_ROUNDS failures. */
  lemma OutcomesAreBounded(trace: seq<Timed>, i: nat, t: TaskId)
    requires i <= |trace| && t in StateAt(EMPTY, trace, i).tasks
    ensures var s := StateAt(EMPTY, trace, i);
      CountRuns(s.runs, t, RunCompleted) + CountRuns(s.runs, t, RunFailed)
        <= (if s.tasks[t].kind == "investigate" then MAX_ROUNDS else 1)
  {
    BooksBalance(trace, i, t);
    ReachableStoresAreCoherent(EMPTY, trace, i);
    var s := StateAt(EMPTY, trace, i);
    assert TaskInv(s, t, s.tasks[t]);
  }

  /** A new generation over an old one is granted only at or after the old lease's stored
      expiry, or after the old generation recorded a failure and was explicitly retried. */
  lemma TakeoverNeedsExpiryOrRetry(trace: seq<Timed>, i: nat)
    requires i < |trace| && trace[i].op.TakeClaim?
    requires var t, s := trace[i].op.task, StateAt(EMPTY, trace, i);
      && t in s.tasks && s.tasks[t].generation >= 1
      && StateAt(EMPTY, trace, i + 1).tasks[t].generation != s.tasks[t].generation
    ensures var t, s := trace[i].op.task, StateAt(EMPTY, trace, i); var g := s.tasks[t].generation;
      if t in s.claims then s.claims[t].generation == g && s.claims[t].expires <= trace[i].now
      else FailedRowAt(s.runs, t, g) && Retries(EMPTY, trace, i, t) >= 1
  {
    var t, s := trace[i].op.task, StateAt(EMPTY, trace, i);
    CoherentAt(EMPTY, trace, i, t);
    GenerationMoves(s, trace[i].now, trace[i].op, t);
    BooksBalance(trace, i, t);
    if t !in s.claims {
      var k :| 0 <= k < |s.runs| && s.runs[k].task == t && s.runs[k].generation == s.tasks[t].generation && s.runs[k].verdict == RunFailed;
      RowIsCounted(s.runs, k);
    }
  }

  lemma {:induction false} RowIsCounted(runs: seq<Run>, k: nat)
    requires k < |runs|
    ensures CountRuns(runs, runs[k].task, runs[k].verdict) >= 1
  {
    if k < |runs| - 1 { RowIsCounted(runs[..|runs| - 1], k); }
  }

  // ------------------------------------------------------------ where generations start

  /** The grant of a task nobody holds starts at generation 1 exactly when the task has never
      been retried. */
  lemma {:induction false} GrantStartsAtOneIff(trace: seq<Timed>, i: nat)
    requires i < |trace| && trace[i].op.TakeClaim? && ReplyAt(EMPTY, trace, i).Granted?
    requires trace[i].op.task !in StateAt(EMPTY, trace, i).claims
    ensures ReplyAt(EMPTY, trace, i).generation == 1 <==> Retries(EMPTY, trace, i, trace[i].op.task) == 0
  {
    var s, t := StateAt(EMPTY, trace, i), trace[i].op.task;
    BooksBalance(trace, i, t);
    CoherentAt(EMPTY, trace, i, t);
    if s.tasks[t].generation == 0 {
      NoRunsNoCount(s.runs, t, RunFailed);
    } else {
      var k :| 0 <= k < |s.runs| && s.runs[k].task == t && s.runs[k].generation == s.tasks[t].generation && s.runs[k].verdict == RunFailed;
      RowIsCounted(s.runs, k);
    }
  }

  /** An investigation that fails its first round, is retried and claimed again. */
  function RetriedRun(due: string, p: Payload, owner: Owner, ttl: nat): seq<Timed>
    requires p.Investigation?
  {
    var t := TaskIdOf("investigate", due, p.id);
    [Timed(0, Enqueue("investigate", due, p)), Timed(0, TakeClaim(t, owner, ttl)), Timed(0, Complete(t, owner, 1, RunFailed)),
     Timed(0, Retry(t, p.(round := p.round + 1))), Timed(0, TakeClaim(t, owner, ttl))]
  }

  /** Its second claim is granted generation 2 although nobody holds the task. */
  lemma RetriedGrantIsSecond(due: string, p: Payload, owner: Owner, ttl: nat)
    requires ValidDueSlot(due) && ValidInvestigation(p) && p.round + 1 < MAX_ROUNDS && ttl > 0
    ensures var trace, t := RetriedRun(due, p, owner, ttl), TaskIdOf("investigate", due, p.id);
      && t !in StateAt(EMPTY, trace, 4).claims
      && Retries(EMPTY, trace, 4, t) == 1
      && ReplyAt(EMPTY, trace, 4) == Granted(2, 1, ttl * SECOND)
  {
    var trace, t := RetriedRun(due, p, owner, ttl), TaskIdOf("investigate", due, p.id);
    var row := Task("investigate", due, p.id, p, Pending, 0);
    assert StateAt(EMPTY, trace, 1).tasks == map[t := row] && StateAt(EMPTY, trace, 1).claims == map[];
    var c := Claim(owner, 1, 1, ttl * SECOND, 0);
    assert StateAt(EMPTY, trace, 2).tasks[t] == row.(state := Claimed, generation := 1) && StateAt(EMPTY, trace, 2).claims == map[t := c];
    assert StateAt(EMPTY, trace, 3).tasks[t] == row.(state := Failed, generation := 1) && t !in StateAt(EMPTY, trace, 3).claims;
    assert ReplyAt(EMPTY, trace, 3) == Requeued;
    assert Retries(EMPTY, trace, 1, t) == Retries(EMPTY, trace, 0, t) == 0;
    assert Retries(EMPTY, trace, 3, t) == Retries(EMPTY, trace, 2, t) == 0;
  }

  // ------------------------------------------------------------ selector and claim

  ghost predicate AllPrintable(s: Store) {
    forall t :: t in s.claims ==> Printable(s.claims[t].expires)
  }

  /** At one `now`, the rows the selector returns for a kind are exactly those any owner
      that holds nothing would be granted, in (due slot, id) order with no repeats, although
      the selector compares printed timestamps and claim compares parsed ones. */
  lemma SelectorMatchesClaim(s: Store, kind: string, now: Instant, owner: Owner, ttl: int)
    requires Inv(s) && AllPrintable(s) && Printable(now) && ttl > 0
    requires forall t :: t in s.claims ==> s.claims[t].owner != owner
    ensures var rows := Selectable(s, kind, now);
      && (forall t :: t in rows <==>
            t in s.tasks && s.tasks[t].kind == kind && Step(s, now, TakeClaim(t, owner, ttl)).1.Granted?)
      && (forall a, b :: 0 <= a < b < |rows| ==> SlotOrder(s.tasks)(rows[a], rows[b]) && rows[a] != rows[b])
  {
    SlotOrderIsStrictTotal(s.tasks);
    forall t ensures t in Selectable(s, kind, now) <==>
        t in s.tasks && s.tasks[t].kind == kind && Step(s, now, TakeClaim(t, owner, ttl)).1.Granted? {
      if t in s.tasks { SelectableIffClaimable(s, kind, now, owner, ttl, t); }
    }
  }

  lemma SelectableIffClaimable(s: Store, kind: string, now: Instant, owner: Owner, ttl: int, t: TaskId)
    requires t in s.tasks && PhaseInv(s, t, s.tasks[t]) && Printable(now) && ttl > 0
    requires t in s.claims ==> Printable(s.claims[t].expires) && s.claims[t].owner != owner
    ensures t in QueryRows(s, kind) && PassesCutoff(s, t, Print(now)) <==>
            s.tasks[t].kind == kind && Step(s, now, TakeClaim(t, owner, ttl)).1.Granted?
  {
    if t in s.claims { PrintOrder(s.claims[t].expires, now); }
  }
}
