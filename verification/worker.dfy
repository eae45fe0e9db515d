/** The worker loop (worker.py, run_worker) against a control store others also write to.

    A `Beat` is one turn of the loop: what the rest of the world does to the store before
    the selection, between selection and claim and during the dispatch, when each of the
    worker's own calls happens, and how the dispatch ends. */
module Worker {
  import opened Ordering
  import opened UtcText
  import opened ControlStore
  import opened ControlRuns

  datatype Beat = Beat(
    before: seq<Timed>, selectAt: Instant,
    contended: bool, between: seq<Timed>, claimAt: Instant,
    during: seq<Timed>, fenceLost: bool, verdict: Verdict, completeAt: Instant)

  datatype Outcome = Outcome(processed: nat, failed: nat, fenceLost: nat)

  /** Invocation owners are unique, so nobody else completes under this owner's name;
      the lease renewer may renew under it. */
  predicate Foreign(ops: seq<Timed>, owner: Owner) {
    forall i :: 0 <= i < |ops| ==> (ops[i].op.Complete? ==> ops[i].op.owner != owner)
  }

  predicate ForeignBeat(b: Beat, owner: Owner) {
    Foreign(b.before, owner) && Foreign(b.between, owner) && Foreign(b.during, owner)
  }

  function RowsBy(runs: seq<Run>, owner: Owner): nat {
    if runs == [] then 0 else
      RowsBy(runs[..|runs| - 1], owner) + (if runs[|runs| - 1].owner == owner then 1 else 0)
  }

  function FailuresBy(runs: seq<Run>, owner: Owner): nat {
    if runs == [] then 0 else
      FailuresBy(runs[..|runs| - 1], owner)
      + (if runs[|runs| - 1].owner == owner && runs[|runs| - 1].verdict == RunFailed then 1 else 0)
  }

  lemma AppendRow(runs: seq<Run>, r: Run, owner: Owner)
    ensures RowsBy(runs + [r], owner) == RowsBy(runs, owner) + (if r.owner == owner then 1 else 0)
    ensures FailuresBy(runs + [r], owner) == FailuresBy(runs, owner) + (if r.owner == owner && r.verdict == RunFailed then 1 else 0)
  {
    assert (runs + [r])[..|runs|] == runs;
  }

  method Interfere(db: ControlDb, ops: seq<Timed>, ghost owner: Owner)
    requires Foreign(ops, owner)
    modifies db
    ensures db.Model() == StateAt(old(db.Model()), ops, |ops|)
    ensures RowsBy(db.runs, owner) == RowsBy(old(db.runs), owner)
    ensures FailuresBy(db.runs, owner) == FailuresBy(old(db.runs), owner)
  {
    for i := 0 to |ops|
      invariant db.Model() == StateAt(old(db.Model()), ops, i)
      invariant RowsBy(db.runs, owner) == RowsBy(old(db.runs), owner)
      invariant FailuresBy(db.runs, owner) == FailuresBy(old(db.runs), owner)
    {
      ghost var before := db.Model();
      var _ := db.Perform(ops[i].now, ops[i].op);
      ForeignStepWritesNoRow(before, ops[i].now, ops[i].op, owner);
    }
  }

  lemma ForeignStepWritesNoRow(s: Store, now: Instant, op: Op, owner: Owner)
    requires op.Complete? ==> op.owner != owner
    ensures RowsBy(Step(s, now, op).0.runs, owner) == RowsBy(s.runs, owner)
    ensures FailuresBy(Step(s, now, op).0.runs, owner) == FailuresBy(s.runs, owner)
  {
    RunsGrow(s, now, op);
    if op.Complete? { AppendRow(s.runs, Run(op.task, op.owner, op.generation, op.verdict, now), owner); }
  }

  /** How one turn of the loop ended. */
  datatype Turn = Idle | Unclaimed | FenceLoss | Rejected | Wrote(verdict: Verdict)

  lemma CompleteWritesOrNot(s: Store, now: Instant, t: TaskId, owner: Owner, g: nat, v: Verdict)
    ensures var (s', r) := Step(s, now, Complete(t, owner, g, v));
      if r.Refused?
      then RowsBy(s'.runs, owner) == RowsBy(s.runs, owner) && FailuresBy(s'.runs, owner) == FailuresBy(s.runs, owner)
      else RowsBy(s'.runs, owner) == RowsBy(s.runs, owner) + 1
           && FailuresBy(s'.runs, owner) == FailuresBy(s.runs, owner) + (if v == RunFailed then 1 else 0)
  {
    RunsGrow(s, now, Complete(t, owner, g, v));
    AppendRow(s.runs, Run(t, owner, g, v, now), owner);
  }

  function After(s: Store, ops: seq<Timed>): Store { StateAt(s, ops, |ops|) }

  /** Select, take the lock, claim, dispatch and complete one task. */
  function TurnSpec(s: Store, kind: string, owner: Owner, ttl: nat, b: Beat): (Store, Turn) {
    var s1 := After(s, b.before);
    var rows := Selectable(s1, kind, b.selectAt);
    if rows == [] then (s1, Idle)
    else if b.contended then (s1, Unclaimed)
    else
      var (s2, grant) := Step(After(s1, b.between), b.claimAt, TakeClaim(rows[0], owner, ttl));
      if !grant.Granted? then (s2, Unclaimed)
      else
        var s3 := After(s2, b.during);
        if b.fenceLost then (s3, FenceLoss)
        else
          var (s4, done) := Step(s3, b.completeAt, Complete(rows[0], owner, grant.generation, b.verdict));
          (s4, if done.Refused? then Rejected else Wrote(b.verdict))
  }

  /** How a turn ends.  Idle is an empty selection; a run row is written exactly when the first
      selected task was claimed without contention, the fence was not lost, and at completion time
      the claim row still names this owner and the granted generation and has not expired; the
      row then carries the task, the owner, that generation, the verdict and the time. */
  lemma TurnEndsHow(s: Store, kind: string, owner: Owner, ttl: nat, b: Beat)
    ensures var (after, turn) := TurnSpec(s, kind, owner, ttl, b);
      var rows := Selectable(After(s, b.before), kind, b.selectAt);
      && (turn == Idle <==> rows == [])
      && (rows == [] || b.contended ==> after == After(s, b.before) && (rows != [] ==> turn == Unclaimed))
      && (rows != [] && !b.contended ==>
            var (s2, grant) := Step(After(After(s, b.before), b.between), b.claimAt, TakeClaim(rows[0], owner, ttl));
            && (turn == Unclaimed <==> !grant.Granted?)
            && (grant.Granted? ==> FinishesRight(After(s2, b.during), after, turn, rows[0], owner, grant.generation, b)))
  {
  }

  /** What the end of a dispatch leaves of the store it found. */
  predicate FinishesRight(found: Store, after: Store, turn: Turn, t: TaskId, owner: Owner, g: nat, b: Beat) {
    if b.fenceLost then turn == FenceLoss && after == found
    else if t in found.claims && found.claims[t].owner == owner && found.claims[t].generation == g && b.completeAt < found.claims[t].expires
    then turn == Wrote(b.verdict) && after.runs == found.runs + [Run(t, owner, g, b.verdict, b.completeAt)]
    else turn == Rejected && after == found
  }

  /** A dispatch whose task was claimed away while it ran never writes a run row. */
  lemma TakenOverTurnWritesNothing(s: Store, kind: string, owner: Owner, ttl: nat, b: Beat, k: nat)
    requires Inv(s) && k < |b.during|
    requires var rows := Selectable(After(s, b.before), kind, b.selectAt);
      && rows != []
      && (var (s2, grant) := Step(After(After(s, b.before), b.between), b.claimAt, TakeClaim(rows[0], owner, ttl));
          && grant.Granted?
          && b.during[k].op.TakeClaim? && b.during[k].op.task == rows[0]
          && ReplyAt(s2, b.during, k).Granted? && ReplyAt(s2, b.during, k).generation > grant.generation)
    ensures !TurnSpec(s, kind, owner, ttl, b).1.Wrote?
  {
    var t := Selectable(After(s, b.before), kind, b.selectAt)[0];
    ReachableStoresAreCoherent(s, b.before, |b.before|);
    var s1 := After(After(s, b.before), b.between);
    ReachableStoresAreCoherent(After(s, b.before), b.between, |b.between|);
    StepKeepsInv(s1, b.claimAt, TakeClaim(t, owner, ttl));
    var (s2, grant) := Step(s1, b.claimAt, TakeClaim(t, owner, ttl));
    var finish := Complete(t, owner, grant.generation, b.verdict);
    var tail := b.during + [Timed(b.completeAt, finish)];
    PrefixStates(s2, b.during, tail, |b.during|);
    PrefixStates(s2, b.during, tail, k);
    StaleGenerationIsShutOut(s2, tail, k, |b.during|);
  }

  lemma {:induction false} PrefixStates(s: Store, a: seq<Timed>, b: seq<Timed>, i: nat)
    requires |a| <= |b| && b[..|a|] == a && i <= |a|
    ensures StateAt(s, a, i) == StateAt(s, b, i)
  {
    if i > 0 {
      PrefixStates(s, a, b, i - 1);
      assert b[i - 1] == b[..|a|][i - 1];
    }
  }

  method TakeTurn(db: ControlDb, kind: string, owner: Owner, ttl: nat, beat: Beat) returns (turn: Turn)
    requires ttl > 0 && ForeignBeat(beat, owner)
    modifies db
    ensures (db.Model(), turn) == TurnSpec(old(db.Model()), kind, owner, ttl, beat)
    ensures RowsBy(db.runs, owner) == RowsBy(old(db.runs), owner) + (if turn.Wrote? then 1 else 0)
    ensures FailuresBy(db.runs, owner) == FailuresBy(old(db.runs), owner) + (if turn == Wrote(RunFailed) then 1 else 0)
  {
    Interfere(db, beat.before, owner);
    var rows := db.SelectableTasks(kind, beat.selectAt, Some(1));
    if rows == [] { return Idle; }
    if beat.contended { return Unclaimed; }
    Interfere(db, beat.between, owner);
    var grant := db.TakeClaim(rows[0], owner, ttl, beat.claimAt);
    if !grant.Granted? { return Unclaimed; }
    Interfere(db, beat.during, owner);
    if beat.fenceLost { return FenceLoss; }
    ghost var before := db.Model();
    var done := db.Complete(rows[0], owner, grant.generation, beat.verdict, beat.completeAt);
    CompleteWritesOrNot(before, beat.completeAt, rows[0], owner, grant.generation, beat.verdict);
    return if done.Refused? then Rejected else Wrote(beat.verdict);
  }

  /** The store and the endings after n turns. */
  function Turns(s: Store, kind: string, owner: Owner, ttl: nat, beats: seq<Beat>, n: nat): (Store, seq<Turn>)
    requires n <= |beats|
  {
    if n == 0 then (s, []) else
      var (before, turns) := Turns(s, kind, owner, ttl, beats, n - 1);
      var (after, turn) := TurnSpec(before, kind, owner, ttl, beats[n - 1]);
      (after, turns + [turn])
  }

  /** The counters against how the turns ended: a written row is processed, a failed one is
      also failed, a completion the fence refused is only failed, a lost fence is neither. */
  predicate Counts(o: Outcome, turns: seq<Turn>) {
    var ended := multiset(turns);
    && o.processed == ended[Wrote(RunCompleted)] + ended[Wrote(RunFailed)]
    && o.failed == ended[Rejected] + ended[Wrote(RunFailed)]
    && o.fenceLost == ended[FenceLoss]
  }

  /** The counters against the run rows: `processed` is exactly the rows this owner wrote,
      `failed` its failed rows and the completions the fence refused. */
  predicate WorkerBooks(was: seq<Run>, runs: seq<Run>, owner: Owner, o: Outcome, refused: nat) {
    && RowsBy(runs, owner) == RowsBy(was, owner) + o.processed
    && FailuresBy(runs, owner) + refused == FailuresBy(was, owner) + o.failed
  }

  /** With a bound on iterations the loop stops at the bound or at the first idle turn;
      without one it goes on for as long as there are turns to take. */
  predicate StopsRight(turns: seq<Turn>, maxIterations: nat, available: nat) {
    && |turns| <= available
    && (maxIterations > 0 ==> |turns| <= maxIterations && forall i :: 0 <= i < |turns| - 1 ==> !turns[i].Idle?)
    && (|turns| < available ==> maxIterations > 0 && (|turns| == maxIterations || (turns != [] && turns[|turns| - 1].Idle?)))
  }

  /** The counters after one more turn. */
  function Tallied(o: Outcome, turn: Turn): Outcome {
    match turn
    case Idle => o
    case Unclaimed => o
    case FenceLoss => o.(fenceLost := o.fenceLost + 1)
    case Rejected => o.(failed := o.failed + 1)
    case Wrote(verdict) => Outcome(o.processed + 1, o.failed + (if verdict == RunFailed then 1 else 0), o.fenceLost)
  }

  lemma OneMoreTurn(was: seq<Run>, runs: seq<Run>, now: seq<Run>, owner: Owner, o: Outcome, turns: seq<Turn>, turn: Turn)
    requires Counts(o, turns) && WorkerBooks(was, runs, owner, o, multiset(turns)[Rejected])
    requires RowsBy(now, owner) == RowsBy(runs, owner) + (if turn.Wrote? then 1 else 0)
    requires FailuresBy(now, owner) == FailuresBy(runs, owner) + (if turn == Wrote(RunFailed) then 1 else 0)
    ensures Counts(Tallied(o, turn), turns + [turn])
    ensures WorkerBooks(was, now, owner, Tallied(o, turn), multiset(turns + [turn])[Rejected])
  {
    assert multiset(turns + [turn]) == multiset(turns) + multiset{turn};
  }

  /** From store s the worker's turns ended as listed and left the store `now`. */
  predicate Went(s: Store, kind: string, owner: Owner, ttl: nat, beats: seq<Beat>, now: Store, turns: seq<Turn>) {
    |turns| <= |beats| && Turns(s, kind, owner, ttl, beats, |turns|) == (now, turns)
  }

  lemma TurnsStep(s: Store, kind: string, owner: Owner, ttl: nat, beats: seq<Beat>, now: Store, turns: seq<Turn>, turn: Turn, next: Store)
    requires |turns| < |beats| && Went(s, kind, owner, ttl, beats, now, turns)
    requires (next, turn) == TurnSpec(now, kind, owner, ttl, beats[|turns|])
    ensures Went(s, kind, owner, ttl, beats, next, turns + [turn])
  {
  }

  method Tally(processed: nat, failed: nat, fenceLost: nat, turn: Turn) returns (p: nat, f: nat, l: nat)
    ensures Outcome(p, f, l) == Tallied(Outcome(processed, failed, fenceLost), turn)
  {
    p, f, l := processed, failed, fenceLost;
    match turn {
      case Idle =>
      case Unclaimed =>
      case FenceLoss =>
        l := l + 1;
      case Rejected =>
        f := f + 1;
      case Wrote(verdict) =>
        if verdict == RunFailed {
          f := f + 1;
        }
        p := p + 1;
    }
  }

  method RunWorker(db: ControlDb, kind: string, owner: Owner, ttl: nat, maxIterations: nat, beats: seq<Beat>)
    returns (outcome: Outcome, ghost turns: seq<Turn>)
    requires ttl > 0
    requires forall i :: 0 <= i < |beats| ==> ForeignBeat(beats[i], owner)
    modifies db
    ensures StopsRight(turns, maxIterations, |beats|)
    ensures Went(old(db.Model()), kind, owner, ttl, beats, db.Model(), turns)
    ensures Counts(outcome, turns)
    ensures WorkerBooks(old(db.runs), db.runs, owner, outcome, multiset(turns)[Rejected])
  {
    var processed, failed, fenceLost := 0, 0, 0;
    turns := [];
    var iterations := 0;
    ghost var start, o := db.Model(), Outcome(0, 0, 0);
    while iterations < |beats|
      invariant |turns| == iterations <= |beats|
      invariant maxIterations > 0 ==> iterations <= maxIterations && forall i :: 0 <= i < |turns| ==> !turns[i].Idle?
      invariant Went(start, kind, owner, ttl, beats, db.Model(), turns)
      invariant o == Outcome(processed, failed, fenceLost) && Counts(o, turns)
      invariant WorkerBooks(old(db.runs), db.runs, owner, o, multiset(turns)[Rejected])
    {
      var beat := beats[iterations];
      iterations := iterations + 1;
      if maxIterations > 0 && iterations > maxIterations {
        break;
      }
      ghost var store, runs := db.Model(), db.runs;
      var turn := TakeTurn(db, kind, owner, ttl, beat);
      TurnsStep(start, kind, owner, ttl, beats, store, turns, turn, db.Model());
      OneMoreTurn(old(db.runs), runs, db.runs, owner, o, turns, turn);
      turns, o := turns + [turn], Tallied(o, turn);
      processed, failed, fenceLost := Tally(processed, failed, fenceLost, turn);
      if turn.Idle? && maxIterations > 0 {
        break;
      }
    }
    return Outcome(processed, failed, fenceLost), turns;
  }
}
