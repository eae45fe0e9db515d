/** What each accepted operation of the control store leaves in its rows, and who is refused:
    the terms of a lease, of an outcome, of a new task and of a retry, in any history. */
module ControlTerms {
  import opened Ordering
  import opened UtcText
  import opened ControlStore
  import opened ControlRuns

  // ------------------------------------------------------------ leases

  /** A renewal is accepted exactly from the holder of the live lease, with a positive ttl. */
  lemma RenewalAcceptedIff(s: Store, trace: seq<Timed>, i: nat)
    requires i < |trace| && trace[i].op.Renew?
    ensures var before, op := StateAt(s, trace, i), trace[i].op;
      ReplyAt(s, trace, i).Renewed? <==>
        && op.ttl > 0 && op.task in before.claims
        && before.claims[op.task].owner == op.owner && before.claims[op.task].generation == op.generation
        && trace[i].now < before.claims[op.task].expires
    ensures !ReplyAt(s, trace, i).Renewed? ==> ReplyAt(s, trace, i).Refused? && StateAt(s, trace, i + 1) == StateAt(s, trace, i)
  {
  }

  /** An accepted renewal moves the expiry to ttl seconds from now, says so, and leaves owner,
      generation and attempt, the task, the run rows and every other claim alone. */
  lemma RenewalExtendsTheLease(s: Store, trace: seq<Timed>, i: nat)
    requires i < |trace| && trace[i].op.Renew? && !ReplyAt(s, trace, i).Refused?
    ensures var before, after, op, now := StateAt(s, trace, i), StateAt(s, trace, i + 1), trace[i].op, trace[i].now;
      && ReplyAt(s, trace, i) == Renewed(now + op.ttl * 1_000_000)
      && op.task in before.claims
      && after.claims == before.claims[op.task :=
           Claim(op.owner, op.generation, before.claims[op.task].attempt, now + op.ttl * 1_000_000, now)]
      && after.tasks == before.tasks && after.runs == before.runs
  {
  }

  /** What a granted claim holds: a free task's next generation at attempt 1, an expired
      claim's next generation and attempt, in both cases for ttl seconds from now. */
  lemma GrantSetsTheTerms(s: Store, trace: seq<Timed>, i: nat)
    requires i < |trace| && trace[i].op.TakeClaim? && ReplyAt(s, trace, i).Granted?
    ensures var before, after, op, now := StateAt(s, trace, i), StateAt(s, trace, i + 1), trace[i].op, trace[i].now;
      var t, reply := op.task, ReplyAt(s, trace, i);
      && t in before.tasks && after.runs == before.runs
      && (if t in before.claims && now < before.claims[t].expires then
            && before.claims[t].owner == op.owner && after == before
            && reply == Granted(before.claims[t].generation, before.claims[t].attempt, before.claims[t].expires)
          else
            var (generation, attempt) := if t in before.claims
              then (before.claims[t].generation + 1, before.claims[t].attempt + 1) else (before.tasks[t].generation + 1, 1);
            && reply == Granted(generation, attempt, now + op.ttl * 1_000_000)
            && after.claims == before.claims[t := Claim(op.owner, generation, attempt, now + op.ttl * 1_000_000, now)]
            && after.tasks == before.tasks[t := before.tasks[t].(state := Claimed, generation := generation)])
  {
  }

  /** A claim is granted exactly on a pending or claimed task that nobody else holds alive. */
  lemma GrantedIff(s: Store, trace: seq<Timed>, i: nat)
    requires i < |trace| && trace[i].op.TakeClaim?
    ensures var before, op := StateAt(s, trace, i), trace[i].op;
      ReplyAt(s, trace, i).Granted? <==>
        && op.ttl > 0 && op.task in before.tasks
        && (before.tasks[op.task].state == Pending || before.tasks[op.task].state == Claimed)
        && (op.task in before.claims ==> before.claims[op.task].expires <= trace[i].now || before.claims[op.task].owner == op.owner)
    ensures !ReplyAt(s, trace, i).Granted? ==> ReplyAt(s, trace, i).Refused? && StateAt(s, trace, i + 1) == StateAt(s, trace, i)
  {
  }

  /** The lease a reply promises: generation and expiry. */
  function Promised(op: Op, reply: Reply): (nat, Instant)
    requires (op.TakeClaim? && reply.Granted?) || (op.Renew? && reply.Renewed?)
  {
    if op.TakeClaim? then (reply.generation, reply.expires) else (op.generation, reply.expires)
  }

  lemma PromiseIsStored(s: Store, trace: seq<Timed>, i: nat)
    requires Inv(s) && i < |trace|
    requires (trace[i].op.TakeClaim? && ReplyAt(s, trace, i).Granted?) || (trace[i].op.Renew? && ReplyAt(s, trace, i).Renewed?)
    ensures var after, op := StateAt(s, trace, i + 1), trace[i].op; var (g, e) := Promised(op, ReplyAt(s, trace, i));
      && op.task in after.claims && after.claims[op.task].owner == op.owner
      && after.claims[op.task].generation == g && after.claims[op.task].expires == e
  {
    if trace[i].op.TakeClaim? { GrantSetsTheTerms(s, trace, i); } else { RenewalExtendsTheLease(s, trace, i); }
  }

  /** A holder told "yours until E", by a grant or by a renewal, can complete at any later
      moment before E whatever the others do, if it does nothing else to the lease. */
  lemma PromisedLeaseCanComplete(s: Store, trace: seq<Timed>, i: nat, j: nat)
    requires Inv(s) && i < j < |trace|
    requires (trace[i].op.TakeClaim? && ReplyAt(s, trace, i).Granted?) || (trace[i].op.Renew? && ReplyAt(s, trace, i).Renewed?)
    requires var op := trace[i].op; var (g, e) := Promised(op, ReplyAt(s, trace, i));
      && (forall k :: i < k < j ==> trace[k].now < e && !HolderActs(trace[k].op, op.task, op.owner, g))
      && trace[j].now < e && trace[j].op.Complete? && HolderActs(trace[j].op, op.task, op.owner, g)
    ensures ReplyAt(s, trace, j) == Recorded
  {
    PromiseIsStored(s, trace, i);
    LiveLeaseIsExclusive(s, trace, i + 1, j, trace[i].op.task);
  }

  /** Likewise it can renew again, so a holder whose heartbeats come in time never loses it. */
  lemma PromisedLeaseCanRenew(s: Store, trace: seq<Timed>, i: nat, j: nat)
    requires Inv(s) && i < j < |trace|
    requires (trace[i].op.TakeClaim? && ReplyAt(s, trace, i).Granted?) || (trace[i].op.Renew? && ReplyAt(s, trace, i).Renewed?)
    requires var op := trace[i].op; var (g, e) := Promised(op, ReplyAt(s, trace, i));
      && (forall k :: i < k < j ==> trace[k].now < e && !HolderActs(trace[k].op, op.task, op.owner, g))
      && trace[j].now < e && trace[j].op.Renew? && HolderActs(trace[j].op, op.task, op.owner, g) && trace[j].op.ttl > 0
    ensures ReplyAt(s, trace, j) == Renewed(trace[j].now + trace[j].op.ttl * 1_000_000)
  {
    PromiseIsStored(s, trace, i);
    LiveLeaseIsExclusive(s, trace, i + 1, j, trace[i].op.task);
    RenewalAcceptedIff(s, trace, j);
    RenewalExtendsTheLease(s, trace, j);
  }

  // ------------------------------------------------------------ selection

  predicate OlderSlot(s: Store, a: TaskId, b: TaskId) {
    a in s.tasks && b in s.tasks
    && (TextLess(s.tasks[a].due, s.tasks[b].due) || (s.tasks[a].due == s.tasks[b].due && TextLess(a, b)))
  }

  lemma OrderIsOlderSlot(s: Store, a: TaskId, b: TaskId)
    requires a in s.tasks && b in s.tasks
    ensures SlotOrder(s.tasks)(a, b) == OlderSlot(s, a, b)
  {
  }

  lemma SelectionHolds(s: Store, kind: string, now: Instant, t: TaskId)
    ensures t in Selectable(s, kind, now) <==>
      && t in s.tasks && s.tasks[t].kind == kind
      && (s.tasks[t].state == Pending
          || (s.tasks[t].state == Claimed && t in s.claims && TextAtMost(Print(s.claims[t].expires), Print(now))))
  {
    SlotOrderIsStrictTotal(s.tasks);
  }

  /** The selector lists the tasks of its kind that are pending, or claimed with an expiry that
      prints no later than now, oldest due slot first and then by id. */
  lemma SelectionIsOldestFirst(s: Store, kind: string, now: Instant)
    ensures var rows := Selectable(s, kind, now);
      && (forall t :: t in rows <==>
            && t in s.tasks && s.tasks[t].kind == kind
            && (s.tasks[t].state == Pending
                || (s.tasks[t].state == Claimed && t in s.claims && TextAtMost(Print(s.claims[t].expires), Print(now)))))
      && (forall a, b :: 0 <= a < b < |rows| ==> OlderSlot(s, rows[a], rows[b]))
  {
    forall t ensures t in Selectable(s, kind, now) <==>
        && t in s.tasks && s.tasks[t].kind == kind
        && (s.tasks[t].state == Pending
            || (s.tasks[t].state == Claimed && t in s.claims && TextAtMost(Print(s.claims[t].expires), Print(now))))
    {
      SelectionHolds(s, kind, now, t);
    }
    SlotOrderIsStrictTotal(s.tasks);
    var rows := Selectable(s, kind, now);
    forall a, b | 0 <= a < b < |rows| ensures OlderSlot(s, rows[a], rows[b]) {
      assert rows[a] in rows && rows[b] in rows;
      assert SlotOrder(s.tasks)(rows[a], rows[b]);
      OrderIsOlderSlot(s, rows[a], rows[b]);
    }
  }

  // ------------------------------------------------------------ outcomes

  /** An accepted completion appends the one run row that names the holder, its generation, its
      verdict and the time, settles the task by the verdict and drops the claim. */
  lemma CompletionRecordsTheOutcome(s: Store, trace: seq<Timed>, i: nat)
    requires Inv(s) && i < |trace| && trace[i].op.Complete? && !ReplyAt(s, trace, i).Refused?
    ensures var before, after, op := StateAt(s, trace, i), StateAt(s, trace, i + 1), trace[i].op;
      && after.runs == before.runs + [Run(op.task, op.owner, op.generation, op.verdict, trace[i].now)]
      && op.task in before.tasks
      && after.tasks == before.tasks[op.task :=
           before.tasks[op.task].(state := if op.verdict == RunCompleted then Completed else Failed)]
      && after.claims == before.claims - {op.task}
  {
    CoherentAt(s, trace, i, trace[i].op.task);
  }

  /** Completing and asserting are accepted exactly from the holder of the live lease. */
  lemma FencedAcceptedIff(s: Store, trace: seq<Timed>, i: nat)
    requires i < |trace| && (trace[i].op.Complete? || trace[i].op.AssertClaim?)
    ensures var before, op := StateAt(s, trace, i), trace[i].op;
      !ReplyAt(s, trace, i).Refused? <==>
        && op.task in before.claims
        && before.claims[op.task].owner == op.owner && before.claims[op.task].generation == op.generation
        && trace[i].now < before.claims[op.task].expires
    ensures trace[i].op.AssertClaim? || ReplyAt(s, trace, i).Refused? ==> StateAt(s, trace, i + 1) == StateAt(s, trace, i)
  {
  }

  // ------------------------------------------------------------ new tasks and retries

  predicate KnownKind(kind: string) { kind == "ingest" || kind == "investigate" || kind == "process" || kind == "validate" || kind == "report" }

  /** A sound enqueue answers by whether its identity is on record: absent, it becomes a pending
      task at generation 0; present with the same payload, nothing; with another, a conflict. */
  lemma EnqueueAnswers(s: Store, trace: seq<Timed>, i: nat)
    requires i < |trace| && trace[i].op.Enqueue?
    ensures var before, after, op, reply := StateAt(s, trace, i), StateAt(s, trace, i + 1), trace[i].op, ReplyAt(s, trace, i);
      if !KnownKind(op.kind) || !ValidDueSlot(op.due) || (op.kind == "investigate" && !ValidInvestigation(op.payload))
      then reply.Refused? && after == before
      else
        var key := if op.kind == "investigate" then op.payload.id else "";
        var t := if key == "" then op.kind + "|" + op.due else op.kind + "|" + op.due + "|" + key;
        if t !in before.tasks then
          reply == Enqueued(t, true)
          && after == before.(tasks := before.tasks[t := Task(op.kind, op.due, key, op.payload, Pending, 0)])
        else
          after == before && reply == (if before.tasks[t].payload == op.payload then Enqueued(t, false) else Refused(PayloadConflict))
  {
  }

  /** A retry is accepted exactly on a failed investigation whose stored payload differs from
      the new one only by naming the round before; then the task is pending with the new one,
      its generation kept. */
  lemma RetryAcceptedIff(s: Store, trace: seq<Timed>, i: nat)
    requires Inv(s) && i < |trace| && trace[i].op.Retry?
    ensures var before, after, op := StateAt(s, trace, i), StateAt(s, trace, i + 1), trace[i].op;
      && (ReplyAt(s, trace, i) == Requeued <==>
            && op.task in before.tasks && before.tasks[op.task].kind == "investigate" && before.tasks[op.task].state == Failed
            && op.payload.Investigation? && op.payload.round < 2 && before.tasks[op.task].payload.Investigation?
            && op.payload == before.tasks[op.task].payload.(round := before.tasks[op.task].payload.round + 1))
      && (if ReplyAt(s, trace, i) == Requeued
          then after == before.(tasks := before.tasks[op.task := before.tasks[op.task].(state := Pending, payload := op.payload)])
          else ReplyAt(s, trace, i).Refused? && after == before)
  {
    ReachableStoresAreCoherent(s, trace, i);
    var before, op := StateAt(s, trace, i), trace[i].op;
    if op.task in before.tasks { assert TaskInv(before, op.task, before.tasks[op.task]); }
    RetryNamesItsTask(before, op);
  }

  /** The identity in the payload names the task it was stored under. */
  lemma RetryNamesItsTask(s: Store, op: Op)
    requires op.Retry? && (op.task in s.tasks ==> TaskInv(s, op.task, s.tasks[op.task]))
    ensures op.task in s.tasks && s.tasks[op.task].kind == "investigate" ==>
      op.task == "investigate" + "|" + s.tasks[op.task].due + "|" + s.tasks[op.task].payload.id
  {
  }

  // ------------------------------------------------------------ refusals

  /** What a refusal says of the store and the call it refused. */
  predicate Truthful(s: Store, now: Instant, op: Op, e: Error) {
    match e
    case DeliveryForbidden => op.Enqueue? && op.kind == "delivery"
    case UnknownKind => op.Enqueue? && !KnownKind(op.kind) && op.kind != "delivery"
    case BadDueSlot => op.Enqueue? && !ValidDueSlot(op.due)
    case BadPayload => op.Enqueue? || op.Retry?
    case PayloadConflict => op.Enqueue? || (op.Retry? && op.payload.Investigation?)
    case BadTtl => (op.TakeClaim? || op.Renew?) && op.ttl <= 0
    case NotFound => (op.TakeClaim? || op.Retry?) && op.task !in s.tasks
    case NotClaimable => op.TakeClaim? && op.task in s.tasks && (s.tasks[op.task].state == Completed || s.tasks[op.task].state == Failed)
    case LiveElsewhere => op.TakeClaim? && op.task in s.claims && s.claims[op.task].owner != op.owner && now < s.claims[op.task].expires
    case NoClaim => Fenced(op) && op.task !in s.claims
    case OwnerMismatch => Fenced(op) && op.task in s.claims && s.claims[op.task].owner != op.owner
    case GenerationMismatch =>
      Fenced(op) && op.task in s.claims && s.claims[op.task].owner == op.owner && s.claims[op.task].generation != op.generation
    case Expired =>
      Fenced(op) && op.task in s.claims && s.claims[op.task].owner == op.owner && s.claims[op.task].generation == op.generation
      && s.claims[op.task].expires <= now
    case NotInvestigation => op.Retry? && op.task in s.tasks && s.tasks[op.task].kind != "investigate"
    case NotRetryable => op.Retry? && op.task in s.tasks && s.tasks[op.task].kind == "investigate" && s.tasks[op.task].state != Failed
    case RoundNotNext =>
      op.Retry? && op.task in s.tasks && op.payload.Investigation? && s.tasks[op.task].payload.Investigation?
      && op.payload.round != s.tasks[op.task].payload.round + 1
  }

  predicate Fenced(op: Op) { op.Renew? || op.Complete? || op.AssertClaim? }

  /** Every refusal in every history is truthful, and what it refused changed nothing. */
  lemma RefusalsAreTruthful(s: Store, trace: seq<Timed>, i: nat)
    requires i < |trace| && ReplyAt(s, trace, i).Refused?
    ensures StateAt(s, trace, i + 1) == StateAt(s, trace, i)
    ensures Truthful(StateAt(s, trace, i), trace[i].now, trace[i].op, ReplyAt(s, trace, i).error)
  {
    StepRefusal(StateAt(s, trace, i), trace[i].now, trace[i].op);
  }

  lemma StepRefusal(s: Store, now: Instant, op: Op)
    requires Step(s, now, op).1.Refused?
    ensures Step(s, now, op).0 == s && Truthful(s, now, op, Step(s, now, op).1.error)
  {
  }
}
