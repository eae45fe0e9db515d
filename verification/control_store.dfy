/** The runtime-control store: tasks, fenced claims and run rows (control_store.py).

    One transaction is one step.  `Step` is the specification every method of `ControlDb`
    meets; the lemmas below it speak about any interleaving of steps by any owners. */
module ControlStore {
  import opened Ordering
  import opened UtcText

  type TaskId = string
  type Owner = string

  datatype TaskState = Pending | Claimed | Completed | Failed
  datatype Verdict = RunCompleted | RunFailed

  /** An investigation names one candidate; any other kind carries canonical JSON text. */
  datatype Payload =
    | Plain(json: string)
    | Investigation(id: string, candidate: string, lane: string, plan: string, category: string, round: int)

  datatype Task = Task(kind: string, due: string, jobKey: string, payload: Payload,
                       state: TaskState, generation: nat)
  datatype Claim = Claim(owner: Owner, generation: nat, attempt: nat, expires: Instant, claimedAt: Instant)
  datatype Run = Run(task: TaskId, owner: Owner, generation: nat, verdict: Verdict, finished: Instant)

  datatype Store = Store(tasks: map<TaskId, Task>, claims: map<TaskId, Claim>, runs: seq<Run>)

  datatype Op =
    | Enqueue(kind: string, due: string, payload: Payload)
    | TakeClaim(task: TaskId, owner: Owner, ttl: int)
    | Renew(task: TaskId, owner: Owner, generation: nat, ttl: int)
    | Complete(task: TaskId, owner: Owner, generation: nat, verdict: Verdict)
    | AssertClaim(task: TaskId, owner: Owner, generation: nat)
    | Retry(task: TaskId, payload: Payload)

  datatype Error =
    | UnknownKind | DeliveryForbidden | BadDueSlot | BadPayload | PayloadConflict
    | BadTtl | NotFound | NotClaimable | LiveElsewhere
    | NoClaim | OwnerMismatch | GenerationMismatch | Expired
    | NotInvestigation | NotRetryable | RoundNotNext

  datatype Reply =
    | Refused(error: Error)
    | Enqueued(task: TaskId, created: bool)
    | Granted(generation: nat, attempt: nat, expires: Instant)
    | Renewed(expires: Instant)
    | Recorded
    | StillHeld
    | Requeued

  const EMPTY := Store(map[], map[], [])
  const ALLOWED_KINDS: set<string> := {"ingest", "investigate", "process", "validate", "report"}
  const MAX_ROUNDS := 2

  // ------------------------------------------------------------ identities

  /** The text whose digest is the task id; the digest is taken to be injective. */
  function TaskIdOf(kind: string, due: string, jobKey: string): TaskId {
    if jobKey == "" then kind + "|" + due else kind + "|" + due + "|" + jobKey
  }

  /** A slot ends in Z.  The ISO reader takes any character between date and time, a bar too,
      but the date before it ends in a digit: a bar never follows a Z. */
  predicate ValidDueSlot(due: string) {
    due != "" && due[|due| - 1] == 'Z' && forall i :: 0 < i < |due| && due[i] == '|' ==> due[i - 1] != 'Z'
  }

  predicate ValidInvestigation(p: Payload) {
    && p.Investigation?
    && p.id != "" && p.candidate != "" && p.lane != "" && p.plan != "" && p.category != ""
    && 0 <= p.round < MAX_ROUNDS
  }

  predicate SameIdentity(p: Payload, q: Payload)
    requires p.Investigation? && q.Investigation?
  {
    p.id == q.id && p.candidate == q.candidate && p.lane == q.lane && p.plan == q.plan && p.category == q.category
  }

  lemma FirstBarSplits(a: string, b: string, x: string, y: string)
    requires '|' !in a && '|' !in b
    requires a + "|" + x == b + "|" + y
    ensures a == b && x == y
  {
    var s := a + "|" + x;
    assert s[|a|] == '|' && s[|b|] == '|';
    assert forall i :: 0 <= i < |a| ==> s[i] == a[i] && a[i] in a;
    assert forall i :: 0 <= i < |b| ==> s[i] == b[i] && b[i] in b;
    assert |a| == |b|;
    assert s[..|a|] == a && s[..|b|] == b;
    assert s[|a| + 1..] == x && s[|b| + 1..] == y;
  }

  lemma LateBarSplits(d: string, e: string, j: string, k: string)
    requires ValidDueSlot(d) && ValidDueSlot(e) && d + "|" + j == e + "|" + k
    ensures d == e && j == k
  {
    var s := d + "|" + j;
    assert s[|d|] == '|' && s[|e|] == '|' && s[|d| - 1] == 'Z' && s[|e| - 1] == 'Z';
    assert forall i :: 0 <= i < |d| ==> s[i] == d[i];
    assert forall i :: 0 <= i < |e| ==> s[i] == e[i];
    assert |d| == |e|;
    assert s[..|d|] == d && s[..|e|] == e;
    assert s[|d| + 1..] == j && s[|e| + 1..] == k;
  }

  /** Two tasks share an id only if kind, slot and job key all agree, although the three
      are joined into one text and the job key is optional. */
  lemma TaskIdIsInjective(k: string, d: string, j: string, k': string, d': string, j': string)
    requires k in ALLOWED_KINDS && k' in ALLOWED_KINDS && ValidDueSlot(d) && ValidDueSlot(d')
    requires (k == "investigate" <==> j != "") && (k' == "investigate" <==> j' != "")
    requires TaskIdOf(k, d, j) == TaskIdOf(k', d', j')
    ensures k == k' && d == d' && j == j'
  {
    assert '|' !in k && '|' !in k';
    var r := if j == "" then d else d + "|" + j;
    var r' := if j' == "" then d' else d' + "|" + j';
    assert TaskIdOf(k, d, j) == k + "|" + r && TaskIdOf(k', d', j') == k' + "|" + r';
    FirstBarSplits(k, k', r, r');
    if j != "" { LateBarSplits(d, d', j, j'); }
  }

  // ------------------------------------------------------------ one step

  function KindError(kind: string): (e: Option<Error>)
    ensures e.None? <==> kind in ALLOWED_KINDS
  {
    if kind == "delivery" then Some(DeliveryForbidden)
    else if kind !in ALLOWED_KINDS then Some(UnknownKind) else None
  }

  function EnqueueStep(s: Store, kind: string, due: string, payload: Payload): (Store, Reply) {
    if KindError(kind).Some? then (s, Refused(KindError(kind).value))
    else if !ValidDueSlot(due) then (s, Refused(BadDueSlot))
    else if kind == "investigate" && !ValidInvestigation(payload) then (s, Refused(BadPayload))
    else
      var jobKey := if kind == "investigate" then payload.id else "";
      var t := TaskIdOf(kind, due, jobKey);
      if t in s.tasks then
        (s, if s.tasks[t].payload != payload then Refused(PayloadConflict) else Enqueued(t, false))
      else
        (s.(tasks := s.tasks[t := Task(kind, due, jobKey, payload, Pending, 0)]), Enqueued(t, true))
  }

  function Grant(s: Store, t: TaskId, c: Claim): (Store, Reply)
    requires t in s.tasks
  {
    (s.(tasks := s.tasks[t := s.tasks[t].(state := Claimed, generation := c.generation)],
        claims := s.claims[t := c]),
     Granted(c.generation, c.attempt, c.expires))
  }

  function ClaimStep(s: Store, now: Instant, t: TaskId, owner: Owner, ttl: int): (Store, Reply) {
    if ttl <= 0 then (s, Refused(BadTtl))
    else if t !in s.tasks then (s, Refused(NotFound))
    else if s.tasks[t].state.Completed? || s.tasks[t].state.Failed? then (s, Refused(NotClaimable))
    else if t !in s.claims then
      Grant(s, t, Claim(owner, s.tasks[t].generation + 1, 1, now + ttl * SECOND, now))
    else
      var c := s.claims[t];
      if c.expires <= now then
        Grant(s, t, Claim(owner, c.generation + 1, c.attempt + 1, now + ttl * SECOND, now))
      else if c.owner != owner then (s, Refused(LiveElsewhere))
      else (s, Granted(c.generation, c.attempt, c.expires))
  }

  /** The check renew, complete and assert share: owner, then generation, then expiry. */
  function FenceError(s: Store, now: Instant, t: TaskId, owner: Owner, generation: nat): Option<Error> {
    if t !in s.claims then Some(NoClaim)
    else if s.claims[t].owner != owner then Some(OwnerMismatch)
    else if s.claims[t].generation != generation then Some(GenerationMismatch)
    else if s.claims[t].expires <= now then Some(Expired)
    else None
  }

  function RenewStep(s: Store, now: Instant, t: TaskId, owner: Owner, generation: nat, ttl: int): (Store, Reply) {
    if ttl <= 0 then (s, Refused(BadTtl))
    else
      match FenceError(s, now, t, owner, generation)
      case Some(e) => (s, Refused(e))
      case None =>
        var expires := now + ttl * SECOND;
        (s.(claims := s.claims[t := s.claims[t].(expires := expires, claimedAt := now)]), Renewed(expires))
  }

  function VerdictState(v: Verdict): TaskState {
    match v case RunCompleted => Completed case RunFailed => Failed
  }

  function CompleteStep(s: Store, now: Instant, t: TaskId, owner: Owner, generation: nat, v: Verdict): (Store, Reply) {
    match FenceError(s, now, t, owner, generation)
    case Some(e) => (s, Refused(e))
    case None =>
      (Store(if t in s.tasks then s.tasks[t := s.tasks[t].(state := VerdictState(v))] else s.tasks,
             s.claims - {t},
             s.runs + [Run(t, owner, generation, v, now)]),
       Recorded)
  }

  function AssertStep(s: Store, now: Instant, t: TaskId, owner: Owner, generation: nat): (Store, Reply) {
    match FenceError(s, now, t, owner, generation)
    case Some(e) => (s, Refused(e))
    case None => (s, StillHeld)
  }

  function RetryStep(s: Store, t: TaskId, payload: Payload): (Store, Reply) {
    if !ValidInvestigation(payload) then (s, Refused(BadPayload))
    else if t !in s.tasks then (s, Refused(NotFound))
    else
      var row := s.tasks[t];
      if row.kind != "investigate" then (s, Refused(NotInvestigation))
      else if TaskIdOf("investigate", row.due, payload.id) != t then (s, Refused(PayloadConflict))
      else if !row.state.Failed? then (s, Refused(NotRetryable))
      else if !ValidInvestigation(row.payload) then (s, Refused(BadPayload))
      else if !SameIdentity(row.payload, payload) then (s, Refused(PayloadConflict))
      else if payload.round != row.payload.round + 1 then (s, Refused(RoundNotNext))
      else (s.(tasks := s.tasks[t := row.(state := Pending, payload := payload)]), Requeued)
  }

  function Step(s: Store, now: Instant, op: Op): (Store, Reply) {
    match op
    case Enqueue(kind, due, payload) => EnqueueStep(s, kind, due, payload)
    case TakeClaim(t, owner, ttl) => ClaimStep(s, now, t, owner, ttl)
    case Renew(t, owner, g, ttl) => RenewStep(s, now, t, owner, g, ttl)
    case Complete(t, owner, g, v) => CompleteStep(s, now, t, owner, g, v)
    case AssertClaim(t, owner, g) => AssertStep(s, now, t, owner, g)
    case Retry(t, payload) => RetryStep(s, t, payload)
  }

  // ------------------------------------------------------------ the selector

  function DueOf(tasks: map<TaskId, Task>, t: TaskId): string {
    if t in tasks then tasks[t].due else ""
  }

  /** ORDER BY due slot, then task id. */
  function SlotOrder(tasks: map<TaskId, Task>): (TaskId, TaskId) -> bool {
    (a, b) => TextLess(DueOf(tasks, a), DueOf(tasks, b)) || (DueOf(tasks, a) == DueOf(tasks, b) && TextLess(a, b))
  }

  lemma SlotOrderIsStrictTotal(tasks: map<TaskId, Task>)
    ensures StrictTotal(SlotOrder(tasks))
  {
    var lt := SlotOrder(tasks);
    forall a, b ensures !lt(a, a) && (a != b ==> lt(a, b) || lt(b, a)) {
      TextLessTrichotomy(a, a);
      TextLessTrichotomy(a, b);
      TextLessTrichotomy(DueOf(tasks, a), DueOf(tasks, a));
      TextLessTrichotomy(DueOf(tasks, a), DueOf(tasks, b));
    }
    forall a, b, c | lt(a, b) && lt(b, c) ensures lt(a, c) {
      var x, y, z := DueOf(tasks, a), DueOf(tasks, b), DueOf(tasks, c);
      if TextLess(x, y) && TextLess(y, z) { TextLessTransitive(x, y, z); }
      if x == y == z { TextLessTransitive(a, b, c); }
    }
  }

  /** The rows the SQL query returns: pending, or claimed with a claim row. */
  function QueryRows(s: Store, kind: string): set<TaskId> {
    set t | t in s.tasks && s.tasks[t].kind == kind &&
            (s.tasks[t].state.Pending? || (s.tasks[t].state.Claimed? && t in s.claims))
  }

  /** The filter applied to each row: it compares timestamps as text. */
  predicate PassesCutoff(s: Store, t: TaskId, cutoff: string) {
    t in s.tasks && (s.tasks[t].state.Pending? || (t in s.claims && TextAtMost(Print(s.claims[t].expires), cutoff)))
  }

  function Cutoff(s: Store, now: Instant): TaskId -> bool {
    t => PassesCutoff(s, t, Print(now))
  }

  function QueryInOrder(s: Store, kind: string): seq<TaskId> {
    SlotOrderIsStrictTotal(s.tasks);
    InOrder(QueryRows(s, kind), SlotOrder(s.tasks))
  }

  function Selectable(s: Store, kind: string, now: Instant): seq<TaskId> {
    SlotOrderIsStrictTotal(s.tasks);
    InOrder(Chosen(QueryRows(s, kind), Cutoff(s, now)), SlotOrder(s.tasks))
  }

  /** Ordering the query's rows and then filtering them gives the selectable rows. */
  lemma SelectableByFilter(s: Store, kind: string, now: Instant)
    ensures Filter(QueryInOrder(s, kind), Cutoff(s, now)) == Selectable(s, kind, now)
  {
    SlotOrderIsStrictTotal(s.tasks);
    FilterOfInOrder(QueryRows(s, kind), SlotOrder(s.tasks), Cutoff(s, now));
  }

  function Cut<T>(s: seq<T>, limit: Option<nat>): seq<T> {
    if limit.Some? && limit.value < |s| then s[..limit.value] else s
  }

  method KeepPassing(rows: seq<TaskId>, passes: TaskId -> bool) returns (kept: seq<TaskId>)
    ensures kept == Filter(rows, passes)
  {
    kept := [];
    for i := 0 to |rows|
      invariant kept == Filter(rows[..i], passes)
    {
      assert rows[..i + 1][..i] == rows[..i];
      if passes(rows[i]) {
        kept := kept + [rows[i]];
      }
    }
    assert rows[..|rows|] == rows;
  }

  // ------------------------------------------------------------ the store itself

  class ControlDb {
    var tasks: map<TaskId, Task>
    var claims: map<TaskId, Claim>
    var runs: seq<Run>

    function Model(): Store
      reads this
    {
      Store(tasks, claims, runs)
    }

    constructor ()
      ensures Model() == EMPTY
    {
      tasks, claims, runs := map[], map[], [];
    }

    method Enqueue(kind: string, due: string, payload: Payload, now: Instant) returns (r: Reply)
      modifies this`tasks
      ensures (Model(), r) == Step(old(Model()), now, Op.Enqueue(kind, due, payload))
    {
      var bad := KindError(kind);
      if bad.Some? { return Refused(bad.value); }
      if !ValidDueSlot(due) { return Refused(BadDueSlot); }
      var jobKey := "";
      if kind == "investigate" {
        if !ValidInvestigation(payload) { return Refused(BadPayload); }
        jobKey := payload.id;
      }
      var t := TaskIdOf(kind, due, jobKey);
      if t in tasks {
        if tasks[t].payload != payload { return Refused(PayloadConflict); }
        return Enqueued(t, false);
      }
      tasks := tasks[t := Task(kind, due, jobKey, payload, Pending, 0)];
      return Enqueued(t, true);
    }

    method TakeClaim(t: TaskId, owner: Owner, ttl: int, now: Instant) returns (r: Reply)
      modifies this`tasks, this`claims
      ensures (Model(), r) == Step(old(Model()), now, Op.TakeClaim(t, owner, ttl))
    {
      if ttl <= 0 { return Refused(BadTtl); }
      var expires := now + ttl * SECOND;
      if t !in tasks { return Refused(NotFound); }
      if !(tasks[t].state.Pending? || tasks[t].state.Claimed?) { return Refused(NotClaimable); }
      if t !in claims {
        var generation := tasks[t].generation + 1;
        claims := claims[t := Claim(owner, generation, 1, expires, now)];
        tasks := tasks[t := tasks[t].(state := Claimed, generation := generation)];
        return Granted(generation, 1, expires);
      }
      var c := claims[t];
      if c.expires <= now {
        claims := claims[t := Claim(owner, c.generation + 1, c.attempt + 1, expires, now)];
        tasks := tasks[t := tasks[t].(state := Claimed, generation := c.generation + 1)];
        return Granted(c.generation + 1, c.attempt + 1, expires);
      }
      if c.owner != owner { return Refused(LiveElsewhere); }
      return Granted(c.generation, c.attempt, c.expires);
    }

    method Renew(t: TaskId, owner: Owner, generation: nat, ttl: int, now: Instant) returns (r: Reply)
      modifies this`claims
      ensures (Model(), r) == Step(old(Model()), now, Op.Renew(t, owner, generation, ttl))
    {
      if ttl <= 0 { return Refused(BadTtl); }
      var bad := FenceError(Model(), now, t, owner, generation);
      if bad.Some? { return Refused(bad.value); }
      var expires := now + ttl * SECOND;
      claims := claims[t := claims[t].(expires := expires, claimedAt := now)];
      return Renewed(expires);
    }

    method Complete(t: TaskId, owner: Owner, generation: nat, verdict: Verdict, now: Instant) returns (r: Reply)
      modifies this
      ensures (Model(), r) == Step(old(Model()), now, Op.Complete(t, owner, generation, verdict))
    {
      var bad := FenceError(Model(), now, t, owner, generation);
      if bad.Some? { return Refused(bad.value); }
      runs := runs + [Run(t, owner, generation, verdict, now)];
      if t in tasks {
        tasks := tasks[t := tasks[t].(state := VerdictState(verdict))];
      }
      claims := claims - {t};
      return Recorded;
    }

    method AssertClaim(t: TaskId, owner: Owner, generation: nat, now: Instant) returns (r: Reply)
      ensures (Model(), r) == Step(Model(), now, Op.AssertClaim(t, owner, generation))
    {
      var bad := FenceError(Model(), now, t, owner, generation);
      return if bad.Some? then Refused(bad.value) else StillHeld;
    }

    method Retry(t: TaskId, payload: Payload, now: Instant) returns (r: Reply)
      modifies this`tasks
      ensures (Model(), r) == Step(old(Model()), now, Op.Retry(t, payload))
    {
      if !ValidInvestigation(payload) { return Refused(BadPayload); }
      if t !in tasks { return Refused(NotFound); }
      var row := tasks[t];
      if row.kind != "investigate" { return Refused(NotInvestigation); }
      if TaskIdOf("investigate", row.due, payload.id) != t { return Refused(PayloadConflict); }
      if !row.state.Failed? { return Refused(NotRetryable); }
      if !ValidInvestigation(row.payload) { return Refused(BadPayload); }
      if !SameIdentity(row.payload, payload) { return Refused(PayloadConflict); }
      if payload.round != row.payload.round + 1 { return Refused(RoundNotNext); }
      tasks := tasks[t := row.(state := Pending, payload := payload)];
      return Requeued;
    }

    /** The eligible rows in order, cut to `limit` when one is given. */
    method SelectableTasks(kind: string, now: Instant, limit: Option<nat>) returns (ids: seq<TaskId>)
      ensures ids == Cut(Selectable(Model(), kind, now), limit)
    {
      var rows := QueryInOrder(Model(), kind);
      var eligible := KeepPassing(rows, Cutoff(Model(), now));
      SelectableByFilter(Model(), kind, now);
      return Cut(eligible, limit);
    }

    /** One operation of whichever kind, as a caller of the module makes it. */
    method Perform(now: Instant, op: Op) returns (r: Reply)
      modifies this
      ensures (Model(), r) == Step(old(Model()), now, op)
    {
      match op
      case Enqueue(kind, due, payload) => r := Enqueue(kind, due, payload, now);
      case TakeClaim(t, owner, ttl) => r := TakeClaim(t, owner, ttl, now);
      case Renew(t, owner, g, ttl) => r := Renew(t, owner, g, ttl, now);
      case Complete(t, owner, g, v) => r := Complete(t, owner, g, v, now);
      case AssertClaim(t, owner, g) => r := AssertClaim(t, owner, g, now);
      case Retry(t, payload) => r := Retry(t, payload, now);
    }
  }

  // ------------------------------------------------------------ runs of the store

  datatype Timed = Timed(now: Instant, op: Op)

  function StateAt(s: Store, trace: seq<Timed>, i: nat): Store
    requires i <= |trace|
  {
    if i == 0 then s else Step(StateAt(s, trace, i - 1), trace[i - 1].now, trace[i - 1].op).0
  }

  function ReplyAt(s: Store, trace: seq<Timed>, i: nat): Reply
    requires i < |trace|
  {
    Step(StateAt(s, trace, i), trace[i].now, trace[i].op).1
  }

  /** What every reachable store satisfies. */
  ghost predicate Inv(s: Store) {
    && s.claims.Keys <= s.tasks.Keys
    && (forall t :: t in s.tasks ==> TaskInv(s, t, s.tasks[t]))
    && (forall i :: 0 <= i < |s.runs| ==> s.runs[i].task in s.tasks)
  }

  ghost predicate TaskInv(s: Store, t: TaskId, row: Task) {
    NamedRight(t, row) && PhaseInv(s, t, row)
  }

  ghost predicate NamedRight(t: TaskId, row: Task) {
    && t == TaskIdOf(row.kind, row.due, row.jobKey)
    && row.kind in ALLOWED_KINDS && ValidDueSlot(row.due)
    && (row.kind == "investigate" <==> row.jobKey != "")
    && (row.kind == "investigate" ==> ValidInvestigation(row.payload) && row.payload.id == row.jobKey)
  }

  ghost predicate PhaseInv(s: Store, t: TaskId, row: Task) {
    && (row.state == Claimed <==> t in s.claims)
    && (t in s.claims ==> s.claims[t].generation == row.generation && row.generation >= 1)
    && (row.state == Completed || row.state == Failed ==> row.generation >= 1)
  }

  function Target(op: Op): TaskId {
    match op
    case Enqueue(kind, due, p) =>
      TaskIdOf(kind, due, if kind == "investigate" && p.Investigation? then p.id else "")
    case _ => op.task
  }

  ghost predicate SameRow(s: Store, s': Store, t: TaskId) {
    && (t in s'.tasks <==> t in s.tasks) && (t in s.tasks ==> s'.tasks[t] == s.tasks[t])
    && (t in s'.claims <==> t in s.claims) && (t in s.claims ==> s'.claims[t] == s.claims[t])
  }

  /** A step touches the row and the claim of one task only. */
  lemma OthersUnchanged(s: Store, now: Instant, op: Op, t: TaskId)
    requires t != Target(op)
    ensures SameRow(s, Step(s, now, op).0, t)
  {
  }

  /** Run rows are only ever appended, for the task the operation names. */
  lemma RunsGrow(s: Store, now: Instant, op: Op)
    ensures var s' := Step(s, now, op).0;
      if op.Complete? && FenceError(s, now, op.task, op.owner, op.generation).None?
      then s'.runs == s.runs + [Run(op.task, op.owner, op.generation, op.verdict, now)]
      else s'.runs == s.runs
  {
  }

  lemma TargetKeepsName(s: Store, now: Instant, op: Op)
    requires Target(op) in s.tasks ==> NamedRight(Target(op), s.tasks[Target(op)])
    ensures var s' := Step(s, now, op).0;
      Target(op) in s'.tasks ==> NamedRight(Target(op), s'.tasks[Target(op)])
  {
  }

  lemma TargetKeepsPhase(s: Store, now: Instant, op: Op)
    requires Target(op) in s.claims ==> Target(op) in s.tasks
    requires Target(op) in s.tasks ==> PhaseInv(s, Target(op), s.tasks[Target(op)])
    ensures var s' := Step(s, now, op).0;
      Target(op) in s'.tasks ==> PhaseInv(s', Target(op), s'.tasks[Target(op)])
  {
  }

  lemma SameRowKeepsTaskInv(s: Store, s': Store, t: TaskId)
    requires SameRow(s, s', t) && t in s.tasks && TaskInv(s, t, s.tasks[t])
    ensures TaskInv(s', t, s'.tasks[t])
  {
  }

  lemma StepKeepsInv(s: Store, now: Instant, op: Op)
    requires Inv(s)
    ensures Inv(Step(s, now, op).0)
  {
    var s', t0 := Step(s, now, op).0, Target(op);
    if t0 in s.tasks { assert TaskInv(s, t0, s.tasks[t0]); }
    TargetKeepsName(s, now, op);
    TargetKeepsPhase(s, now, op);
    forall t | t in s'.tasks ensures TaskInv(s', t, s'.tasks[t]) {
      if t != t0 {
        OthersUnchanged(s, now, op, t);
        SameRowKeepsTaskInv(s, s', t);
      }
    }
    forall t | t in s'.claims ensures t in s'.tasks {
      if t != t0 { OthersUnchanged(s, now, op, t); } else { TargetStays(s, now, op); }
    }
    RunsGrow(s, now, op);
    forall i | 0 <= i < |s'.runs| ensures s'.runs[i].task in s'.tasks {
      if s'.runs[i].task == t0 { TargetStays(s, now, op); }
      else { OthersUnchanged(s, now, op, s'.runs[i].task); }
    }
  }

  lemma TargetStays(s: Store, now: Instant, op: Op)
    requires Target(op) in s.claims ==> Target(op) in s.tasks
    ensures Target(op) in s.tasks ==> Target(op) in Step(s, now, op).0.tasks
    ensures Target(op) in Step(s, now, op).0.claims ==> Target(op) in Step(s, now, op).0.tasks
  {
  }

  /** State is `claimed` exactly when a claim row exists, and their generations agree. */
  lemma {:induction false} ReachableStoresAreCoherent(s: Store, trace: seq<Timed>, i: nat)
    requires Inv(s) && i <= |trace|
    ensures Inv(StateAt(s, trace, i))
  {
    if i > 0 {
      ReachableStoresAreCoherent(s, trace, i - 1);
      StepKeepsInv(StateAt(s, trace, i - 1), trace[i - 1].now, trace[i - 1].op);
    }
  }
}
