/** enqueue_due_slots (scheduler.py) against the control store, and any run of overlapping
    sweeps with workers acting in between. */
module Sweeps {
  import opened Ordering
  import opened UtcText
  import opened SlotText
  import opened ControlStore
  import opened Scheduler

  // ------------------------------------------------------------ the payload of a slot

  function Owners(blocks: seq<Block>, offset: int, kind: string, k: int): seq<Payload> {
    if blocks == [] then [] else
      Owners(blocks[..|blocks| - 1], offset, kind, k)
      + (if blocks[|blocks| - 1].kind == kind && Matches(blocks[|blocks| - 1], offset, k) then [blocks[|blocks| - 1].payload] else [])
  }

  /** `_payload_for_slot`; None is the error for a slot nobody owns or whose owners disagree. */
  function PayloadFor(s: Slot, blocks: seq<Block>, offset: int): Option<Payload> {
    match ParseShort(s.due)
    case None => None
    case Some(t) =>
      var owners := Owners(blocks, offset, s.kind, t / MINUTE);
      if owners == [] || exists i :: 0 <= i < |owners| && owners[i] != owners[0] then None else Some(owners[0])
  }

  /** Blocks of one kind that claim the same minute carry the same payload. */
  ghost predicate Agreeing(blocks: seq<Block>, offset: int) {
    forall k: nat, a, b :: a in blocks && b in blocks && a.kind == b.kind && Matches(a, offset, k) && Matches(b, offset, k) ==>
      a.payload == b.payload
  }

  lemma {:induction false} OwnersAre(blocks: seq<Block>, offset: int, kind: string, k: int, p: Payload)
    ensures p in Owners(blocks, offset, kind, k) <==> exists b :: b in blocks && b.kind == kind && Matches(b, offset, k) && b.payload == p
  {
    if blocks != [] {
      var init, last := blocks[..|blocks| - 1], blocks[|blocks| - 1];
      OwnersAre(init, offset, kind, k, p);
      assert blocks == init + [last];
    }
  }

  lemma SlotReadsBack(kind: string, k: nat)
    requires Printable(k * MINUTE)
    ensures ParseShort(SlotAt(kind, k).due) == Some(k * MINUTE) && k * MINUTE / MINUTE == k
  {
    WholeSeconds(k);
    ShortReadsBack(k * MINUTE);
  }

  /** A matching minute gets its owner's payload, whichever owner is asked. */
  lemma OwnerPays(blocks: seq<Block>, offset: int, k: nat, b: Block)
    requires Agreeing(blocks, offset) && b in blocks && Matches(b, offset, k) && Printable(k * MINUTE)
    ensures PayloadFor(SlotAt(b.kind, k), blocks, offset) == Some(b.payload)
  {
    SlotReadsBack(b.kind, k);
    var owners := Owners(blocks, offset, b.kind, k);
    OwnersAre(blocks, offset, b.kind, k, b.payload);
    forall i | 0 <= i < |owners| ensures owners[i] == b.payload { OwnersAre(blocks, offset, b.kind, k, owners[i]); }
  }

  /** A slot has a payload exactly when some matching block of its kind carries it and every such
      block carries the same. */
  lemma PayloadIff(blocks: seq<Block>, offset: int, kind: string, k: nat, p: Payload)
    requires Printable(k * MINUTE)
    ensures PayloadFor(SlotAt(kind, k), blocks, offset) == Some(p) <==>
      && (exists b :: b in blocks && b.kind == kind && Matches(b, offset, k) && b.payload == p)
      && (forall b :: b in blocks && b.kind == kind && Matches(b, offset, k) ==> b.payload == p)
  {
    SlotReadsBack(kind, k);
    var owners := Owners(blocks, offset, kind, k);
    OwnersAre(blocks, offset, kind, k, p);
    forall b | b in blocks && b.kind == kind && Matches(b, offset, k) ensures b.payload in owners {
      OwnersAre(blocks, offset, kind, k, b.payload);
    }
    forall i | 0 <= i < |owners| ensures exists b :: b in blocks && b.kind == kind && Matches(b, offset, k) && b.payload == owners[i] {
      OwnersAre(blocks, offset, kind, k, owners[i]);
    }
  }

  // ------------------------------------------------------------ one sweep

  datatype Row = Row(slot: Slot, created: bool)
  datatype Progress = Going(store: Store, rows: seq<Row>) | Stopped(store: Store)

  function EnqueueSome(s: Store, slots: seq<Slot>, blocks: seq<Block>, offset: int, n: nat): Progress
    requires n <= |slots|
  {
    if n == 0 then Going(s, [])
    else
      var p := EnqueueSome(s, slots, blocks, offset, n - 1);
      if p.Stopped? then p else EnqueueOne(p, slots[n - 1], blocks, offset)
  }

  function SweepSlots(blocks: seq<Block>, now: Instant, horizon: nat, offset: int): seq<Slot> {
    SlotLessIsStrictTotal();
    InOrder(DueSlots(blocks, now, horizon, offset), SlotLess())
  }

  function SweepOf(s: Store, blocks: seq<Block>, now: Instant, horizon: nat, offset: int): Progress {
    var slots := SweepSlots(blocks, now, horizon, offset);
    EnqueueSome(s, slots, blocks, offset, |slots|)
  }

  function EnqueueOne(p: Progress, slot: Slot, blocks: seq<Block>, offset: int): Progress
    requires p.Going?
  {
    match PayloadFor(slot, blocks, offset)
    case None => Stopped(p.store)
    case Some(payload) =>
      var (next, reply) := EnqueueStep(p.store, slot.kind, slot.due, payload);
      if reply.Enqueued? then Going(next, p.rows + [Row(slot, reply.created)]) else Stopped(next)
  }

  method EnqueueSlot(db: ControlDb, slot: Slot, blocks: seq<Block>, offset: int, now: Instant, ghost rows: seq<Row>)
    returns (created: Option<bool>)
    modifies db
    ensures EnqueueOne(Going(old(db.Model()), rows), slot, blocks, offset) ==
      if created.Some? then Going(db.Model(), rows + [Row(slot, created.value)]) else Stopped(db.Model())
  {
    var payload := PayloadFor(slot, blocks, offset);
    if payload.None? { return None; }
    var reply := db.Enqueue(slot.kind, slot.due, payload.value, now);
    created := if reply.Enqueued? then Some(reply.created) else None;
  }

  method EnqueueEach(db: ControlDb, slots: seq<Slot>, blocks: seq<Block>, offset: int, now: Instant) returns (rows: Option<seq<Row>>)
    modifies db
    ensures EnqueueSome(old(db.Model()), slots, blocks, offset, |slots|) ==
      if rows.Some? then Going(db.Model(), rows.value) else Stopped(db.Model())
  {
    ghost var start := db.Model();
    var done: seq<Row> := [];
    for i := 0 to |slots|
      invariant Going(db.Model(), done) == EnqueueSome(start, slots, blocks, offset, i)
    {
      var created := EnqueueSlot(db, slots[i], blocks, offset, now, done);
      if created.None? {
        StopStays(start, slots, blocks, offset, i + 1);
        return None;
      }
      done := done + [Row(slots[i], created.value)];
    }
    return Some(done);
  }

  method EnqueueDueSlots(db: ControlDb, blocks: seq<Block>, now: Instant, horizon: nat, offset: int) returns (rows: Option<seq<Row>>)
    requires Printable(Horizon(now, horizon) + MINUTE)
    modifies db
    ensures SweepOf(old(db.Model()), blocks, now, horizon, offset) ==
      if rows.Some? then Going(db.Model(), rows.value) else Stopped(db.Model())
  {
    var slots := ComputeDueSlots(blocks, now, horizon, offset);
    rows := EnqueueEach(db, slots, blocks, offset, now);
  }

  lemma {:induction false} StopStays(s: Store, slots: seq<Slot>, blocks: seq<Block>, offset: int, n: nat)
    requires n <= |slots| && EnqueueSome(s, slots, blocks, offset, n).Stopped?
    ensures EnqueueSome(s, slots, blocks, offset, |slots|) == EnqueueSome(s, slots, blocks, offset, n)
    decreases |slots| - n
  {
    if n < |slots| { StopStays(s, slots, blocks, offset, n + 1); }
  }

  // ------------------------------------------------------------ what a sweep does

  function IdOf(s: Slot): TaskId { TaskIdOf(s.kind, s.due, "") }

  /** A slot some block claims, of a kind the scheduler may enqueue by itself. */
  ghost predicate Claimed(blocks: seq<Block>, offset: int, s: Slot, k: nat, b: Block) {
    b in blocks && Matches(b, offset, k) && Printable(k * MINUTE) && s == SlotAt(b.kind, k)
    && b.kind in ALLOWED_KINDS && b.kind != "investigate"
  }

  ghost predicate ClaimedSlot(blocks: seq<Block>, offset: int, s: Slot) { exists k: nat, b :: Claimed(blocks, offset, s, k, b) }

  /** Tasks already standing at claimed slots carry the schedule's payload. */
  ghost predicate Consistent(s: Store, blocks: seq<Block>, offset: int) {
    forall slot :: ClaimedSlot(blocks, offset, slot) && IdOf(slot) in s.tasks ==> Fits(s, blocks, offset, slot)
  }

  predicate Fits(s: Store, blocks: seq<Block>, offset: int, slot: Slot)
    requires IdOf(slot) in s.tasks
  {
    s.tasks[IdOf(slot)].kind != "investigate" && PayloadFor(slot, blocks, offset) == Some(s.tasks[IdOf(slot)].payload)
  }

  lemma ClaimedSlotIsValid(blocks: seq<Block>, offset: int, s: Slot)
    requires ClaimedSlot(blocks, offset, s)
    ensures ValidDueSlot(s.due) && s.kind in ALLOWED_KINDS && s.kind != "investigate"
  {
    var k: nat, b :| Claimed(blocks, offset, s, k, b);
    WholeSeconds(k);
    ShortShape(k * MINUTE);
  }

  lemma IdsDiffer(blocks: seq<Block>, offset: int, s: Slot, r: Slot)
    requires ClaimedSlot(blocks, offset, s) && ClaimedSlot(blocks, offset, r) && IdOf(s) == IdOf(r)
    ensures s == r
  {
    ClaimedSlotIsValid(blocks, offset, s);
    ClaimedSlotIsValid(blocks, offset, r);
    TaskIdIsInjective(s.kind, s.due, "", r.kind, r.due, "");
  }

  /** Enqueueing one claimed slot in a consistent store always succeeds, and creates the task
      exactly when it is new. */
  lemma EnqueueClaimed(s: Store, blocks: seq<Block>, offset: int, slot: Slot)
    requires Consistent(s, blocks, offset) && Agreeing(blocks, offset) && ClaimedSlot(blocks, offset, slot)
    ensures PayloadFor(slot, blocks, offset).Some?
    ensures var (s', reply) := EnqueueStep(s, slot.kind, slot.due, PayloadFor(slot, blocks, offset).value);
      && reply == Enqueued(IdOf(slot), IdOf(slot) !in s.tasks)
      && s'.tasks.Keys == s.tasks.Keys + {IdOf(slot)}
      && Consistent(s', blocks, offset)
  {
    var k: nat, b :| Claimed(blocks, offset, slot, k, b);
    OwnerPays(blocks, offset, k, b);
    ClaimedSlotIsValid(blocks, offset, slot);
    if IdOf(slot) in s.tasks { assert Fits(s, blocks, offset, slot); }
    var s' := EnqueueStep(s, slot.kind, slot.due, b.payload).0;
    forall r | ClaimedSlot(blocks, offset, r) && IdOf(r) in s'.tasks ensures Fits(s', blocks, offset, r) {
      if IdOf(r) in s.tasks {
        assert Fits(s, blocks, offset, r);
      } else {
        IdsDiffer(blocks, offset, r, slot);
      }
    }
  }

  function Ids(slots: seq<Slot>): set<TaskId> { set i | 0 <= i < |slots| :: IdOf(slots[i]) }

  /** After n slots: nothing stopped, the n tasks stand, and each row tells whether its task
      was there before the sweep. */
  ghost predicate SweptTo(s: Store, slots: seq<Slot>, blocks: seq<Block>, offset: int, n: nat, p: Progress)
    requires n <= |slots|
  {
    && p.Going? && Consistent(p.store, blocks, offset)
    && p.store.tasks.Keys == s.tasks.Keys + Ids(slots[..n])
    && |p.rows| == n
    && forall i :: 0 <= i < n ==> p.rows[i] == Row(slots[i], IdOf(slots[i]) !in s.tasks)
  }

  lemma NotYetSwept(slots: seq<Slot>, blocks: seq<Block>, offset: int, n: nat)
    requires n < |slots| && NoRepeats(slots) && forall i :: 0 <= i < |slots| ==> ClaimedSlot(blocks, offset, slots[i])
    ensures IdOf(slots[n]) !in Ids(slots[..n])
    ensures Ids(slots[..n + 1]) == Ids(slots[..n]) + {IdOf(slots[n])}
  {
    var front := slots[..n];
    forall i | 0 <= i < |front| ensures IdOf(front[i]) != IdOf(slots[n]) {
      assert front[i] == slots[i];
      if IdOf(slots[i]) == IdOf(slots[n]) { IdsDiffer(blocks, offset, slots[i], slots[n]); }
    }
    assert slots[..n + 1] == front + [slots[n]];
    IdsAppend(front, slots[n]);
  }

  lemma SweepOne(s: Store, slots: seq<Slot>, blocks: seq<Block>, offset: int, n: nat, p: Progress)
    requires Agreeing(blocks, offset) && n < |slots| && NoRepeats(slots)
    requires forall i :: 0 <= i < |slots| ==> ClaimedSlot(blocks, offset, slots[i])
    requires SweptTo(s, slots, blocks, offset, n, p)
    ensures SweptTo(s, slots, blocks, offset, n + 1, EnqueueOne(p, slots[n], blocks, offset))
  {
    NotYetSwept(slots, blocks, offset, n);
    OneRow(p, blocks, offset, slots[n]);
  }

  lemma OneRow(p: Progress, blocks: seq<Block>, offset: int, slot: Slot)
    requires p.Going? && Consistent(p.store, blocks, offset) && Agreeing(blocks, offset) && ClaimedSlot(blocks, offset, slot)
    ensures var q := EnqueueOne(p, slot, blocks, offset);
      && q.Going? && Consistent(q.store, blocks, offset)
      && q.store.tasks.Keys == p.store.tasks.Keys + {IdOf(slot)}
      && q.rows == p.rows + [Row(slot, IdOf(slot) !in p.store.tasks)]
  {
    EnqueueClaimed(p.store, blocks, offset, slot);
  }

  lemma {:induction false} SweepFacts(s: Store, slots: seq<Slot>, blocks: seq<Block>, offset: int, n: nat)
    requires Consistent(s, blocks, offset) && Agreeing(blocks, offset) && n <= |slots| && NoRepeats(slots)
    requires forall i :: 0 <= i < |slots| ==> ClaimedSlot(blocks, offset, slots[i])
    ensures SweptTo(s, slots, blocks, offset, n, EnqueueSome(s, slots, blocks, offset, n))
  {
    if n == 0 {
      assert Ids(slots[..0]) == {};
    } else {
      SweepFacts(s, slots, blocks, offset, n - 1);
      SweepOne(s, slots, blocks, offset, n - 1, EnqueueSome(s, slots, blocks, offset, n - 1));
    }
  }

  lemma IdsAppend(slots: seq<Slot>, slot: Slot)
    ensures Ids(slots + [slot]) == Ids(slots) + {IdOf(slot)}
  {
    var more := slots + [slot];
    assert more[|slots|] == slot;
    forall id | id in Ids(slots) ensures id in Ids(more) {
      var i :| 0 <= i < |slots| && IdOf(slots[i]) == id;
      assert more[i] == slots[i];
    }
  }

  ghost predicate Schedulable(blocks: seq<Block>) {
    forall b :: b in blocks ==> b.kind in ALLOWED_KINDS && b.kind != "investigate"
  }

  lemma DueIsClaimed(blocks: seq<Block>, now: Instant, horizon: nat, offset: int, s: Slot)
    requires Schedulable(blocks) && Printable(Horizon(now, horizon) + MINUTE)
    requires s in DueSlots(blocks, now, horizon, offset)
    ensures ClaimedSlot(blocks, offset, s)
  {
    var k, b := SlotMinute(blocks, now, offset, Horizon(now, horizon) / MINUTE + 1, s);
    PrintableBefore(k * MINUTE, Horizon(now, horizon) + MINUTE);
    assert Claimed(blocks, offset, s, k, b);
  }

  lemma SweepSlotsAreDue(blocks: seq<Block>, now: Instant, horizon: nat, offset: int)
    ensures NoRepeats(SweepSlots(blocks, now, horizon, offset))
    ensures forall s :: s in SweepSlots(blocks, now, horizon, offset) <==> s in DueSlots(blocks, now, horizon, offset)
  {
    SlotLessIsStrictTotal();
    var slots := SweepSlots(blocks, now, horizon, offset);
    forall i, j | 0 <= i < j < |slots| ensures slots[i] != slots[j] { assert SlotLess()(slots[i], slots[j]); }
  }

  lemma SweepSlotsAreClaimed(blocks: seq<Block>, now: Instant, horizon: nat, offset: int)
    requires Schedulable(blocks) && Printable(Horizon(now, horizon) + MINUTE)
    ensures NoRepeats(SweepSlots(blocks, now, horizon, offset))
    ensures forall s :: s in SweepSlots(blocks, now, horizon, offset) <==> s in DueSlots(blocks, now, horizon, offset)
    ensures forall s :: s in DueSlots(blocks, now, horizon, offset) ==> ClaimedSlot(blocks, offset, s)
  {
    SweepSlotsAreDue(blocks, now, horizon, offset);
    forall s | s in DueSlots(blocks, now, horizon, offset) ensures ClaimedSlot(blocks, offset, s) {
      DueIsClaimed(blocks, now, horizon, offset, s);
    }
  }

  /** A whole sweep: it never stops early, reports each due slot once, in order, as created
      exactly when it was not there, and adds those tasks and no others. */
  lemma OneSweep(s: Store, blocks: seq<Block>, now: Instant, horizon: nat, offset: int)
    requires Consistent(s, blocks, offset) && Agreeing(blocks, offset) && Schedulable(blocks)
    requires Printable(Horizon(now, horizon) + MINUTE)
    ensures var p := SweepOf(s, blocks, now, horizon, offset); var slots := SweepSlots(blocks, now, horizon, offset);
      && p.Going? && Consistent(p.store, blocks, offset) && |p.rows| == |slots|
      && (forall i :: 0 <= i < |slots| ==> p.rows[i] == Row(slots[i], IdOf(slots[i]) !in s.tasks))
      && p.store.tasks.Keys == s.tasks.Keys + Ids(slots)
  {
    var slots := SweepSlots(blocks, now, horizon, offset);
    SweepSlotsAreClaimed(blocks, now, horizon, offset);
    forall i | 0 <= i < |slots| ensures ClaimedSlot(blocks, offset, slots[i]) { assert slots[i] in slots; }
    SweepFacts(s, slots, blocks, offset, |slots|);
    assert slots[..|slots|] == slots;
  }

  // ------------------------------------------------------------ any interleaving of sweeps

  /** The arguments of one sweep. */
  datatype Plan = Plan(now: Instant, horizon: nat)

  /** The schedule, and the slots of every sweep that runs against the one store. */
  datatype Scene = Scene(blocks: seq<Block>, offset: int, lists: seq<seq<Slot>>)

  /** How far a sweep has come: the rows it will return, and whether it has raised. */
  datatype Cursor = Cursor(rows: seq<Row>, stopped: bool)

  datatype World = World(store: Store, cursors: seq<Cursor>)

  /** One transaction: the next enqueue of some sweep, or a control-store operation by
      somebody else. */
  datatype Turn = Put(sweep: nat) | Other(at: Instant, op: Op)

  function SceneOf(blocks: seq<Block>, offset: int, plans: seq<Plan>): Scene {
    Scene(blocks, offset, seq(|plans|, k requires 0 <= k < |plans| => PlanSlots(blocks, offset, plans[k])))
  }

  function PlanSlots(blocks: seq<Block>, offset: int, p: Plan): seq<Slot> { SweepSlots(blocks, p.now, p.horizon, offset) }

  predicate DueFor(blocks: seq<Block>, offset: int, p: Plan, s: Slot) { s in DueSlots(blocks, p.now, p.horizon, offset) }

  predicate InReach(p: Plan) { Printable(Horizon(p.now, p.horizon) + MINUTE) }

  /** Others claim, renew, complete, retry, and enqueue only kinds the schedule does not own. */
  ghost predicate Allowed(blocks: seq<Block>, t: Turn) {
    t.Other? && t.op.Enqueue? ==> forall b :: b in blocks ==> b.kind != t.op.kind
  }

  function Opening(s: Store, c: Scene): World { World(s, seq(|c.lists|, _ => Cursor([], false))) }

  /** Sweep k enqueues its next slot, if it has one left and has not raised. */
  function PutNext(c: Scene, w: World, k: nat): World
    requires k < |c.lists| == |w.cursors|
  {
    var cursor, slots := w.cursors[k], c.lists[k];
    if cursor.stopped || |cursor.rows| >= |slots| then w
    else match EnqueueOne(Going(w.store, cursor.rows), slots[|cursor.rows|], c.blocks, c.offset)
      case Going(store, rows) => World(store, w.cursors[k := Cursor(rows, false)])
      case Stopped(store) => World(store, w.cursors[k := Cursor(cursor.rows, true)])
  }

  function Play(c: Scene, w: World, t: Turn): (r: World)
    requires |c.lists| == |w.cursors|
    ensures |r.cursors| == |w.cursors|
  {
    match t
    case Put(k) => if k < |c.lists| then PutNext(c, w, k) else w
    case Other(now, op) => w.(store := Step(w.store, now, op).0)
  }

  function After(c: Scene, s: Store, turns: seq<Turn>, i: nat): (r: World)
    requires i <= |turns|
    ensures |r.cursors| == |c.lists|
  {
    if i == 0 then Opening(s, c) else Play(c, After(c, s, turns, i - 1), turns[i - 1])
  }

  lemma OtherKeepsTasks(s: Store, blocks: seq<Block>, offset: int, now: Instant, op: Op)
    requires Consistent(s, blocks, offset) && Allowed(blocks, Other(now, op))
    ensures Consistent(Step(s, now, op).0, blocks, offset)
    ensures forall t :: t in s.tasks ==> t in Step(s, now, op).0.tasks
    ensures forall slot :: ClaimedSlot(blocks, offset, slot) && IdOf(slot) in Step(s, now, op).0.tasks ==> IdOf(slot) in s.tasks
  {
    var s' := Step(s, now, op).0;
    forall t | t in s.tasks ensures t in s'.tasks && (s.tasks[t].kind != "investigate" ==>
      (s'.tasks[t].kind == s.tasks[t].kind && s'.tasks[t].payload == s.tasks[t].payload))
    {
      TaskStays(s, now, op, t);
    }
    forall slot | ClaimedSlot(blocks, offset, slot) && IdOf(slot) in s'.tasks ensures IdOf(slot) in s.tasks {
      if IdOf(slot) !in s.tasks { NewTaskIsForeign(s, blocks, offset, now, op, slot); }
    }
    forall slot | ClaimedSlot(blocks, offset, slot) && IdOf(slot) in s'.tasks ensures Fits(s', blocks, offset, slot) {
      assert Fits(s, blocks, offset, slot);
    }
  }

  lemma TaskStays(s: Store, now: Instant, op: Op, t: TaskId)
    requires t in s.tasks
    ensures t in Step(s, now, op).0.tasks
    ensures s.tasks[t].kind != "investigate" ==>
      (Step(s, now, op).0.tasks[t].kind == s.tasks[t].kind && Step(s, now, op).0.tasks[t].payload == s.tasks[t].payload)
  {
  }

  /** Only an enqueue adds a task, and an enqueue of another kind never lands on a slot's id. */
  lemma NewTaskIsForeign(s: Store, blocks: seq<Block>, offset: int, now: Instant, op: Op, slot: Slot)
    requires Allowed(blocks, Other(now, op)) && ClaimedSlot(blocks, offset, slot) && IdOf(slot) !in s.tasks
    ensures IdOf(slot) !in Step(s, now, op).0.tasks
  {
    if op.Enqueue? && IdOf(slot) in Step(s, now, op).0.tasks {
      var k: nat, b :| Claimed(blocks, offset, slot, k, b);
      ClaimedSlotIsValid(blocks, offset, slot);
      TaskIdIsInjective(slot.kind, slot.due, "", op.kind, op.due, if op.kind == "investigate" then op.payload.id else "");
      assert false;
    }
  }

  /** Row i of sweep k is about slot s; it may say that the task was created. */
  predicate Shows(w: World, k: nat, i: nat, s: Slot) {
    k < |w.cursors| && i < |w.cursors[k].rows| && w.cursors[k].rows[i].slot == s
  }

  predicate CreatedAt(w: World, k: nat, i: nat, s: Slot) {
    Shows(w, k, i, s) && w.cursors[k].rows[i].created
  }

  ghost predicate Reported(w: World, s: Slot) { exists k: nat, i: nat :: Shows(w, k, i, s) }

  ghost predicate ReportedCreated(w: World, s: Slot) { exists k: nat, i: nat :: CreatedAt(w, k, i, s) }

  /** A sweep has not raised, and has reported its slots in order as far as it has come. */
  predicate OnCourse(c: Scene, w: World, k: nat)
    requires k < |c.lists| == |w.cursors|
  {
    var rows, slots := w.cursors[k].rows, c.lists[k];
    && !w.cursors[k].stopped && |rows| <= |slots|
    && forall i :: 0 <= i < |rows| ==> rows[i].slot == slots[i]
  }

  /** The books of one slot: its task stands iff it stood at the start or some sweep has come
      to it, and it is reported created exactly once iff it is new. */
  ghost predicate SlotBooks(start: Store, w: World, s: Slot) {
    && (IdOf(s) in w.store.tasks <==> IdOf(s) in start.tasks || Reported(w, s))
    && (ReportedCreated(w, s) <==> Reported(w, s) && IdOf(s) !in start.tasks)
    && CreatedOnce(w, s)
  }

  ghost predicate CreatedOnce(w: World, s: Slot) {
    forall k: nat, i: nat, k': nat, i': nat :: CreatedAt(w, k, i, s) && CreatedAt(w, k', i', s) ==> k == k' && i == i'
  }

  ghost predicate Sound(c: Scene, w: World) {
    && |c.lists| == |w.cursors| && Consistent(w.store, c.blocks, c.offset)
    && forall k :: 0 <= k < |c.lists| ==> OnCourse(c, w, k)
  }

  /** Every slot a sweep holds is one of the schedule's, and owners agree on payloads. */
  ghost predicate Proper(c: Scene) { Agreeing(c.blocks, c.offset) && AllClaimed(c) }

  ghost predicate AllClaimed(c: Scene) {
    forall k, s :: 0 <= k < |c.lists| && s in c.lists[k] ==> ClaimedSlot(c.blocks, c.offset, s)
  }

  predicate Reachable(plans: seq<Plan>) {
    forall k :: 0 <= k < |plans| ==> InReach(plans[k])
  }

  lemma HeldIffDue(blocks: seq<Block>, offset: int, p: Plan, s: Slot)
    ensures s in PlanSlots(blocks, offset, p) <==> DueFor(blocks, offset, p, s)
  {
    SweepSlotsAreDue(blocks, p.now, p.horizon, offset);
  }

  lemma HeldIsClaimed(blocks: seq<Block>, offset: int, p: Plan, s: Slot)
    requires Schedulable(blocks) && InReach(p) && s in PlanSlots(blocks, offset, p)
    ensures ClaimedSlot(blocks, offset, s)
  {
    SweepSlotsAreClaimed(blocks, p.now, p.horizon, offset);
  }

  lemma ScenesAreProper(blocks: seq<Block>, offset: int, plans: seq<Plan>)
    requires Agreeing(blocks, offset) && Schedulable(blocks) && Reachable(plans)
    ensures Proper(SceneOf(blocks, offset, plans))
  {
    var c := SceneOf(blocks, offset, plans);
    forall k, s | 0 <= k < |c.lists| && s in c.lists[k] ensures ClaimedSlot(blocks, offset, s) {
      HeldIsClaimed(blocks, offset, plans[k], s);
    }
  }

  /** A put that does something: the slot's task stands afterwards, and the sweep gains one
      row, which says whether the task was missing. */
  lemma PutAppends(c: Scene, w: World, k: nat)
    requires Proper(c) && Sound(c, w) && k < |c.lists| && |w.cursors[k].rows| < |c.lists[k]|
    ensures var slot := c.lists[k][|w.cursors[k].rows|]; var w' := PutNext(c, w, k);
      && ClaimedSlot(c.blocks, c.offset, slot)
      && w'.cursors == w.cursors[k := Cursor(w.cursors[k].rows + [Row(slot, IdOf(slot) !in w.store.tasks)], false)]
      && w'.store.tasks.Keys == w.store.tasks.Keys + {IdOf(slot)}
      && Consistent(w'.store, c.blocks, c.offset)
  {
    assert OnCourse(c, w, k);
    assert c.lists[k][|w.cursors[k].rows|] in c.lists[k];
    OneRow(Going(w.store, w.cursors[k].rows), c.blocks, c.offset, c.lists[k][|w.cursors[k].rows|]);
  }

  lemma RowKeepsCourse(c: Scene, w: World, w': World, k: nat, row: Row, j: nat)
    requires k < |c.lists| == |w.cursors| && |w.cursors[k].rows| < |c.lists[k]|
    requires w'.cursors == w.cursors[k := Cursor(w.cursors[k].rows + [row], false)]
    requires row.slot == c.lists[k][|w.cursors[k].rows|]
    requires j < |c.lists| && OnCourse(c, w, j)
    ensures OnCourse(c, w', j)
  {
  }

  lemma PutKeepsSound(c: Scene, w: World, k: nat)
    requires Proper(c) && Sound(c, w) && k < |c.lists|
    ensures Sound(c, PutNext(c, w, k))
  {
    assert OnCourse(c, w, k);
    if |w.cursors[k].rows| < |c.lists[k]| {
      PutAppends(c, w, k);
      var slot := c.lists[k][|w.cursors[k].rows|];
      forall j | 0 <= j < |c.lists| ensures OnCourse(c, PutNext(c, w, k), j) {
        RowKeepsCourse(c, w, PutNext(c, w, k), k, Row(slot, IdOf(slot) !in w.store.tasks), j);
      }
    }
  }

  /** What one more row changes about who shows a slot. */
  lemma OneMoreRow(w: World, w': World, k: nat, row: Row, s: Slot)
    requires k < |w.cursors| && w'.cursors == w.cursors[k := Cursor(w.cursors[k].rows + [row], false)]
    ensures forall j: nat, i: nat :: Shows(w', j, i, s) <==>
      Shows(w, j, i, s) || (j == k && i == |w.cursors[k].rows| && row.slot == s)
    ensures forall j: nat, i: nat :: CreatedAt(w', j, i, s) <==>
      CreatedAt(w, j, i, s) || (j == k && i == |w.cursors[k].rows| && row == Row(s, true))
    ensures Reported(w', s) <==> Reported(w, s) || row.slot == s
    ensures ReportedCreated(w', s) <==> ReportedCreated(w, s) || row == Row(s, true)
  {
    var n := |w.cursors[k].rows|;
    forall j: nat, i: nat
      ensures Shows(w', j, i, s) <==> Shows(w, j, i, s) || (j == k && i == n && row.slot == s)
      ensures CreatedAt(w', j, i, s) <==> CreatedAt(w, j, i, s) || (j == k && i == n && row == Row(s, true))
    {
    }
    assert row.slot == s ==> Shows(w', k, n, s);
    assert row == Row(s, true) ==> CreatedAt(w', k, n, s);
  }

  /** The books after one more row, which says whether its task was missing. */
  lemma RowKeepsBooks(start: Store, w: World, w': World, k: nat, slot: Slot, s: Slot)
    requires SlotBooks(start, w, s) && k < |w.cursors| && (IdOf(slot) == IdOf(s) ==> slot == s)
    requires w'.cursors == w.cursors[k := Cursor(w.cursors[k].rows + [Row(slot, IdOf(slot) !in w.store.tasks)], false)]
    requires w'.store.tasks.Keys == w.store.tasks.Keys + {IdOf(slot)}
    ensures SlotBooks(start, w', s)
  {
    OneMoreRow(w, w', k, Row(slot, IdOf(slot) !in w.store.tasks), s);
    assert IdOf(s) in w'.store.tasks <==> IdOf(s) in w.store.tasks || slot == s;
    if slot == s && IdOf(s) !in w.store.tasks {
      assert forall j: nat, i: nat :: CreatedAt(w, j, i, s) ==> Shows(w, j, i, s);
      assert !ReportedCreated(w, s);
    }
  }

  lemma PutKeepsBooks(c: Scene, start: Store, w: World, k: nat, s: Slot)
    requires Proper(c) && Sound(c, w) && k < |c.lists| && ClaimedSlot(c.blocks, c.offset, s)
    requires SlotBooks(start, w, s)
    ensures SlotBooks(start, PutNext(c, w, k), s)
  {
    assert OnCourse(c, w, k);
    if |w.cursors[k].rows| < |c.lists[k]| {
      var slot := c.lists[k][|w.cursors[k].rows|];
      PutAppends(c, w, k);
      if IdOf(slot) == IdOf(s) { IdsDiffer(c.blocks, c.offset, slot, s); }
      RowKeepsBooks(start, w, PutNext(c, w, k), k, slot, s);
    }
  }

  lemma OtherKeepsBooks(c: Scene, start: Store, w: World, now: Instant, op: Op, s: Slot)
    requires Sound(c, w) && Allowed(c.blocks, Other(now, op)) && ClaimedSlot(c.blocks, c.offset, s)
    requires SlotBooks(start, w, s)
    ensures Sound(c, Play(c, w, Other(now, op))) && SlotBooks(start, Play(c, w, Other(now, op)), s)
  {
    var w' := Play(c, w, Other(now, op));
    OtherKeepsTasks(w.store, c.blocks, c.offset, now, op);
    forall k | 0 <= k < |c.lists| ensures OnCourse(c, w', k) { assert OnCourse(c, w, k); }
    assert forall k: nat, i: nat :: Shows(w', k, i, s) <==> Shows(w, k, i, s);
    assert forall k: nat, i: nat :: CreatedAt(w', k, i, s) <==> CreatedAt(w, k, i, s);
  }

  lemma TurnKeepsBooks(c: Scene, start: Store, w: World, t: Turn, s: Slot)
    requires Proper(c) && Sound(c, w) && Allowed(c.blocks, t) && ClaimedSlot(c.blocks, c.offset, s)
    requires SlotBooks(start, w, s)
    ensures Sound(c, Play(c, w, t)) && SlotBooks(start, Play(c, w, t), s)
  {
    match t
    case Put(k) =>
      if k < |c.lists| {
        PutKeepsSound(c, w, k);
        PutKeepsBooks(c, start, w, k, s);
      }
    case Other(now, op) => OtherKeepsBooks(c, start, w, now, op, s);
  }

  ghost predicate AllAllowed(c: Scene, turns: seq<Turn>) {
    forall j :: 0 <= j < |turns| ==> Allowed(c.blocks, turns[j])
  }

  lemma OpeningIsSound(c: Scene, start: Store, s: Slot)
    requires Consistent(start, c.blocks, c.offset)
    ensures Sound(c, Opening(start, c)) && SlotBooks(start, Opening(start, c), s)
  {
    assert forall k: nat, i: nat :: !Shows(Opening(start, c), k, i, s);
  }

  /** Any number of sweeps, interleaved enqueue by enqueue with each other and with anybody
      else: no sweep ever raises, and for every slot of the schedule the task stands iff it
      did at the start or some sweep has enqueued it, and is reported created exactly once
      if it is new and never otherwise. */
  lemma {:induction false} EachSlotIsCreatedOnce(c: Scene, start: Store, turns: seq<Turn>, i: nat, s: Slot)
    requires i <= |turns| && Proper(c) && Consistent(start, c.blocks, c.offset)
    requires AllAllowed(c, turns) && ClaimedSlot(c.blocks, c.offset, s)
    ensures Sound(c, After(c, start, turns, i)) && SlotBooks(start, After(c, start, turns, i), s)
  {
    if i == 0 {
      OpeningIsSound(c, start, s);
    } else {
      EachSlotIsCreatedOnce(c, start, turns, i - 1, s);
      TurnKeepsBooks(c, start, After(c, start, turns, i - 1), turns[i - 1], s);
    }
  }

  /** Sweep k has come to the end of its slots. */
  predicate Finished(c: Scene, w: World, k: nat)
    requires k < |c.lists| == |w.cursors|
  {
    |w.cursors[k].rows| == |c.lists[k]|
  }

  /** Some sweep holds the slot. */
  ghost predicate Listed(c: Scene, s: Slot) { exists k :: 0 <= k < |c.lists| && s in c.lists[k] }

  lemma ReportedAreListed(c: Scene, w: World, s: Slot)
    requires Sound(c, w) && Reported(w, s)
    ensures Listed(c, s)
  {
    var k: nat, i: nat :| Shows(w, k, i, s);
    assert OnCourse(c, w, k);
    assert s in c.lists[k];
  }

  lemma FinishedReportAll(c: Scene, w: World, k: nat, s: Slot)
    requires Sound(c, w) && k < |c.lists| && Finished(c, w, k) && s in c.lists[k]
    ensures Reported(w, s)
  {
    assert OnCourse(c, w, k);
    var i :| 0 <= i < |c.lists[k]| && c.lists[k][i] == s;
    assert Shows(w, k, i, s);
  }

  predicate AllFinished(c: Scene, w: World)
    requires |c.lists| == |w.cursors|
  {
    forall k :: 0 <= k < |c.lists| ==> Finished(c, w, k)
  }

  lemma FinishedMakeTheUnion(c: Scene, start: Store, w: World, s: Slot)
    requires Sound(c, w) && SlotBooks(start, w, s) && AllFinished(c, w)
    ensures IdOf(s) in w.store.tasks <==> IdOf(s) in start.tasks || Listed(c, s)
    ensures ReportedCreated(w, s) <==> Listed(c, s) && IdOf(s) !in start.tasks
  {
    if Listed(c, s) {
      var k :| 0 <= k < |c.lists| && s in c.lists[k];
      FinishedReportAll(c, w, k, s);
    }
    if Reported(w, s) { ReportedAreListed(c, w, s); }
  }

  /** Slot s is due in one of the sweeps. */
  ghost predicate DueForSome(blocks: seq<Block>, offset: int, plans: seq<Plan>, s: Slot) {
    exists k :: 0 <= k < |plans| && DueFor(blocks, offset, plans[k], s)
  }

  lemma ListedIffDue(blocks: seq<Block>, offset: int, plans: seq<Plan>, s: Slot)
    ensures Listed(SceneOf(blocks, offset, plans), s) <==> DueForSome(blocks, offset, plans, s)
  {
    forall k | 0 <= k < |plans|
      ensures s in SceneOf(blocks, offset, plans).lists[k] <==> DueFor(blocks, offset, plans[k], s)
    {
      HeldIffDue(blocks, offset, plans[k], s);
    }
  }

  lemma FinishedScene(c: Scene, start: Store, turns: seq<Turn>, s: Slot)
    requires Proper(c) && Consistent(start, c.blocks, c.offset) && AllAllowed(c, turns) && ClaimedSlot(c.blocks, c.offset, s)
    requires AllFinished(c, After(c, start, turns, |turns|))
    ensures var w := After(c, start, turns, |turns|);
      && (IdOf(s) in w.store.tasks <==> IdOf(s) in start.tasks || Listed(c, s))
      && (ReportedCreated(w, s) <==> Listed(c, s) && IdOf(s) !in start.tasks)
      && CreatedOnce(w, s)
  {
    EachSlotIsCreatedOnce(c, start, turns, |turns|, s);
    FinishedMakeTheUnion(c, start, After(c, start, turns, |turns|), s);
  }

  /** Once all the sweeps have finished, however their enqueues were interleaved, the slots
      standing are those of the start and the union of what was due, and each slot of the
      union that is new was created by exactly one row of one sweep. */
  lemma OverlappingSweepsMakeTheUnion(blocks: seq<Block>, offset: int, plans: seq<Plan>, start: Store, turns: seq<Turn>, s: Slot)
    requires Agreeing(blocks, offset) && Schedulable(blocks) && Reachable(plans)
    requires Consistent(start, blocks, offset) && ClaimedSlot(blocks, offset, s)
    requires var c := SceneOf(blocks, offset, plans); AllAllowed(c, turns) && AllFinished(c, After(c, start, turns, |turns|))
    ensures var w := After(SceneOf(blocks, offset, plans), start, turns, |turns|);
      && (IdOf(s) in w.store.tasks <==> IdOf(s) in start.tasks || DueForSome(blocks, offset, plans, s))
      && (ReportedCreated(w, s) <==> DueForSome(blocks, offset, plans, s) && IdOf(s) !in start.tasks)
      && CreatedOnce(w, s)
  {
    ScenesAreProper(blocks, offset, plans);
    FinishedScene(SceneOf(blocks, offset, plans), start, turns, s);
    ListedIffDue(blocks, offset, plans, s);
  }

  /** The progress of one sweep after n slots, seen as a world with that sweep alone. */
  predicate Alone(p: Progress, w: World, n: nat) {
    match p
    case Going(store, rows) => w == World(store, [Cursor(rows, false)]) && |rows| == n
    case Stopped(store) => w.store == store && |w.cursors| == 1 && w.cursors[0].stopped
  }

  lemma LonePut(c: Scene, p: Progress, w: World, n: nat)
    requires |c.lists| == |w.cursors| == 1 && n < |c.lists[0]| && Alone(p, w, n)
    ensures Alone(if p.Stopped? then p else EnqueueOne(p, c.lists[0][n], c.blocks, c.offset), Play(c, w, Put(0)), n + 1)
  {
  }

  /** A sweep that nobody interrupts is `EnqueueDueSlots`: n puts are its first n slots. */
  lemma {:induction false} UninterruptedSweep(c: Scene, start: Store, turns: seq<Turn>, n: nat)
    requires |c.lists| == 1 && n <= |turns| <= |c.lists[0]| && forall j :: 0 <= j < |turns| ==> turns[j] == Put(0)
    ensures Alone(EnqueueSome(start, c.lists[0], c.blocks, c.offset, n), After(c, start, turns, n), n)
  {
    if n == 0 {
      assert Opening(start, c).cursors == [Cursor([], false)];
    } else {
      UninterruptedSweep(c, start, turns, n - 1);
      LonePut(c, EnqueueSome(start, c.lists[0], c.blocks, c.offset, n - 1), After(c, start, turns, n - 1), n - 1);
    }
  }
}
