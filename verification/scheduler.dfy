/** The slot scheduler (scheduler.py) in a zone with a fixed offset: which minutes a schedule
    claims, what a sweep computes, and which slot comes next.

    Instants are microseconds since 1000-01-01 UTC; the offset is in whole minutes. */
module Scheduler {
  import opened Ordering
  import opened UtcText
  import opened SlotText
  import opened Grouping
  import opened ControlStore

  datatype Block = Block(kind: string, hours: set<nat>, minutes: set<nat>, weekdays: set<nat>, enabled: bool, payload: Payload)

  datatype Slot = Slot(kind: string, due: string)

  // ------------------------------------------------------------ matching minutes

  /** Local wall clock of UTC minute k; Monday is 0. */
  function LocalMinute(offset: int, k: int): int { k + offset }
  function Weekday(local: int): nat { (local / 1440 + EPOCH_ORDINAL + 6) % 7 }
  function HourOf(local: int): nat { local / 60 % 24 }
  function MinuteOf(local: int): nat { local % 60 }

  predicate Matches(b: Block, offset: int, k: int) {
    var local := LocalMinute(offset, k);
    b.enabled && Weekday(local) in b.weekdays && HourOf(local) in b.hours && MinuteOf(local) in b.minutes
  }

  /** What the schedule parser guarantees of a block. */
  predicate WellFormed(b: Block) {
    && b.hours != {} && (forall h :: h in b.hours ==> h < 24)
    && b.minutes != {} && (forall m :: m in b.minutes ==> m < 60)
    && b.weekdays != {} && (forall d :: d in b.weekdays ==> d < 7)
  }

  function SlotAt(kind: string, k: nat): Slot { Slot(kind, PrintShort(k * MINUTE)) }

  /** Minutes before `hi` that are not before `now`, with a block that matches. */
  function DueBefore(blocks: seq<Block>, now: Instant, offset: int, hi: nat): set<Slot> {
    set k: nat, b | k < hi && b in blocks && now <= k * MINUTE && Matches(b, offset, k) :: SlotAt(b.kind, k)
  }

  function Horizon(now: Instant, horizon: nat): Instant { now + horizon * MINUTE }

  /** The slots of [now, now + horizon]. */
  function DueSlots(blocks: seq<Block>, now: Instant, horizon: nat, offset: int): set<Slot> {
    DueBefore(blocks, now, offset, Horizon(now, horizon) / MINUTE + 1)
  }

  predicate SlotBefore(a: Slot, b: Slot) { TextLess(a.due, b.due) || (a.due == b.due && TextLess(a.kind, b.kind)) }

  function SlotLess(): (Slot, Slot) -> bool { (a, b) => SlotBefore(a, b) }
  function SlotAtMost(): (Slot, Slot) -> bool { (a, b) => a == b || SlotBefore(a, b) }

  lemma SlotLessIsStrictTotal()
    ensures StrictTotal(SlotLess())
  {
    forall a: Slot, b: Slot ensures !SlotLess()(a, a) && (a != b ==> SlotLess()(a, b) || SlotLess()(b, a)) {
      TextLessTrichotomy(a.due, a.due);
      TextLessTrichotomy(a.kind, a.kind);
      TextLessTrichotomy(a.due, b.due);
      TextLessTrichotomy(a.kind, b.kind);
    }
    forall a: Slot, b: Slot, c: Slot | SlotLess()(a, b) && SlotLess()(b, c) ensures SlotLess()(a, c) {
      if TextLess(a.due, b.due) && TextLess(b.due, c.due) { TextLessTransitive(a.due, b.due, c.due); }
      if TextLess(a.kind, b.kind) && TextLess(b.kind, c.kind) { TextLessTransitive(a.kind, b.kind, c.kind); }
    }
  }

  lemma AtMostIsPreorder()
    ensures TotalPreorder(SlotAtMost())
  {
    SlotLessIsStrictTotal();
    var lt, le := SlotLess(), SlotAtMost();
    forall a: Slot, b: Slot ensures le(a, b) || le(b, a) { assert a != b ==> lt(a, b) || lt(b, a); }
    forall a: Slot, b: Slot, c: Slot | le(a, b) && le(b, c) ensures le(a, c) {
      if a != b && b != c { assert lt(a, b) && lt(b, c); }
    }
  }

  predicate NoRepeats<T(==)>(s: seq<T>) { forall i, j :: 0 <= i < j < |s| ==> s[i] != s[j] }

  /** Sorting a duplicate-free list reads its set in order. */
  lemma SortReadsInOrder(s: seq<Slot>, all: set<Slot>)
    requires NoRepeats(s) && forall x :: x in s <==> x in all
    ensures StrictTotal(SlotLess())
    ensures Sort(s, SlotAtMost()) == InOrder(all, SlotLess())
  {
    var r := Sort(s, SlotAtMost());
    SlotLessIsStrictTotal();
    AtMostIsPreorder();
    SortFacts(s, SlotAtMost());
    forall x ensures x in r <==> x in all { assert x in r <==> x in multiset(r); assert x in s <==> x in multiset(s); }
    forall i, j | 0 <= i < j < |r| ensures SlotLess()(r[i], r[j]) {
      assert SlotAtMost()(r[i], r[j]);
      if r[i] == r[j] {
        PlacesCount(r, i, j);
        TwoPlaces(s, r[i]);
      }
    }
    InOrderIsTheOnlyReading(all, SlotLess(), r);
  }

  // ------------------------------------------------------------ compute_due_slots

  function KindsOf(blocks: seq<Block>, offset: int, k: int): set<string> {
    set b | b in blocks && Matches(b, offset, k) :: b.kind
  }

  /** One turn of the sweep: each matching kind once, however many blocks ask for it. */
  method KindsAt(blocks: seq<Block>, offset: int, k: int) returns (kinds: seq<string>)
    ensures NoRepeats(kinds)
    ensures forall x :: x in kinds <==> x in KindsOf(blocks, offset, k)
  {
    kinds := [];
    for i := 0 to |blocks|
      invariant NoRepeats(kinds)
      invariant forall x :: x in kinds <==> exists j :: 0 <= j < i && Matches(blocks[j], offset, k) && blocks[j].kind == x
    {
      if Matches(blocks[i], offset, k) && blocks[i].kind !in kinds {
        kinds := kinds + [blocks[i].kind];
      }
    }
  }

  function SlotsOf(kinds: seq<string>, k: nat): seq<Slot> { seq(|kinds|, i requires 0 <= i < |kinds| => SlotAt(kinds[i], k)) }

  lemma NextMinute(blocks: seq<Block>, now: Instant, offset: int, k: nat, s: Slot)
    ensures s in DueBefore(blocks, now, offset, k + 1) <==>
      s in DueBefore(blocks, now, offset, k)
      || (now <= k * MINUTE && s.kind in KindsOf(blocks, offset, k) && s.due == PrintShort(k * MINUTE))
  {
    if s in DueBefore(blocks, now, offset, k + 1) {
      var j: nat, b :| j < k + 1 && b in blocks && now <= j * MINUTE && Matches(b, offset, j) && s == SlotAt(b.kind, j);
      if j < k { assert SlotAt(b.kind, j) in DueBefore(blocks, now, offset, k); }
    }
    if now <= k * MINUTE && s.kind in KindsOf(blocks, offset, k) && s.due == PrintShort(k * MINUTE) {
      var b :| b in blocks && Matches(b, offset, k) && b.kind == s.kind;
      assert s == SlotAt(b.kind, k);
    }
  }

  lemma PrintableBefore(t: Instant, u: Instant)
    requires t <= u && Printable(u)
    ensures Printable(t)
  {
    YearsGrow(t / DAY, u / DAY);
  }

  lemma {:induction false} YearsGrow(n: nat, m: nat)
    requires n <= m
    ensures DateOf(n).year <= DateOf(m).year
    decreases m
  {
    if n < m { YearsGrow(n, m - 1); }
  }

  /** Text order of slots is the order of their minutes. */
  lemma MinuteOrder(j: nat, k: nat)
    requires j < k && Printable(k * MINUTE)
    ensures TextLess(PrintShort(j * MINUTE), PrintShort(k * MINUTE)) && PrintShort(j * MINUTE) != PrintShort(k * MINUTE)
  {
    var t, u := j * MINUTE, k * MINUTE;
    PrintableBefore(t, u);
    WholeSeconds(j);
    WholeSeconds(k);
    ShortOrder(t, u);
  }

  lemma WholeSeconds(k: nat)
    ensures (k * MINUTE) % SECOND == 0
  {
  }

  lemma SlotMinute(blocks: seq<Block>, now: Instant, offset: int, hi: nat, s: Slot) returns (k: nat, b: Block)
    requires s in DueBefore(blocks, now, offset, hi)
    ensures k < hi && b in blocks && now <= k * MINUTE && Matches(b, offset, k) && s == SlotAt(b.kind, k)
  {
    k, b :| k < hi && b in blocks && now <= k * MINUTE && Matches(b, offset, k) && s == SlotAt(b.kind, k);
  }

  /** Slots of different minutes print differently. */
  lemma EarlierSlotsDiffer(blocks: seq<Block>, now: Instant, offset: int, k: nat, s: Slot)
    requires s in DueBefore(blocks, now, offset, k) && Printable(k * MINUTE)
    ensures s.due != PrintShort(k * MINUTE)
  {
    var j, b := SlotMinute(blocks, now, offset, k, s);
    MinuteOrder(j, k);
  }

  /** The sweep over a minute at a time. */
  method SweepMinutes(blocks: seq<Block>, now: Instant, offset: int, hi: nat) returns (slots: seq<Slot>)
    requires now / MINUTE <= hi && Printable(hi * MINUTE)
    ensures NoRepeats(slots) && forall s :: s in slots <==> s in DueBefore(blocks, now, offset, hi)
  {
    slots := [];
    var k := now / MINUTE;
    forall s ensures s !in DueBefore(blocks, now, offset, k) {}
    while k < hi
      invariant now / MINUTE <= k <= hi
      invariant NoRepeats(slots) && forall s :: s in slots <==> s in DueBefore(blocks, now, offset, k)
    {
      var kinds := KindsAt(blocks, offset, k);
      PrintableBefore(k * MINUTE, hi * MINUTE);
      forall s ensures s in DueBefore(blocks, now, offset, k + 1) <==>
        (s in DueBefore(blocks, now, offset, k) || (now <= k * MINUTE && s.kind in kinds && s.due == PrintShort(k * MINUTE)))
      {
        NextMinute(blocks, now, offset, k, s);
      }
      if now <= k * MINUTE {
        var added := SlotsOf(kinds, k);
        SlotsAppend(blocks, now, offset, k, slots, kinds);
        slots := slots + added;
      }
      k := k + 1;
    }
  }

  lemma SlotsAppend(blocks: seq<Block>, now: Instant, offset: int, k: nat, slots: seq<Slot>, kinds: seq<string>)
    requires Printable(k * MINUTE) && NoRepeats(kinds) && NoRepeats(slots)
    requires forall s :: s in slots <==> s in DueBefore(blocks, now, offset, k)
    ensures NoRepeats(slots + SlotsOf(kinds, k))
    ensures forall s :: s in slots + SlotsOf(kinds, k) <==> s in slots || (s.kind in kinds && s.due == PrintShort(k * MINUTE))
  {
    var more := SlotsOf(kinds, k);
    forall s | s in slots ensures s !in more {
      EarlierSlotsDiffer(blocks, now, offset, k, s);
    }
    forall s ensures s in more <==> s.kind in kinds && s.due == PrintShort(k * MINUTE) {
      if s.kind in kinds && s.due == PrintShort(k * MINUTE) {
        var i :| 0 <= i < |kinds| && kinds[i] == s.kind;
        assert more[i] == s;
      }
    }
    var all := slots + more;
    forall i, j | 0 <= i < j < |all| ensures all[i] != all[j] {
      if i < |slots| <= j { assert all[i] in slots && all[j] in more; }
    }
  }

  /** The sorted duplicate-free list of the matching minutes of [now, now + horizon]. */
  method ComputeDueSlots(blocks: seq<Block>, now: Instant, horizon: nat, offset: int) returns (slots: seq<Slot>)
    requires Printable(Horizon(now, horizon) + MINUTE)
    ensures StrictTotal(SlotLess())
    ensures slots == InOrder(DueSlots(blocks, now, horizon, offset), SlotLess())
  {
    var hi := Horizon(now, horizon) / MINUTE + 1;
    PrintableBefore(hi * MINUTE, Horizon(now, horizon) + MINUTE);
    slots := SweepMinutes(blocks, now, offset, hi);
    SortReadsInOrder(slots, DueSlots(blocks, now, horizon, offset));
    slots := Sort(slots, SlotAtMost());
  }

  /** Membership without the minute counter: a slot is due exactly when it prints a matching
      whole minute of the closed interval. */
  lemma DueSlotsAre(blocks: seq<Block>, now: Instant, horizon: nat, offset: int, s: Slot)
    ensures s in DueSlots(blocks, now, horizon, offset) <==>
      exists k: nat, b :: b in blocks && Matches(b, offset, k) && now <= k * MINUTE <= Horizon(now, horizon) && s == SlotAt(b.kind, k)
  {
    if s in DueSlots(blocks, now, horizon, offset) {
      var k: nat, b :| k < Horizon(now, horizon) / MINUTE + 1 && b in blocks && now <= k * MINUTE && Matches(b, offset, k) && s == SlotAt(b.kind, k);
      assert b in blocks && Matches(b, offset, k) && now <= k * MINUTE <= Horizon(now, horizon) && s == SlotAt(b.kind, k);
    }
  }

  // ------------------------------------------------------------ next_due_slot

  const TWO_WEEKS := 20160

  /** Local minute of the week. */
  function WeekMinute(local: int): (w: nat)
    ensures w < 10080
  {
    Weekday(local) * 1440 + local % 1440
  }

  lemma WeekMinuteStep(local: int, n: nat)
    requires n <= 10080
    ensures WeekMinute(local + n) == (WeekMinute(local) + n) % 10080
  {
    var day, minute := local / 1440, local % 1440;
    var c := EPOCH_ORDINAL + 6;
    var w := (day + c) % 7;
    assert (minute + n) / 1440 <= 8;
    var days := (minute + n) / 1440;
    assert (local + n) / 1440 == day + days && (local + n) % 1440 == (minute + n) % 1440;
    assert (day + days + c) % 7 == (w + days) % 7;
  }

  /** Every enabled block comes round within a week. */
  lemma EveryBlockComesRound(b: Block, offset: int, now: Instant) returns (k: nat)
    requires WellFormed(b) && b.enabled
    ensures Matches(b, offset, k) && now < k * MINUTE <= now + 10080 * MINUTE
  {
    var d :| d in b.weekdays;
    var h :| h in b.hours;
    var m :| m in b.minutes;
    var target := d * 1440 + h * 60 + m;
    var k0 := now / MINUTE + 1;
    var local := LocalMinute(offset, k0);
    var n := WaitFor(WeekMinute(local), target);
    WeekMinuteStep(local, n);
    k := k0 + n;
    assert LocalMinute(offset, k) == local + n;
    WeekMinuteReads(local + n, d, h, m);
    assert k <= now / MINUTE + 10080;
  }

  /** Minutes from one minute of the week to the next occurrence of another. */
  function WaitFor(from: nat, target: nat): (n: nat)
    requires from < 10080 && target < 10080
    ensures n < 10080 && (from + n) % 10080 == target
  {
    if from <= target then target - from else 10080 - from + target
  }

  lemma WeekMinuteReads(local: int, d: nat, h: nat, m: nat)
    requires d < 7 && h < 24 && m < 60 && WeekMinute(local) == d * 1440 + h * 60 + m
    ensures Weekday(local) == d && HourOf(local) == h && MinuteOf(local) == m
  {
    assert local % 1440 == h * 60 + m && Weekday(local) == d;
    assert local == 1440 * (local / 1440) + h * 60 + m;
    assert local / 60 == 24 * (local / 1440) + h;
  }

  /** A slot strictly after `now`, at any distance. */
  ghost predicate Future(blocks: seq<Block>, now: Instant, offset: int, k: nat, b: Block) {
    b in blocks && Matches(b, offset, k) && now < k * MINUTE
  }

  /** `_parse_utc_z(due) > now`. */
  predicate IsLater(s: Slot, now: Instant) { ParseShort(s.due).Some? && ParseShort(s.due).value > now }

  lemma LaterMeansAfter(kind: string, k: nat, now: Instant)
    requires Printable(k * MINUTE)
    ensures IsLater(SlotAt(kind, k), now) <==> now < k * MINUTE
  {
    assert (k * MINUTE) % SECOND == 0;
    ShortReadsBack(k * MINUTE);
  }

  /** Slot s is at most every future slot. */
  ghost predicate Soonest(blocks: seq<Block>, now: Instant, offset: int, s: Slot) {
    forall k: nat, b :: Future(blocks, now, offset, k, b) && Printable(k * MINUTE) ==> SlotAtMost()(s, SlotAt(b.kind, k))
  }

  ghost predicate IsFutureSlot(blocks: seq<Block>, now: Instant, offset: int, s: Slot) {
    exists k: nat, b :: Future(blocks, now, offset, k, b) && s == SlotAt(b.kind, k)
  }

  ghost predicate InFortnight(now: Instant, k: nat) { k * MINUTE <= Horizon(now, TWO_WEEKS) }

  /** The least slot strictly after `now`, over all time; there is one whenever some block is
      enabled, and the fortnight searched always reaches it. */
  method NextDueSlot(blocks: seq<Block>, now: Instant, offset: int) returns (next: Option<Slot>)
    requires Printable(Horizon(now, TWO_WEEKS) + MINUTE)
    requires forall b :: b in blocks ==> WellFormed(b)
    ensures next.Some? <==> exists b :: b in blocks && b.enabled
    ensures next.Some? ==> IsFutureSlot(blocks, now, offset, next.value) && Soonest(blocks, now, offset, next.value)
  {
    PrintableBefore(Horizon(now, TWO_WEEKS), Horizon(now, TWO_WEEKS) + MINUTE);
    var slots := ComputeDueSlots(blocks, now, TWO_WEEKS, offset);
    for i := 0 to |slots|
      invariant forall j :: 0 <= j < i ==> !IsLater(slots[j], now)
    {
      if IsLater(slots[i], now) {
        FirstLaterIsNext(blocks, now, offset, slots, i);
        return Some(slots[i]);
      }
    }
    forall b | b in blocks && b.enabled ensures exists j :: 0 <= j < |slots| && IsLater(slots[j], now) {
      EnabledMeansLater(blocks, now, offset, slots, b);
    }
    return None;
  }

  lemma NearFutureIsDue(blocks: seq<Block>, now: Instant, offset: int, k: nat, b: Block)
    requires Future(blocks, now, offset, k, b) && InFortnight(now, k) && Printable(Horizon(now, TWO_WEEKS))
    ensures SlotAt(b.kind, k) in DueSlots(blocks, now, TWO_WEEKS, offset) && IsLater(SlotAt(b.kind, k), now)
  {
    PrintableBefore(k * MINUTE, Horizon(now, TWO_WEEKS));
    LaterMeansAfter(b.kind, k, now);
    assert k < Horizon(now, TWO_WEEKS) / MINUTE + 1;
  }

  lemma EnabledMeansLater(blocks: seq<Block>, now: Instant, offset: int, slots: seq<Slot>, b: Block)
    requires Printable(Horizon(now, TWO_WEEKS)) && StrictTotal(SlotLess())
    requires slots == InOrder(DueSlots(blocks, now, TWO_WEEKS, offset), SlotLess())
    requires b in blocks && b.enabled && WellFormed(b)
    ensures exists j :: 0 <= j < |slots| && IsLater(slots[j], now)
  {
    var k := EveryBlockComesRound(b, offset, now);
    NearFutureIsDue(blocks, now, offset, k, b);
    var j :| 0 <= j < |slots| && slots[j] == SlotAt(b.kind, k);
  }

  lemma FirstLaterIsNext(blocks: seq<Block>, now: Instant, offset: int, slots: seq<Slot>, i: nat)
    requires Printable(Horizon(now, TWO_WEEKS)) && StrictTotal(SlotLess())
    requires slots == InOrder(DueSlots(blocks, now, TWO_WEEKS, offset), SlotLess())
    requires i < |slots| && IsLater(slots[i], now) && forall j :: 0 <= j < i ==> !IsLater(slots[j], now)
    ensures exists b :: b in blocks && b.enabled
    ensures IsFutureSlot(blocks, now, offset, slots[i]) && Soonest(blocks, now, offset, slots[i])
  {
    assert slots[i] in DueSlots(blocks, now, TWO_WEEKS, offset);
    var k0, b0 := SlotMinute(blocks, now, offset, Horizon(now, TWO_WEEKS) / MINUTE + 1, slots[i]);
    assert InFortnight(now, k0);
    PrintableBefore(k0 * MINUTE, Horizon(now, TWO_WEEKS));
    LaterMeansAfter(b0.kind, k0, now);
    assert Future(blocks, now, offset, k0, b0);
    forall k: nat, b | Future(blocks, now, offset, k, b) && Printable(k * MINUTE) ensures SlotAtMost()(slots[i], SlotAt(b.kind, k)) {
      if InFortnight(now, k) {
        NearFutureIsDue(blocks, now, offset, k, b);
        var j :| 0 <= j < |slots| && slots[j] == SlotAt(b.kind, k);
        assert j >= i;
      } else {
        MinuteOrder(k0, k);
      }
    }
  }
}
