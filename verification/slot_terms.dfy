/** Which slots a schedule asks for, read off the wall clock a person in the zone would see:
    the printed local date and time against a block's weekdays, hours and minutes. */
module SlotTerms {
  import opened UtcText
  import opened SlotText
  import opened Scheduler

  /** Days since a Monday, 1 January 2024, in weeks: Monday is 0. */
  function WeekdayOf(d: Date): nat
    requires 1 <= d.year && 1 <= d.month <= 12
  {
    (Ordinal(d) - Ordinal(Date(2024, 1, 1))) % 7
  }

  lemma AnchorOrdinal()
    ensures Ordinal(Date(2024, 1, 1)) == 738_886
  {
  }

  lemma NextInWeek(n: int)
    ensures (n + 1) % 7 == (n % 7 + 1) % 7
  {
  }

  /** The weekday moves on by one with the date. */
  lemma WeekdaysFollow(d: Date)
    requires RealDate(d)
    ensures WeekdayOf(NextDate(d)) == (WeekdayOf(d) + 1) % 7
  {
    var a := Ordinal(Date(2024, 1, 1));
    assert Ordinal(NextDate(d)) == Ordinal(d) + 1 by { OrdinalOfNext(d); }
    NextInWeek(Ordinal(d) - a);
  }

  lemma SameWeekday(day: nat)
    ensures WeekdayOf(DateOf(day)) == (day + EPOCH_ORDINAL + 6) % 7
  {
    var n := EPOCH_ORDINAL + day;
    assert Ordinal(DateOf(day)) == n by { OrdinalOfDateOf(day); }
    assert Ordinal(Date(2024, 1, 1)) == 738_886 by { AnchorOrdinal(); }
    WeeksBetween(n);
  }

  lemma WeeksBetween(n: int)
    ensures (n - 738_886) % 7 == (n + 6) % 7
  {
    assert n + 6 == (n - 738_886) + 7 * 105_556;
  }

  /** Block b names the local date, hour and minute that the clock shows at `local`. */
  predicate Names(b: Block, local: Instant) {
    var shown := Fields(local);
    && WeekdayOf(DateOf(local / DAY)) in b.weekdays
    && shown[3] in b.hours
    && shown[4] in b.minutes
  }

  /** Slot s is the kind of an enabled block and the print of minute k, whose local reading the
      block names. */
  ghost predicate AskedFor(blocks: seq<Block>, offset: int, k: nat, s: Slot)
    requires 0 <= k + offset
  {
    exists b :: b in blocks && b.enabled && b.kind == s.kind && Names(b, (k + offset) * MINUTE) && s.due == PrintShort(k * MINUTE)
  }

  lemma MinuteOfDay(local: nat)
    ensures local * MINUTE / DAY == local / 1440 && local * MINUTE % DAY == local % 1440 * MINUTE
  {
    var day, rest := local / 1440, local % 1440;
    QuotientIs(local * MINUTE, DAY, day, rest * MINUTE);
  }

  lemma HourOfDay(rest: nat)
    ensures rest * MINUTE / (60 * MINUTE) == rest / 60 && rest * MINUTE / MINUTE == rest
  {
    QuotientIs(rest * MINUTE, 60 * MINUTE, rest / 60, rest % 60 * MINUTE);
    QuotientIs(rest * MINUTE, MINUTE, rest, 0);
  }

  lemma HoursInDays(local: nat)
    ensures local / 60 % 24 == local % 1440 / 60 && local % 60 == local % 1440 % 60
  {
    var day, rest := local / 1440, local % 1440;
    QuotientIs(local, 60, day * 24 + rest / 60, rest % 60);
    QuotientIs(local / 60, 24, day, rest / 60);
  }

  /** What the clock shows at a whole local minute. */
  lemma ClockShows(local: nat)
    ensures Fields(local * MINUTE)[3] == HourOf(local) && Fields(local * MINUTE)[4] == MinuteOf(local)
    ensures WeekdayOf(DateOf(local * MINUTE / DAY)) == Weekday(local)
  {
    MinuteOfDay(local);
    HourOfDay(local % 1440);
    HoursInDays(local);
    SameWeekday(local / 1440);
    var f, c := Fields(local * MINUTE), Clock(local * MINUTE);
    assert f[3] == c[0] && f[4] == c[1];
  }

  lemma NamesIsMatches(b: Block, offset: int, k: nat)
    requires 0 <= k + offset
    ensures Matches(b, offset, k) == (b.enabled && Names(b, (k + offset) * MINUTE))
  {
    ClockShows(k + offset);
  }

  /** A slot is due exactly when some whole minute of the closed interval is asked for. The local
      clock is the UTC one moved by the offset. */
  lemma DueMeansNamed(blocks: seq<Block>, now: Instant, horizon: nat, offset: int, s: Slot)
    requires 0 <= now + offset * MINUTE
    ensures s in DueSlots(blocks, now, horizon, offset) <==>
      exists k: nat :: 0 <= k + offset && now <= k * MINUTE <= now + horizon * MINUTE && AskedFor(blocks, offset, k, s)
  {
    DueSlotsAre(blocks, now, horizon, offset, s);
    if s in DueSlots(blocks, now, horizon, offset) {
      var k: nat, b :| b in blocks && Matches(b, offset, k) && now <= k * MINUTE <= Horizon(now, horizon) && s == SlotAt(b.kind, k);
      NamesIsMatches(b, offset, k);
      assert AskedFor(blocks, offset, k, s);
    }
    if k: nat :| 0 <= k + offset && now <= k * MINUTE <= now + horizon * MINUTE && AskedFor(blocks, offset, k, s) {
      var b :| b in blocks && b.enabled && b.kind == s.kind && Names(b, (k + offset) * MINUTE) && s.due == PrintShort(k * MINUTE);
      NamesIsMatches(b, offset, k);
      assert Matches(b, offset, k) && s == SlotAt(b.kind, k);
    }
  }
}
