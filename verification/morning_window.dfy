/** The morning window and the eligibility map (briefing_contracts.py).

    Local 08:00 of each date is an abstract instant, strictly increasing with the date:
    daylight saving moves it, nothing reorders it. */
module MorningWindow {
  import opened UtcText

  /** Microseconds; the boundary of a local date is the UTC instant of its 08:00. */
  type Moment = int
  type Mornings = int -> Moment

  ghost predicate Calendar(at8: Mornings) {
    && (forall d: int, e: int :: d < e ==> at8(d) < at8(e))
    && (forall d: int :: at8(d) % SECOND == 0)
  }

  /** `today` is the local date of `asOf`: after yesterday's 08:00 and before tomorrow's. */
  predicate LocalDate(at8: Mornings, today: int, asOf: Moment) {
    at8(today - 1) <= asOf < at8(today + 1)
  }

  datatype Bounds = Bounds(lower: Moment, upper: Moment) | LastAfterAsOf

  function UpperDate(at8: Mornings, today: int, asOf: Moment): int {
    if asOf >= at8(today) then today else today - 1
  }

  function ComputeWindow(at8: Mornings, today: int, asOf: Moment, last: Option<Moment>): Bounds {
    if last.Some? && last.value > asOf then LastAfterAsOf
    else
      var date := UpperDate(at8, today, asOf);
      var upper, cap := at8(date), at8(date - 7);
      if last.None? then Bounds(cap, upper)
      else if last.value >= upper then Bounds(upper, upper)
      else if last.value < cap then Bounds(cap, upper)
      else Bounds(last.value, upper)
  }

  /** The window ends at the latest 08:00 not after `asOf`; it is empty exactly when the last
      window reached that far, and otherwise starts at the last end or seven mornings back,
      whichever is later. */
  lemma WindowShape(at8: Mornings, today: int, asOf: Moment, last: Option<Moment>)
    requires Calendar(at8) && LocalDate(at8, today, asOf)
    ensures ComputeWindow(at8, today, asOf, last).LastAfterAsOf? <==> last.Some? && asOf < last.value
    ensures forall w :: w == ComputeWindow(at8, today, asOf, last) && w.Bounds? ==>
      var d := UpperDate(at8, today, asOf);
      && w.upper == at8(d) <= asOf < at8(d + 1)
      && at8(d - 7) <= w.lower <= w.upper
      && (w.lower == w.upper <==> last.Some? && last.value >= w.upper)
      && (w.lower < w.upper ==>
            w.lower == if last.Some? && last.value > at8(d - 7) then last.value else at8(d - 7))
  {
    var d := UpperDate(at8, today, asOf);
    assert at8(d - 7) < at8(d);
  }

  // ------------------------------------------------------------ eligibility

  datatype Semantic = DistinctEvent | MaterialUpdate | Rewrite | BypassTerminal | PendingReview | PendingModelError

  predicate Eligible(decision: Semantic, suppressed: bool) {
    !suppressed && (decision == DistinctEvent || decision == MaterialUpdate)
  }
}
