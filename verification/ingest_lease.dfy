/** The ingest runner's source leases (ingest_runner.py): `next_due_at` is at once the
    schedule of a source and the fencing token of the run that holds it.

    Times are whole seconds, the precision `_format_utc` keeps. */
module IngestLease {
  import opened Ordering
  import opened UtcText

  type SourceId = string
  type ItemId = string

  const LEASE_SECONDS := 300
  const DEFAULT_RETRY_SECONDS := 300
  const BACKOFF_AFTER_FAILURES := 3
  const BACKOFF_CAP_SECONDS := 86_400
  const BACKOFF_RUN_WINDOW := 64

  datatype Source = Source(id: SourceId, enabled: bool, queries: nat, cadence: nat, firstDue: Option<int>)
  datatype Row = Row(enabled: bool, nextDue: Option<int>)
  datatype SourceClaim = SourceClaim(source: SourceId, queries: nat, lease: int)

  type Registry = map<SourceId, Row>

  // ------------------------------------------------------------ retry and backoff

  function Max(a: int, b: int): int { if a < b then b else a }
  function Min(a: int, b: int): int { if a < b then a else b }

  function Pow2(n: nat): nat { if n == 0 then 1 else 2 * Pow2(n - 1) }

  function CadenceMinutes(cadence: nat): nat { if cadence == 0 then 60 else cadence }

  function BackoffSeconds(streak: nat, cadenceMinutes: nat): nat {
    if streak < BACKOFF_AFTER_FAILURES then 0
    else Min(cadenceMinutes * 60 * Pow2(Min(streak - 2, 16)), BACKOFF_CAP_SECONDS)
  }

  lemma {:induction false} Pow2Grows(a: nat, b: nat)
    requires a <= b
    ensures 1 <= Pow2(a) <= Pow2(b)
    decreases b
  {
    if a < b { Pow2Grows(a, b - 1); } else if a > 0 { Pow2Grows(a - 1, a - 1); }
  }

  /** A longer failure streak never shortens the wait, and the wait never passes a day. */
  lemma BackoffGrowsToTheCap(streak: nat, longer: nat, cadence: nat)
    requires streak <= longer
    ensures BackoffSeconds(streak, cadence) <= BackoffSeconds(longer, cadence) <= BACKOFF_CAP_SECONDS
  {
    if streak >= BACKOFF_AFTER_FAILURES {
      var a, b := Min(streak - 2, 16), Min(longer - 2, 16);
      Pow2Grows(a, b);
      ProductGrows(cadence * 60, Pow2(a), Pow2(b));
    }
  }

  lemma ProductGrows(c: nat, a: nat, b: nat)
    requires a <= b
    ensures c * a <= c * b
  {
  }

  /** No backoff before the third failure; then twice the cadence, doubling with every further
      failure, up to a day. */
  lemma BackoffDoubles(streak: nat, cadence: nat)
    requires cadence >= 1
    ensures streak < 3 ==> BackoffSeconds(streak, cadence) == 0
    ensures BackoffSeconds(3, cadence) == Min(2 * cadence * 60, 86_400)
    ensures streak >= 3 ==> BackoffSeconds(streak + 1, cadence) == Min(2 * BackoffSeconds(streak, cadence), 86_400)
  {
    assert Pow2(1) == 2 * Pow2(0) == 2;
    if streak >= 3 {
      if streak < 18 {
        TwiceTheProduct(cadence * 60, Pow2(streak - 2));
        assert Pow2(streak - 1) == 2 * Pow2(streak - 2);
      } else {
        SixteenDoublings();
        ProductGrows(Pow2(16), 60, cadence * 60);
      }
    }
  }

  lemma TwiceTheProduct(c: nat, p: nat)
    ensures c * (2 * p) == 2 * (c * p)
  {
  }

  lemma SixteenDoublings()
    ensures Pow2(16) == 65_536
  {
    assert Pow2(4) == 16;
    assert Pow2(8) == 256;
    assert Pow2(12) == 4096;
  }

  /** One failed query of a run: the server's retry-after and rate-limit reset, if any. */
  datatype Failure = Failure(retryAfter: Option<nat>, reset: Option<int>)

  /** Where a finished source is due next. */
  method NextDue(finish: int, failures: seq<Failure>, streak: nat, cadence: nat) returns (due: int)
    ensures failures == [] ==> due == finish + CadenceMinutes(cadence) * 60
    ensures failures != [] ==> IsLatest(due, finish, failures, BackoffSeconds(streak, CadenceMinutes(cadence)))
    ensures due >= finish + 60
  {
    if failures == [] {
      return finish + CadenceMinutes(cadence) * 60;
    }
    var retry: nat := Max(DEFAULT_RETRY_SECONDS, BackoffSeconds(streak, CadenceMinutes(cadence)));
    for i := 0 to |failures|
      invariant retry >= DEFAULT_RETRY_SECONDS && retry >= BackoffSeconds(streak, CadenceMinutes(cadence))
      invariant forall k :: 0 <= k < i ==> failures[k].retryAfter.Some? ==> retry >= failures[k].retryAfter.value
      invariant retry == DEFAULT_RETRY_SECONDS || retry == BackoffSeconds(streak, CadenceMinutes(cadence))
        || exists k :: 0 <= k < i && failures[k].retryAfter == Some(retry)
    {
      if failures[i].retryAfter.Some? && failures[i].retryAfter.value > retry {
        retry := failures[i].retryAfter.value;
        assert failures[i].retryAfter == Some(retry);
      }
    }
    due := finish + retry;
    for i := 0 to |failures|
      invariant due >= finish + retry
      invariant forall k :: 0 <= k < i ==> failures[k].reset.Some? ==> due >= failures[k].reset.value
      invariant due == finish + retry || exists k :: 0 <= k < i && failures[k].reset == Some(due)
    {
      if failures[i].reset.Some? && failures[i].reset.value > due {
        due := failures[i].reset.value;
        assert failures[i].reset == Some(due);
      }
    }
  }

  /** `due` is the latest of every time the failures ask for, and no later. */
  predicate IsLatest(due: int, finish: int, failures: seq<Failure>, backoff: nat) {
    && due >= finish + DEFAULT_RETRY_SECONDS && due >= finish + backoff
    && (forall k :: 0 <= k < |failures| ==> failures[k].retryAfter.Some? ==> due >= finish + failures[k].retryAfter.value)
    && (forall k :: 0 <= k < |failures| ==> failures[k].reset.Some? ==> due >= failures[k].reset.value)
    && (|| due == finish + DEFAULT_RETRY_SECONDS
        || due == finish + backoff
        || (exists k :: 0 <= k < |failures| && failures[k].retryAfter.Some? && due == finish + failures[k].retryAfter.value)
        || (exists k :: 0 <= k < |failures| && failures[k].reset == Some(due)))
  }

  /** Consecutive failed runs, newest first, and when the streak began.
      A row is (started_at, whether some query of that run succeeded). */
  method FailureStreak(history: seq<(int, bool)>) returns (streak: nat, since: Option<int>)
    ensures streak <= |history| && streak <= BACKOFF_RUN_WINDOW
    ensures forall k :: 0 <= k < streak ==> !history[k].1
    ensures streak < |history| && streak < BACKOFF_RUN_WINDOW ==> history[streak].1
    ensures since == if streak == 0 then None else Some(history[streak - 1].0)
  {
    var rows := if |history| > BACKOFF_RUN_WINDOW then history[..BACKOFF_RUN_WINDOW] else history;
    streak, since := 0, None;
    while streak < |rows|
      invariant streak <= |rows|
      invariant forall k :: 0 <= k < streak ==> !history[k].1
      invariant since == if streak == 0 then None else Some(history[streak - 1].0)
    {
      if rows[streak].1 { break; }
      since := Some(rows[streak].0);
      streak := streak + 1;
    }
  }

  // ------------------------------------------------------------ the registry

  predicate Configured(sources: seq<Source>, id: SourceId) {
    exists k :: 0 <= k < |sources| && sources[k].id == id
  }

  lemma ConfiguredStep(sources: seq<Source>, i: nat)
    requires i < |sources|
    ensures forall id :: Configured(sources[..i + 1], id) <==> Configured(sources[..i], id) || id == sources[i].id
  {
    var a, b := sources[..i], sources[..i + 1];
    forall id ensures Configured(b, id) <==> Configured(a, id) || id == sources[i].id {
      if Configured(a, id) {
        var k :| 0 <= k < |a| && a[k].id == id;
        assert b[k].id == id;
      }
      if id == sources[i].id { assert b[i].id == id; }
      if Configured(b, id) {
        var k :| 0 <= k < |b| && b[k].id == id;
        if k < i { assert a[k].id == id; }
      }
    }
  }

  predicate DistinctIds(sources: seq<Source>) {
    forall i, j :: 0 <= i < j < |sources| ==> sources[i].id != sources[j].id
  }

  /** A source may be claimed at `now`. */
  predicate Due(rows: Registry, id: SourceId, now: int) {
    id in rows && rows[id].enabled && (rows[id].nextDue.None? || rows[id].nextDue.value <= now)
  }

  function DueKey(rows: Registry, id: SourceId): Option<int> {
    if id in rows then rows[id].nextDue else None
  }

  /** ORDER BY: never-scheduled sources first, then by due time, then by id. */
  function DueOrder(rows: Registry): (SourceId, SourceId) -> bool {
    (a, b) =>
      var x, y := DueKey(rows, a), DueKey(rows, b);
      if x == y then TextLess(a, b)
      else x.None? || (y.Some? && x.value < y.value)
  }

  lemma DueOrderIsStrictTotal(rows: Registry)
    ensures StrictTotal(DueOrder(rows))
  {
    var lt := DueOrder(rows);
    forall a, b ensures !lt(a, a) && (a != b ==> lt(a, b) || lt(b, a)) {
      TextLessTrichotomy(a, a);
      TextLessTrichotomy(a, b);
    }
    forall a, b, c | lt(a, b) && lt(b, c) ensures lt(a, c) {
      if TextLess(a, b) && TextLess(b, c) { TextLessTransitive(a, b, c); }
    }
  }

  function DueRows(rows: Registry, now: int): (r: seq<SourceId>)
    ensures forall id :: id in r <==> Due(rows, id, now)
    ensures forall k :: 0 <= k < |r| ==> Due(rows, r[k], now)
    ensures Claimable(rows, r)
  {
    DueOrderIsStrictTotal(rows);
    InOrder((set id | id in rows && Due(rows, id, now)), DueOrder(rows))
  }

  /** The due rows are the enabled ones never scheduled or due by now; the never scheduled come
      first, the others by due time, and equals by id. */
  lemma DueRowsRead(rows: Registry, now: int)
    ensures var due := DueRows(rows, now);
      && (forall id :: id in due <==>
            id in rows && rows[id].enabled && (rows[id].nextDue == None || rows[id].nextDue.value <= now))
      && (forall j, k :: 0 <= j < k < |due| ==> DueSooner(rows, due[j], due[k]))
  {
    DueOrderIsStrictTotal(rows);
    var due := DueRows(rows, now);
    forall j, k | 0 <= j < k < |due| ensures DueSooner(rows, due[j], due[k]) {
      assert DueOrder(rows)(due[j], due[k]);
    }
  }

  predicate DueSooner(rows: Registry, a: SourceId, b: SourceId) {
    a in rows && b in rows
    && (if rows[a].nextDue == rows[b].nextDue then TextLess(a, b)
        else rows[a].nextDue == None || (rows[b].nextDue != None && rows[a].nextDue.value < rows[b].nextDue.value))
  }

  function TotalQueries(claims: seq<SourceClaim>): nat {
    if claims == [] then 0 else TotalQueries(claims[..|claims| - 1]) + claims[|claims| - 1].queries
  }

  predicate ClaimedIn(claims: seq<SourceClaim>, id: SourceId) {
    exists k :: 0 <= k < |claims| && claims[k].source == id
  }

  lemma ClaimedInAppend(claims: seq<SourceClaim>, c: SourceClaim)
    ensures forall x :: ClaimedIn(claims + [c], x) <==> ClaimedIn(claims, x) || x == c.source
  {
    var all := claims + [c];
    assert all[|claims|] == c;
    forall x | ClaimedIn(claims, x) ensures ClaimedIn(all, x) {
      var k :| 0 <= k < |claims| && claims[k].source == x;
      assert all[k].source == x;
    }
  }

  /** The queries configured under an id; the last source of that id counts. */
  function QueriesOf(sources: seq<Source>, id: SourceId): nat {
    if sources == [] then 0
    else if sources[|sources| - 1].id == id then sources[|sources| - 1].queries
    else QueriesOf(sources[..|sources| - 1], id)
  }

  method Lookup(sources: seq<Source>, id: SourceId) returns (found: Option<Source>)
    ensures found.Some? <==> Configured(sources, id)
    ensures found.Some? ==> found.value.id == id && found.value.queries == QueriesOf(sources, id)
  {
    var i := |sources|;
    assert sources[..i] == sources;
    while i > 0
      invariant 0 <= i <= |sources|
      invariant forall k :: i <= k < |sources| ==> sources[k].id != id
      invariant QueriesOf(sources[..i], id) == QueriesOf(sources, id)
    {
      assert sources[..i][..i - 1] == sources[..i - 1];
      if sources[i - 1].id == id { return Some(sources[i - 1]); }
      i := i - 1;
    }
    return None;
  }

  // ------------------------------------------------------------ the greedy claims

  /** The arguments of one claiming call. */
  datatype Asked = Asked(sources: seq<Source>, selected: Option<set<SourceId>>, budget: Option<nat>, now: int)

  /** The rows a call wants: selected and configured. */
  function Wants(ask: Asked): SourceId -> bool {
    id => (ask.selected.None? || id in ask.selected.value) && Configured(ask.sources, id)
  }

  function Wanted(order: seq<SourceId>, ask: Asked): seq<SourceId> { Filter(order, Wants(ask)) }

  /** What the budget leaves after some claims; None is no budget. */
  function Left(claims: seq<SourceClaim>, budget: Option<nat>): Option<int> {
    if budget.None? then None else Some(budget.value - TotalQueries(claims))
  }

  function CutTo(queries: nat, left: Option<int>): int {
    if left.Some? && left.value < queries then left.value else queries
  }

  /** A claim of `id` after some others: all its queries, or the rest of the budget. */
  predicate GreedyClaim(before: seq<SourceClaim>, c: SourceClaim, id: SourceId, ask: Asked) {
    && c.source == id && c.lease == ask.now + LEASE_SECONDS
    && 1 <= c.queries == CutTo(QueriesOf(ask.sources, id), Left(before, ask.budget))
  }

  /** The claims are the first of the wanted rows, in order, each as large as it can be. */
  predicate Greedy(claims: seq<SourceClaim>, wanted: seq<SourceId>, ask: Asked) {
    && |claims| <= |wanted|
    && forall k :: 0 <= k < |claims| ==> GreedyClaim(claims[..k], claims[k], wanted[k], ask)
  }

  /** Why there are no more: none wanted, no budget, or a source without queries. */
  predicate Exhausted(claims: seq<SourceClaim>, wanted: seq<SourceId>, ask: Asked)
    requires |claims| <= |wanted|
  {
    |claims| == |wanted| || Left(claims, ask.budget) == Some(0) || QueriesOf(ask.sources, wanted[|claims|]) == 0
  }

  lemma {:induction false} FilterPrefix(order: seq<SourceId>, i: nat, p: SourceId -> bool)
    requires i <= |order|
    ensures Filter(order[..i], p) <= Filter(order, p)
    decreases |order| - i
  {
    if i == |order| {
      assert order[..i] == order;
    } else {
      FilterPrefix(order, i + 1, p);
      assert order[..i + 1][..i] == order[..i];
    }
  }

  lemma WantedStep(order: seq<SourceId>, i: nat, ask: Asked)
    requires i < |order|
    ensures Wanted(order[..i + 1], ask) == Wanted(order[..i], ask) + (if Wants(ask)(order[i]) then [order[i]] else [])
    ensures Wants(ask)(order[i]) ==>
      |Wanted(order[..i], ask)| < |Wanted(order, ask)| && Wanted(order, ask)[|Wanted(order[..i], ask)|] == order[i]
  {
    assert order[..i + 1][..i] == order[..i];
    FilterPrefix(order, i + 1, Wants(ask));
  }

  lemma GreedyStays(claims: seq<SourceClaim>, wanted: seq<SourceId>, longer: seq<SourceId>, ask: Asked)
    requires Greedy(claims, wanted, ask) && wanted <= longer
    ensures Greedy(claims, longer, ask)
  {
  }

  lemma GreedyAppend(claims: seq<SourceClaim>, c: SourceClaim, wanted: seq<SourceId>, id: SourceId, ask: Asked)
    requires Greedy(claims, wanted, ask) && |claims| == |wanted| && GreedyClaim(claims, c, id, ask)
    ensures Greedy(claims + [c], wanted + [id], ask)
  {
    var all := claims + [c];
    forall k | 0 <= k < |all| ensures GreedyClaim(all[..k], all[k], (wanted + [id])[k], ask) {
      if k < |claims| { assert all[..k] == claims[..k] && GreedyClaim(claims[..k], claims[k], wanted[k], ask); }
      else { assert all[..k] == claims; }
    }
  }

  /** The claims never ask for more than the budget. */
  lemma {:induction false} GreedyIsWithinBudget(claims: seq<SourceClaim>, wanted: seq<SourceId>, ask: Asked)
    requires Greedy(claims, wanted, ask) && ask.budget.Some?
    ensures TotalQueries(claims) <= ask.budget.value
  {
    if claims != [] {
      var n := |claims| - 1;
      assert GreedyClaim(claims[..n], claims[n], wanted[n], ask);
    }
  }

  /** Without a budget, and when every source has queries, all that is wanted is claimed. */
  lemma UnlimitedTakesAll(claims: seq<SourceClaim>, wanted: seq<SourceId>, ask: Asked)
    requires Greedy(claims, wanted, ask) && Exhausted(claims, wanted, ask)
    requires ask.budget.None? && forall k :: 0 <= k < |wanted| ==> QueriesOf(ask.sources, wanted[k]) >= 1
    ensures |claims| == |wanted|
  {
  }

  lemma {:induction false} GreedyAgree(a: seq<SourceClaim>, b: seq<SourceClaim>, wanted: seq<SourceId>, ask: Asked, k: nat)
    requires Greedy(a, wanted, ask) && Greedy(b, wanted, ask) && k <= |a| && k <= |b|
    ensures a[..k] == b[..k]
  {
    if k > 0 {
      GreedyAgree(a, b, wanted, ask, k - 1);
      assert GreedyClaim(a[..k - 1], a[k - 1], wanted[k - 1], ask) && GreedyClaim(b[..k - 1], b[k - 1], wanted[k - 1], ask);
      assert a[..k] == a[..k - 1] + [a[k - 1]] && b[..k] == b[..k - 1] + [b[k - 1]];
    }
  }

  lemma NothingFits(a: seq<SourceClaim>, c: SourceClaim, wanted: seq<SourceId>, ask: Asked)
    requires |a| < |wanted| && Exhausted(a, wanted, ask)
    ensures !GreedyClaim(a, c, wanted[|a|], ask)
  {
  }

  lemma ExhaustedIsLongest(a: seq<SourceClaim>, b: seq<SourceClaim>, wanted: seq<SourceId>, ask: Asked)
    requires Greedy(a, wanted, ask) && Exhausted(a, wanted, ask) && Greedy(b, wanted, ask)
    ensures |b| <= |a|
  {
    if |a| < |b| {
      assert a[..|a|] == a;
      GreedyAgree(a, b, wanted, ask, |a|);
      NothingFits(a, b[|a|], wanted, ask);
      assert false;
    }
  }

  /** The contract leaves no choice: one call has one possible list of claims. */
  lemma GreedyIsUnique(a: seq<SourceClaim>, b: seq<SourceClaim>, wanted: seq<SourceId>, ask: Asked)
    requires Greedy(a, wanted, ask) && Exhausted(a, wanted, ask) && Greedy(b, wanted, ask) && Exhausted(b, wanted, ask)
    ensures a == b
  {
    ExhaustedIsLongest(a, b, wanted, ask);
    ExhaustedIsLongest(b, a, wanted, ask);
    GreedyAgree(a, b, wanted, ask, |a|);
    assert a[..|a|] == a && b[..|b|] == b;
  }

  /** The registry after leasing exactly the claimed sources. */
  function Leased(rows: Registry, claims: seq<SourceClaim>, lease: int): Registry {
    map id | id in rows :: if ClaimedIn(claims, id) then rows[id].(nextDue := Some(lease)) else rows[id]
  }

  lemma LeaseOneMore(rows: Registry, claims: seq<SourceClaim>, c: SourceClaim)
    requires c.source in rows && !ClaimedIn(claims, c.source)
    ensures Leased(rows, claims + [c], c.lease)
         == Leased(rows, claims, c.lease)[c.source := rows[c.source].(nextDue := Some(c.lease))]
    ensures TotalQueries(claims + [c]) == TotalQueries(claims) + c.queries
    ensures Leased(rows, claims, c.lease)[c.source] == rows[c.source]
  {
    ClaimedInAppend(claims, c);
    assert (claims + [c])[..|claims|] == claims;
  }

  function NotSame(): (SourceId, SourceId) -> bool { (a, b) => a != b }

  /** A row whose turn comes now has not been claimed yet. */
  lemma NotClaimedYet(claims: seq<SourceClaim>, order: seq<SourceId>, i: nat, ask: Asked)
    requires i < |order| && (forall j, k :: 0 <= j < k < |order| ==> order[j] != order[k])
    requires Greedy(claims, Wanted(order[..i], ask), ask)
    ensures !ClaimedIn(claims, order[i])
  {
    var wanted := Wanted(order[..i], ask);
    FilterMembers(order[..i], Wants(ask));
    forall k | 0 <= k < |claims| ensures claims[k].source != order[i] {
      assert GreedyClaim(claims[..k], claims[k], wanted[k], ask);
      assert wanted[k] in wanted && wanted[k] in order[..i];
    }
  }

  /** The counter the loop keeps is what the budget leaves. */
  predicate Remains(remaining: Option<nat>, claims: seq<SourceClaim>, budget: Option<nat>) {
    if remaining.None? then budget.None? else Left(claims, budget) == Some(remaining.value)
  }

  function Spent(remaining: Option<nat>, count: nat): Option<nat>
    requires remaining.Some? ==> count <= remaining.value
  {
    if remaining.Some? then Some(remaining.value - count) else None
  }

  lemma SpendOne(remaining: Option<nat>, claims: seq<SourceClaim>, c: SourceClaim, budget: Option<nat>)
    requires Remains(remaining, claims, budget) && (remaining.Some? ==> c.queries <= remaining.value)
    ensures Remains(Spent(remaining, c.queries), claims + [c], budget)
    ensures Spent(remaining, c.queries) == Some(0) ==> Left(claims + [c], budget) == Some(0)
  {
    assert (claims + [c])[..|claims|] == claims;
  }

  /** The claims are the greedy ones, and exactly their sources carry the new lease. */
  predicate LeasedGreedily(before: Registry, rows: Registry, order: seq<SourceId>, claims: seq<SourceClaim>, ask: Asked) {
    && Greedy(claims, Wanted(order, ask), ask) && Exhausted(claims, Wanted(order, ask), ask)
    && rows == Leased(before, claims, ask.now + LEASE_SECONDS)
  }

  predicate Claimable(rows: Registry, order: seq<SourceId>) {
    && (forall k :: 0 <= k < |order| ==> order[k] in rows)
    && (forall j, k :: 0 <= j < k < |order| ==> order[j] != order[k])
  }

  /** The claiming loop after i rows. */
  ghost predicate LeaseState(before: Registry, rows: Registry, claims: seq<SourceClaim>, order: seq<SourceId>, i: nat, ask: Asked)
    requires i <= |order|
  {
    && |claims| == |Wanted(order[..i], ask)|
    && Greedy(claims, Wanted(order[..i], ask), ask)
    && rows == Leased(before, claims, ask.now + LEASE_SECONDS)
  }

  lemma StateSkips(before: Registry, rows: Registry, claims: seq<SourceClaim>, order: seq<SourceId>, i: nat, ask: Asked)
    requires i < |order| && LeaseState(before, rows, claims, order, i, ask) && !Wants(ask)(order[i])
    ensures LeaseState(before, rows, claims, order, i + 1, ask)
  {
    WantedStep(order, i, ask);
    assert Wanted(order[..i + 1], ask) == Wanted(order[..i], ask);
  }

  lemma StateClaims(before: Registry, rows: Registry, claims: seq<SourceClaim>, order: seq<SourceId>, i: nat, ask: Asked, c: SourceClaim)
    requires i < |order| && LeaseState(before, rows, claims, order, i, ask) && Wants(ask)(order[i])
    requires Claimable(before, order) && GreedyClaim(claims, c, order[i], ask)
    ensures order[i] in rows
    ensures LeaseState(before, rows[order[i] := rows[order[i]].(nextDue := Some(c.lease))], claims + [c], order, i + 1, ask)
    ensures TotalQueries(claims + [c]) == TotalQueries(claims) + c.queries
  {
    WantedStep(order, i, ask);
    NotClaimedYet(claims, order, i, ask);
    LeaseOneMore(before, claims, c);
    GreedyAppend(claims, c, Wanted(order[..i], ask), order[i], ask);
  }

  lemma StateStops(before: Registry, rows: Registry, claims: seq<SourceClaim>, order: seq<SourceId>, i: nat, ask: Asked)
    requires i < |order| && LeaseState(before, rows, claims, order, i, ask)
    requires Wants(ask)(order[i]) && (QueriesOf(ask.sources, order[i]) == 0 || Left(claims, ask.budget) == Some(0))
    ensures Greedy(claims, Wanted(order, ask), ask) && Exhausted(claims, Wanted(order, ask), ask)
  {
    FilterPrefix(order, i, Wants(ask));
    GreedyStays(claims, Wanted(order[..i], ask), Wanted(order, ask), ask);
    WantedStep(order, i, ask);
  }

  lemma StateEnds(before: Registry, rows: Registry, claims: seq<SourceClaim>, order: seq<SourceId>, i: nat, ask: Asked)
    requires i <= |order| && LeaseState(before, rows, claims, order, i, ask)
    requires i == |order| || Left(claims, ask.budget) == Some(0)
    ensures Greedy(claims, Wanted(order, ask), ask) && Exhausted(claims, Wanted(order, ask), ask)
  {
    FilterPrefix(order, i, Wants(ask));
    GreedyStays(claims, Wanted(order[..i], ask), Wanted(order, ask), ask);
    if i == |order| { assert order[..i] == order; }
  }

  /** The registry once the first i sources have been upserted. */
  ghost predicate Upserted(before: Registry, sources: seq<Source>, i: nat, rows: Registry)
    requires i <= |sources|
  {
    && (forall id :: id in rows <==> id in before || Configured(sources[..i], id))
    && (forall id :: id in before ==> id in rows && rows[id].nextDue == before[id].nextDue)
    && (forall id :: id in before && !Configured(sources[..i], id) ==> id in rows && rows[id] == before[id])
    && (forall k :: 0 <= k < i ==> UpsertedRow(before, sources[k], rows))
  }

  predicate UpsertedRow(before: Registry, s: Source, rows: Registry) {
    s.id in rows && rows[s.id].enabled == s.enabled && (s.id !in before ==> rows[s.id].nextDue == s.firstDue)
  }

  lemma UpsertStep(before: Registry, sources: seq<Source>, i: nat, rows: Registry)
    requires DistinctIds(sources) && i < |sources| && Upserted(before, sources, i, rows)
    ensures var s := sources[i];
      Upserted(before, sources, i + 1, rows[s.id := Row(s.enabled, if s.id in rows then rows[s.id].nextDue else s.firstDue)])
  {
    var s := sources[i];
    var after := rows[s.id := Row(s.enabled, if s.id in rows then rows[s.id].nextDue else s.firstDue)];
    ConfiguredStep(sources, i);
    forall k | 0 <= k < i + 1 ensures UpsertedRow(before, sources[k], after) {
      if k < i { assert UpsertedRow(before, sources[k], rows); }
    }
  }

  class IngestDb {
    var rows: Registry
    var items: map<ItemId, SourceId>

    constructor ()
      ensures rows == map[] && items == map[]
    {
      rows, items := map[], map[];
    }

    /** Insert or update every configured source; an existing row keeps its `next_due_at`. */
    method Upsert(sources: seq<Source>)
      requires DistinctIds(sources)
      modifies this`rows
      ensures Upserted(old(rows), sources, |sources|, rows)
    {
      for i := 0 to |sources|
        invariant Upserted(old(rows), sources, i, rows)
      {
        var s := sources[i];
        UpsertStep(old(rows), sources, i, rows);
        rows := rows[s.id := Row(s.enabled, if s.id in rows then rows[s.id].nextDue else s.firstDue)];
      }
    }

    /** `_sync_sources`: upsert the configured sources and retire the rest.  An existing
        row keeps its `next_due_at`, so a sync never disturbs a lease. */
    method SyncSources(sources: seq<Source>) returns (retired: nat)
      requires DistinctIds(sources)
      modifies this`rows
      ensures forall id :: id in rows <==> id in old(rows) || Configured(sources, id)
      ensures forall id :: id in old(rows) ==> rows[id].nextDue == old(rows)[id].nextDue
      ensures forall k :: 0 <= k < |sources| ==> UpsertedRow(old(rows), sources[k], rows)
      ensures forall id :: id in rows && !Configured(sources, id) ==> !rows[id].enabled
      ensures retired == |set id | id in old(rows) && old(rows)[id].enabled && !Configured(sources, id)|
    {
      Upsert(sources);
      assert sources[..|sources|] == sources;
      var gone := set id | id in rows && rows[id].enabled && !Configured(sources, id);
      assert gone == set id | id in old(rows) && old(rows)[id].enabled && !Configured(sources, id);
      rows := map id | id in rows :: if id in gone then rows[id].(enabled := false) else rows[id];
      return |gone|;
    }

    /** `_claim_queries`: lease due sources in due order until the query budget runs out. */
    method ClaimQueries(ask: Asked) returns (claims: seq<SourceClaim>)
      modifies this`rows
      ensures LeasedGreedily(old(rows), rows, DueRows(old(rows), ask.now), claims, ask)
    {
      var order := DueRows(rows, ask.now);
      claims := LeaseInOrder(order, ask);
    }

    /** The loop over the selected rows; two breaks and one skip decide who is leased. */
    method LeaseInOrder(order: seq<SourceId>, ask: Asked) returns (claims: seq<SourceClaim>)
      requires Claimable(rows, order)
      modifies this`rows
      ensures LeasedGreedily(old(rows), rows, order, claims, ask)
    {
      claims := [];
      var remaining: Option<nat> := ask.budget;
      for i := 0 to |order|
        invariant LeaseState(old(rows), rows, claims, order, i, ask)
        invariant Remains(remaining, claims, ask.budget)
      {
        var id := order[i];
        var source := Lookup(ask.sources, id);
        if (ask.selected.Some? && id !in ask.selected.value) || source.None? {
          StateSkips(old(rows), rows, claims, order, i, ask);
          continue;
        }
        var count := if remaining.Some? && remaining.value < source.value.queries then remaining.value else source.value.queries;
        if count < 1 {
          StateStops(old(rows), rows, claims, order, i, ask);
          return;
        }
        var c := SourceClaim(id, count, ask.now + LEASE_SECONDS);
        StateClaims(old(rows), rows, claims, order, i, ask, c);
        rows := rows[id := rows[id].(nextDue := Some(c.lease))];
        SpendOne(remaining, claims, c, ask.budget);
        claims := claims + [c];
        remaining := Spent(remaining, count);
        if remaining == Some(0) {
          StateEnds(old(rows), rows, claims, order, i + 1, ask);
          return;
        }
      }
      StateEnds(old(rows), rows, claims, order, |order|, ask);
    }

    /** `_persist_outcome`: items are written only while the row still carries the lease. */
    method Persist(source: SourceId, lease: int, ids: seq<ItemId>) returns (accepted: bool, inserted: nat)
      modifies this`items
      ensures accepted <==> source in rows && rows[source].nextDue == Some(lease)
      ensures !accepted ==> items == old(items) && inserted == 0
      ensures accepted ==> forall id :: id in items <==> id in old(items) || id in ids
      ensures forall id :: id in old(items) ==> items[id] == old(items)[id]
      ensures forall id :: id in items && id !in old(items) ==> items[id] == source
      ensures |items| == |old(items)| + inserted
    {
      if source !in rows || rows[source].nextDue != Some(lease) {
        return false, 0;
      }
      inserted := 0;
      for i := 0 to |ids|
        invariant forall id :: id in items <==> id in old(items) || id in ids[..i]
        invariant forall id :: id in old(items) ==> items[id] == old(items)[id]
        invariant forall id :: id in items && id !in old(items) ==> items[id] == source
        invariant |items| == |old(items)| + inserted
      {
        assert ids[..i + 1] == ids[..i] + [ids[i]];
        if ids[i] !in items {
          items := items[ids[i] := source];
          inserted := inserted + 1;
        }
      }
      assert ids[..|ids|] == ids;
      return true, inserted;
    }

    /** `_finalize_sources`, one source: a compare-and-set on the lease value. */
    method Finalize(source: SourceId, lease: int, due: int) returns (changed: bool)
      modifies this`rows
      ensures changed <==> source in old(rows) && old(rows)[source].nextDue == Some(lease)
      ensures rows == if changed then old(rows)[source := old(rows)[source].(nextDue := Some(due))] else old(rows)
    {
      if source in rows && rows[source].nextDue == Some(lease) {
        rows := rows[source := rows[source].(nextDue := Some(due))];
        return true;
      }
      return false;
    }
  }
}
