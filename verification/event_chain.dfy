/** What the four writers keep: version numbers are exactly 1..n, each version ends when the
    next begins, only the last is open, nothing written is rewritten; and exactly when
    appending the same batch again writes nothing. */
module EventChain {
  import opened Ordering
  import opened UtcText
  import opened EventStore

  // ------------------------------------------------------------ one event's chain

  predicate Numbered(s: Store, e: EventId, n: nat, k: nat) { Key(e, k) in s.versions <==> 1 <= k <= n }

  /** Version k ends when version k + 1 begins. */
  predicate Abuts(s: Store, e: EventId, k: nat) {
    && Key(e, k) in s.versions && Key(e, k + 1) in s.versions
    && s.versions[Key(e, k)].supersededAt == Some(s.versions[Key(e, k + 1)].validFrom)
  }

  predicate OpenAt(s: Store, e: EventId, n: nat) { Key(e, n) in s.versions && s.versions[Key(e, n)].supersededAt == None }

  /** Versions 1..n of e, linked end to start, the last one open. */
  ghost predicate ChainOf(s: Store, e: EventId, n: nat) {
    && (forall k: nat :: Numbered(s, e, n, k))
    && (forall k: nat :: 1 <= k < n ==> Abuts(s, e, k))
    && (n >= 1 ==> OpenAt(s, e, n))
  }

  ghost predicate Chained(s: Store, e: EventId) { ChainOf(s, e, Latest(s, e)) }

  ghost predicate Chain(s: Store) { forall e :: Chained(s, e) }

  lemma LatestIs(s: Store, e: EventId, n: nat)
    requires forall k: nat :: Numbered(s, e, n, k)
    ensures Latest(s, e) == n
  {
    if n >= 1 {
      assert Numbered(s, e, n, n);
      assert Key(e, n) in s.versions && n in NumbersOf(s.versions, e);
    }
    forall m | m in NumbersOf(s.versions, e) ensures m <= n { assert Numbered(s, e, n, m); }
    if n == 0 {
      forall m ensures m !in NumbersOf(s.versions, e) { if m >= 0 { assert Numbered(s, e, n, m); } }
      assert NumbersOf(s.versions, e) == {};
    }
  }

  /** The rows of one event and their links. */
  ghost predicate SameEvent(s: Store, s': Store, e: EventId) {
    && (forall k: nat :: Key(e, k) in s.versions <==> Key(e, k) in s'.versions)
    && (forall k: nat :: Key(e, k) in s.versions && Key(e, k) in s'.versions ==> s'.versions[Key(e, k)] == s.versions[Key(e, k)])
    && (forall k: nat :: Linked(s', Key(e, k)) == Linked(s, Key(e, k)))
  }

  lemma SameEventSameLatest(s: Store, s': Store, e: EventId)
    requires SameEvent(s, s', e)
    ensures Latest(s', e) == Latest(s, e)
  {
    assert forall k :: k in NumbersOf(s.versions, e) ==> Key(e, k) in s.versions;
    assert forall k :: k in NumbersOf(s'.versions, e) ==> Key(e, k) in s'.versions;
    assert NumbersOf(s.versions, e) == NumbersOf(s'.versions, e);
  }

  lemma LinkedAfterPut(s: Store, e: EventId, row: Version, claims: set<ClaimId>, k: Key)
    ensures Linked(Put(s, e, row, claims), k) ==
      Linked(s, k) + (if k == Key(e, Latest(s, e) + 1) then claims else {})
  {
    var s', new' := Put(s, e, row, claims), Key(e, Latest(s, e) + 1);
    forall c ensures c in Linked(s', k) <==> c in Linked(s, k) || (k == new' && c in claims) {
      assert Link(k, c) in s'.links <==> Link(k, c) in s.links || Link(k, c) in NewLinks(new', claims);
      assert c in Linked(s', k) <==> Link(k, c) in s'.links;
      assert c in Linked(s, k) <==> Link(k, c) in s.links;
      assert Link(k, c) in NewLinks(new', claims) <==> k == new' && c in claims;
    }
  }

  lemma PutLeavesOthers(s: Store, e: EventId, row: Version, claims: set<ClaimId>, other: EventId)
    requires other != e
    ensures SameEvent(s, Put(s, e, row, claims), other)
  {
    forall k: nat ensures Linked(Put(s, e, row, claims), Key(other, k)) == Linked(s, Key(other, k)) {
      LinkedAfterPut(s, e, row, claims, Key(other, k));
    }
  }

  lemma SameEventSameChain(s: Store, s': Store, e: EventId)
    requires SameEvent(s, s', e) && Chained(s, e)
    ensures Chained(s', e)
  {
    SameEventSameLatest(s, s', e);
    var n := Latest(s, e);
    forall k: nat ensures Numbered(s', e, n, k) { assert Numbered(s, e, n, k); }
    forall k: nat | 1 <= k < n ensures Abuts(s', e, k) { assert Abuts(s, e, k); }
  }

  lemma FreshNumber(s: Store, e: EventId)
    ensures Key(e, Latest(s, e) + 1) !in s.versions
  {
    assert (Latest(s, e) + 1) !in NumbersOf(s.versions, e);
  }

  /** Adding a version extends its event's chain by one. */
  lemma PutExtends(s: Store, e: EventId, row: Version, claims: set<ClaimId>)
    requires Chained(s, e) && row.supersededAt == None
    ensures Chained(Put(s, e, row, claims), e)
    ensures Latest(Put(s, e, row, claims), e) == Latest(s, e) + 1
    ensures Put(s, e, row, claims).versions[Key(e, Latest(s, e) + 1)] == row
  {
    var n, s' := Latest(s, e), Put(s, e, row, claims);
    var m := n + 1;
    FreshNumber(s, e);
    if n >= 1 { assert Numbered(s, e, n, n) && OpenAt(s, e, n); }
    forall k: nat ensures Numbered(s', e, m, k) { assert Numbered(s, e, n, k); }
    LatestIs(s', e, m);
    forall k: nat | 1 <= k < m ensures Abuts(s', e, k) {
      if k < n { assert Abuts(s, e, k); }
    }
  }

  lemma PutKeepsChain(s: Store, e: EventId, row: Version, claims: set<ClaimId>)
    requires Chain(s) && row.supersededAt == None
    ensures Chain(Put(s, e, row, claims))
  {
    forall o ensures Chained(Put(s, e, row, claims), o) {
      assert Chained(s, o);
      if o == e {
        PutExtends(s, e, row, claims);
      } else {
        PutLeavesOthers(s, e, row, claims, o);
        SameEventSameChain(s, Put(s, e, row, claims), o);
      }
    }
  }

  /** The chain reads the version rows only. */
  lemma SameRowsSameChain(s: Store, s': Store)
    requires Chain(s) && s'.versions == s.versions
    ensures Chain(s')
  {
    forall e ensures Chained(s', e) {
      assert Chained(s, e);
      var n := Latest(s, e);
      assert NumbersOf(s'.versions, e) == NumbersOf(s.versions, e);
      forall k: nat ensures Numbered(s', e, n, k) { assert Numbered(s, e, n, k); }
      LatestIs(s', e, n);
      forall k: nat | 1 <= k < n ensures Abuts(s', e, k) { assert Abuts(s, e, k); }
      if n >= 1 { assert OpenAt(s, e, n); }
    }
  }

  // ------------------------------------------------------------ write once

  predicate Kept(before: Version, after: Version) {
    && after.reason == before.reason && after.summary == before.summary && after.state == before.state
    && after.validFrom == before.validFrom && after.verifiedAt == before.verifiedAt
    && (before.supersededAt.Some? ==> after.supersededAt == before.supersededAt)
  }

  /** s' only adds: every row and link of s is still there, at most closed. */
  ghost predicate Grows(s: Store, s': Store) {
    && s.events <= s'.events && s.claims <= s'.claims && s.links <= s'.links
    && forall k :: k in s.versions ==> k in s'.versions && Kept(s.versions[k], s'.versions[k])
  }

  lemma PutGrows(s: Store, e: EventId, row: Version, claims: set<ClaimId>)
    ensures Grows(s, Put(s, e, row, claims))
  {
    FreshNumber(s, e);
  }

  ghost predicate Sound(s: Store, s': Store) { Grows(s, s') && (Chain(s) ==> Chain(s')) }

  lemma PutIsSound(s: Store, e: EventId, row: Version, claims: set<ClaimId>)
    requires row.supersededAt == None
    ensures Sound(s, Put(s, e, row, claims))
  {
    PutGrows(s, e, row, claims);
    if Chain(s) { PutKeepsChain(s, e, row, claims); }
  }

  lemma SoundTrans(a: Store, b: Store, c: Store)
    requires Sound(a, b) && Sound(b, c)
    ensures Sound(a, c)
  {
  }

  // ------------------------------------------------------------ the four writers

  lemma {:induction false} AppendIsSound(s: Store, ds: seq<Decision>, k: nat, check: Check)
    requires k <= |ds| && AppendSome(s, ds, k, check).Going?
    ensures Sound(s, AppendSome(s, ds, k, check).store)
  {
    if k > 0 {
      AppendIsSound(s, ds, k - 1, check);
      var p, d := AppendSome(s, ds, k - 1, check), ds[k - 1];
      if Judge(p.store, d, check) == Write {
        PutIsSound(p.store, d.event, Row(d.reason, d.summary, d.state, d.validFrom), d.claims);
        SoundTrans(s, p.store, AppendSome(s, ds, k, check).store);
      }
    }
  }

  lemma ReverifyIsSound(s: Store, e: EventId, at: Stamp, verified: ClaimId -> bool)
    requires Reverify(s, e, at, verified).Going?
    ensures Sound(s, Reverify(s, e, at, verified).store)
  {
    var k := Key(e, Latest(s, e));
    if k in s.versions {
      PutIsSound(s, e, Row("claim_reverification", s.versions[k].summary, Verified, at), Linked(s, k));
    }
  }

  lemma {:induction false} ReverifySomeIsSound(s: Store, es: seq<EventId>, n: nat, at: Stamp, verified: ClaimId -> bool)
    requires n <= |es| && ReverifySome(s, es, n, at, verified).Going?
    ensures Sound(s, ReverifySome(s, es, n, at, verified).store)
  {
    if n > 0 {
      ReverifySomeIsSound(s, es, n - 1, at, verified);
      var p := ReverifySome(s, es, n - 1, at, verified);
      ReverifyIsSound(p.store, es[n - 1], at, verified);
      SoundTrans(s, p.store, ReverifySome(s, es, n, at, verified).store);
    }
  }

  lemma AddingRefsIsSound(s: Store, s': Store)
    requires s'.versions == s.versions && s.events <= s'.events && s.claims <= s'.claims && s.links <= s'.links
    ensures Sound(s, s')
  {
    if Chain(s) { SameRowsSameChain(s, s'); }
  }

  lemma ProcessIsSound(s: Store, f: Finding, at: Stamp)
    requires Process(s, f, at).Going?
    ensures Sound(s, Process(s, f, at).store)
  {
    if f.distinct && f.event in s.events {
      AddingRefsIsSound(s, s);
    } else {
      var s1 := s.(events := s.events + {f.event}, claims := s.claims + f.claims);
      var all := f.claims + EverLinked(s1, f.event);
      var row := Row(f.reason, f.summary, f.state, at);
      AddingRefsIsSound(s, s1);
      AddingRefsIsSound(s1, AddLinks(s1, Key(f.event, Latest(s1, f.event)), all));
      PutIsSound(s1, f.event, row, all);
      SoundTrans(s, s1, Process(s, f, at).store);
    }
  }

  lemma {:induction false} ProcessSomeIsSound(s: Store, fs: seq<Finding>, k: nat, at: Stamp)
    requires k <= |fs| && ProcessSome(s, fs, k, at).Going?
    ensures Sound(s, ProcessSome(s, fs, k, at).store)
  {
    if k > 0 {
      ProcessSomeIsSound(s, fs, k - 1, at);
      var p := ProcessSome(s, fs, k - 1, at);
      ProcessIsSound(p.store, fs[k - 1], at);
      SoundTrans(s, p.store, ProcessSome(s, fs, k, at).store);
    }
  }

  /** Regeneration names an event with no row yet, so its version 1 collides with nothing. */
  lemma RegenerateIsSound(s: Store, e: EventId, claim: ClaimId, summary: string, at: Stamp)
    requires ForeignOk(s)
    ensures Sound(s, Regenerate(s, e, claim, summary, at).0)
  {
    var s' := Regenerate(s, e, claim, summary, at).0;
    if e !in s.events && s' != s {
      var s1 := s.(events := s.events + {e}, claims := s.claims + {claim});
      var row := Row("distinct", summary, Verified, at);
      forall k: nat ensures Numbered(s1, e, 0, k) {}
      LatestIs(s1, e, 0);
      assert s' == Put(s1, e, row, {claim});
      AddingRefsIsSound(s, s1);
      PutIsSound(s1, e, row, {claim});
      SoundTrans(s, s1, s');
    }
  }

  // ------------------------------------------------------------ every history

  datatype Op =
    | AppendOp(ds: seq<Decision>, maxItems: nat, check: Check)
    | ReverifyOp(eligible: set<ClaimId>, at: Stamp, verified: ClaimId -> bool)
    | RegenerateOp(event: EventId, claim: ClaimId, summary: string, at: Stamp)
    | ProcessOp(fs: seq<Finding>, at: Stamp)
    | OtherRows(events: set<EventId>, claims: set<ClaimId>)  // rows other modules insert

  function Step(s: Store, op: Op): Store {
    match op
    case AppendOp(ds, maxItems, check) => Append(s, ds, maxItems, check).0
    case ReverifyOp(eligible, at, verified) => ReverifyAll(s, eligible, at, verified).0
    case RegenerateOp(e, claim, summary, at) => Regenerate(s, e, claim, summary, at).0
    case ProcessOp(fs, at) => ProcessAll(s, fs, at).0
    case OtherRows(events, claims) => s.(events := s.events + events, claims := s.claims + claims)
  }

  function At(s: Store, trace: seq<Op>, i: nat): Store
    requires i <= |trace|
  {
    if i == 0 then s else Step(At(s, trace, i - 1), trace[i - 1])
  }

  lemma CommitIsSound(s: Store, p: Progress)
    requires ForeignOk(s) && (p.Going? ==> Sound(s, p.store))
    ensures ForeignOk(Commit(s, p).0) && Sound(s, Commit(s, p).0)
  {
    AddingRefsIsSound(s, s);
  }

  lemma AppendStepIsSound(s: Store, ds: seq<Decision>, maxItems: nat, check: Check)
    requires ForeignOk(s)
    ensures ForeignOk(Append(s, ds, maxItems, check).0) && Sound(s, Append(s, ds, maxItems, check).0)
  {
    var batch := Batch(ds, maxItems);
    if AppendSome(s, batch, |batch|, check).Going? { AppendIsSound(s, batch, |batch|, check); }
    CommitIsSound(s, AppendSome(s, batch, |batch|, check));
  }

  lemma ReverifyStepIsSound(s: Store, eligible: set<ClaimId>, at: Stamp, verified: ClaimId -> bool)
    requires ForeignOk(s)
    ensures ForeignOk(ReverifyAll(s, eligible, at, verified).0) && Sound(s, ReverifyAll(s, eligible, at, verified).0)
  {
    EventOrderIsStrictTotal();
    var es := InOrder(Touched(s, eligible), EventOrder());
    if ReverifySome(s, es, |es|, at, verified).Going? { ReverifySomeIsSound(s, es, |es|, at, verified); }
    CommitIsSound(s, ReverifySome(s, es, |es|, at, verified));
  }

  lemma ProcessStepIsSound(s: Store, fs: seq<Finding>, at: Stamp)
    requires ForeignOk(s)
    ensures ForeignOk(ProcessAll(s, fs, at).0) && Sound(s, ProcessAll(s, fs, at).0)
  {
    if ProcessSome(s, fs, |fs|, at).Going? { ProcessSomeIsSound(s, fs, |fs|, at); }
    CommitIsSound(s, ProcessSome(s, fs, |fs|, at));
  }

  lemma StepIsSound(s: Store, op: Op)
    requires ForeignOk(s)
    ensures ForeignOk(Step(s, op)) && Sound(s, Step(s, op))
  {
    match op
    case AppendOp(ds, maxItems, check) => AppendStepIsSound(s, ds, maxItems, check);
    case ReverifyOp(eligible, at, verified) => ReverifyStepIsSound(s, eligible, at, verified);
    case RegenerateOp(e, claim, summary, at) => RegenerateIsSound(s, e, claim, summary, at);
    case ProcessOp(fs, at) => ProcessStepIsSound(s, fs, at);
    case OtherRows(events, claims) => AddingRefsIsSound(s, Step(s, op));
  }

  /** In every reachable log each event's versions are exactly 1..n, version k < n ends at the
      start of version k + 1, and only version n is open. */
  lemma {:induction false} ReachableLogsAreChained(events: set<EventId>, claims: set<ClaimId>, trace: seq<Op>, i: nat)
    requires i <= |trace|
    ensures var s := At(Store(events, claims, map[], {}), trace, i); ForeignOk(s) && Chain(s)
  {
    var start := Store(events, claims, map[], {});
    if i == 0 {
      forall e ensures Chained(start, e) {
        forall k: nat ensures Numbered(start, e, 0, k) {}
        LatestIs(start, e, 0);
      }
    } else {
      ReachableLogsAreChained(events, claims, trace, i - 1);
      StepIsSound(At(start, trace, i - 1), trace[i - 1]);
    }
  }

  lemma GrowsTrans(a: Store, b: Store, c: Store)
    requires Grows(a, b) && Grows(b, c)
    ensures Grows(a, c)
  {
  }

  /** Nothing written is rewritten: between any two points of a history rows and links stay,
      and a row changes only by being closed, once. */
  lemma {:induction false} HistoryIsWriteOnce(events: set<EventId>, claims: set<ClaimId>, trace: seq<Op>, i: nat, j: nat)
    requires i <= j <= |trace|
    ensures var s := Store(events, claims, map[], {}); Grows(At(s, trace, i), At(s, trace, j))
    decreases j - i
  {
    var s := Store(events, claims, map[], {});
    if i < j {
      HistoryIsWriteOnce(events, claims, trace, i, j - 1);
      ReachableLogsAreChained(events, claims, trace, j - 1);
      StepIsSound(At(s, trace, j - 1), trace[j - 1]);
      GrowsTrans(At(s, trace, i), At(s, trace, j - 1), At(s, trace, j));
    }
  }

  // ------------------------------------------------------------ appending a batch again

  /** A decision that asks for a row of its own, whatever is on record. */
  predicate Plain(d: Decision) { !d.suppressed && d.semantic != Rewrite && d.semantic != DistinctEvent }

  predicate SameRow(a: Decision, b: Decision) {
    a.reason == b.reason && a.summary == b.summary && a.state == b.state && a.validFrom == b.validFrom && a.claims == b.claims
  }

  predicate AgreesWith(a: Decision, b: Decision) { Plain(a) && Plain(b) && a.event == b.event ==> SameRow(a, b) }

  /** Any two plain decisions about one event ask for the same row. */
  ghost predicate Agree(ds: seq<Decision>) {
    forall i, j :: 0 <= i < |ds| && 0 <= j < |ds| ==> AgreesWith(ds[i], ds[j])
  }

  /** A plain decision that names its version names the next one. */
  predicate NamesNext(s: Store, d: Decision) {
    Plain(d) && d.expected.Some? ==> d.expected.value == Latest(s, d.event) + 1
  }

  ghost predicate AllNameNext(s: Store, ds: seq<Decision>) { forall i :: 0 <= i < |ds| ==> NamesNext(s, ds[i]) }

  /** What the decision wanted is on record. */
  predicate Settled(s: Store, d: Decision) {
    && (Plain(d) ==> SameAsLatest(s, d))
    && (!d.suppressed && d.semantic == DistinctEvent ==> Latest(s, d.event) >= 1)
  }

  predicate ForeignLinks(s: Store) { forall l :: l in s.links ==> l.key in s.versions }

  lemma NothingLinkedAhead(s: Store, e: EventId)
    requires ForeignLinks(s)
    ensures Linked(s, Key(e, Latest(s, e) + 1)) == {}
  {
    FreshNumber(s, e);
  }

  function RowFor(d: Decision): Version { Row(d.reason, d.summary, d.state, d.validFrom) }

  /** The store after one decision that does not raise. */
  function Handled(s: Store, d: Decision, check: Check): Store {
    if Judge(s, d, check) == Write then Put(s, d.event, RowFor(d), d.claims) else s
  }

  lemma HandledKeepsForm(s: Store, d: Decision, check: Check)
    requires Chain(s) && ForeignLinks(s)
    ensures Chain(Handled(s, d, check)) && ForeignLinks(Handled(s, d, check))
  {
    if Judge(s, d, check) == Write { PutKeepsChain(s, d.event, RowFor(d), d.claims); }
  }

  lemma {:induction false} AppendKeepsForm(s: Store, ds: seq<Decision>, k: nat, check: Check)
    requires k <= |ds| && AppendSome(s, ds, k, check).Going? && Chain(s) && ForeignLinks(s)
    ensures var s' := AppendSome(s, ds, k, check).store; Chain(s') && ForeignLinks(s')
  {
    if k > 0 {
      AppendKeepsForm(s, ds, k - 1, check);
      HandledKeepsForm(AppendSome(s, ds, k - 1, check).store, ds[k - 1], check);
    }
  }

  lemma LatestIsOnRecord(s: Store, d: Decision)
    requires Chain(s) && SameAsLatest(s, d)
    ensures Latest(s, d.event) >= 1
  {
    assert Chained(s, d.event);
    assert Numbered(s, d.event, Latest(s, d.event), Latest(s, d.event));
  }

  /** A row just put is the latest, with its claims. */
  lemma PutIsLatest(s: Store, d: Decision)
    requires Chain(s) && ForeignLinks(s)
    ensures SameAsLatest(Put(s, d.event, RowFor(d), d.claims), d) && Latest(Put(s, d.event, RowFor(d), d.claims), d.event) >= 1
  {
    assert Chained(s, d.event);
    PutExtends(s, d.event, RowFor(d), d.claims);
    LinkedAfterPut(s, d.event, RowFor(d), d.claims, Key(d.event, Latest(s, d.event) + 1));
    NothingLinkedAhead(s, d.event);
  }

  lemma HandlingSettles(s: Store, d: Decision, check: Check)
    requires Chain(s) && ForeignLinks(s) && Judge(s, d, check) != Raise
    ensures Settled(Handled(s, d, check), d)
  {
    if Judge(s, d, check) == Write {
      PutIsLatest(s, d);
    } else if SameAsLatest(s, d) {
      LatestIsOnRecord(s, d);
    }
  }

  lemma SameEventStaysSettled(s: Store, s': Store, d: Decision)
    requires SameEvent(s, s', d.event) && Settled(s, d)
    ensures Settled(s', d)
  {
    SameEventSameLatest(s, s', d.event);
  }

  /** A later decision that agrees with a settled one leaves it settled. */
  lemma SettledStays(s: Store, d: Decision, next: Decision, check: Check)
    requires Chain(s) && Settled(s, d) && Judge(s, next, check) != Raise && AgreesWith(d, next)
    ensures Settled(Handled(s, next, check), d)
  {
    if Judge(s, next, check) == Write {
      if next.event != d.event {
        PutLeavesOthers(s, next.event, RowFor(next), next.claims, d.event);
        SameEventStaysSettled(s, Handled(s, next, check), d);
      } else {
        assert Chained(s, d.event);
        PutExtends(s, d.event, RowFor(next), next.claims);
        WriteMeansUnsettled(s, d, next, check);
      }
    }
  }

  lemma WriteMeansUnsettled(s: Store, d: Decision, next: Decision, check: Check)
    requires Chain(s) && Settled(s, d) && AgreesWith(d, next) && next.event == d.event && Judge(s, next, check) == Write
    ensures !Plain(d)
  {
    if SameAsLatest(s, d) { LatestIsOnRecord(s, d); }
  }

  /** When plain decisions agree, the first append leaves every one of them settled. */
  lemma {:induction false} AgreementSettles(s: Store, ds: seq<Decision>, k: nat, check: Check, i: nat)
    requires i < k <= |ds| && AppendSome(s, ds, k, check).Going? && Chain(s) && ForeignLinks(s) && Agree(ds)
    ensures Settled(AppendSome(s, ds, k, check).store, ds[i])
  {
    var p := AppendSome(s, ds, k - 1, check);
    AppendKeepsForm(s, ds, k - 1, check);
    assert AppendSome(s, ds, k, check).store == Handled(p.store, ds[k - 1], check);
    if i == k - 1 {
      HandlingSettles(p.store, ds[i], check);
    } else {
      AgreementSettles(s, ds, k - 1, check, i);
      SettledStays(p.store, ds[i], ds[k - 1], check);
    }
  }

  /** Nothing in a batch that went through lacks verified claims. */
  predicate Provable(d: Decision, check: Check) { d.suppressed || d.state != Verified || check(d.claims) }

  lemma {:induction false} AppendedAreProvable(s: Store, ds: seq<Decision>, k: nat, check: Check)
    requires k <= |ds| && AppendSome(s, ds, k, check).Going?
    ensures forall i :: 0 <= i < k ==> Provable(ds[i], check)
  {
    if k > 0 { AppendedAreProvable(s, ds, k - 1, check); }
  }

  /** The second time a settled decision is skipped, unless it names a version that is not next. */
  lemma SettledIsSkipped(s: Store, d: Decision, check: Check)
    requires Settled(s, d) && Provable(d, check) && NamesNext(s, d)
    ensures Judge(s, d, check) == Skip
  {
  }

  lemma SkippedIsSettled(s: Store, d: Decision, check: Check)
    requires Judge(s, d, check) == Skip && Plain(d)
    ensures SameAsLatest(s, d) && NamesNext(s, d)
  {
  }

  lemma {:induction false} AllSkipped(s: Store, ds: seq<Decision>, k: nat, check: Check)
    requires k <= |ds| && forall i :: 0 <= i < |ds| ==> Judge(s, ds[i], check) == Skip
    ensures AppendSome(s, ds, k, check) == Going(s, 0)
  {
    if k > 0 { AllSkipped(s, ds, k - 1, check); }
  }

  /** Writing nothing means skipping everything. */
  lemma {:induction false} NothingWritten(s: Store, ds: seq<Decision>, k: nat, check: Check)
    requires k <= |ds| && AppendSome(s, ds, k, check).Going? && AppendSome(s, ds, k, check).written == 0
    ensures AppendSome(s, ds, k, check).store == s && forall i :: 0 <= i < k ==> Judge(s, ds[i], check) == Skip
  {
    if k > 0 { NothingWritten(s, ds, k - 1, check); }
  }

  lemma SkippedAgree(s: Store, ds: seq<Decision>, check: Check)
    requires forall i :: 0 <= i < |ds| ==> Judge(s, ds[i], check) == Skip
    ensures Agree(ds) && AllNameNext(s, ds)
  {
    forall i | 0 <= i < |ds| && Plain(ds[i]) ensures SameAsLatest(s, ds[i]) && NamesNext(s, ds[i]) {
      SkippedIsSettled(s, ds[i], check);
    }
  }

  /** The exact condition.  Appending a batch that was committed once again writes nothing, and
      changes nothing, if and only if its plain decisions about one event agree and those that
      name a version name the next one. */
  lemma AppendingAgainWritesNothingIff(s: Store, ds: seq<Decision>, maxItems: nat, check: Check)
    requires ForeignOk(s) && Chain(s) && Append(s, ds, maxItems, check).1.Wrote?
    ensures var s' := Append(s, ds, maxItems, check).0;
      Append(s', ds, maxItems, check) == (s', Wrote(0)) <==> Agree(Batch(ds, maxItems)) && AllNameNext(s', Batch(ds, maxItems))
  {
    var batch, s' := Batch(ds, maxItems), Append(s, ds, maxItems, check).0;
    if Agree(batch) && AllNameNext(s', batch) {
      AppendedAreProvable(s, batch, |batch|, check);
      forall i | 0 <= i < |batch| ensures Judge(s', batch[i], check) == Skip {
        AgreementSettles(s, batch, |batch|, check, i);
        SettledIsSkipped(s', batch[i], check);
      }
      AllSkipped(s', batch, |batch|, check);
    }
    if Append(s', ds, maxItems, check) == (s', Wrote(0)) {
      NothingWritten(s', batch, |batch|, check);
      SkippedAgree(s', batch, check);
    }
  }

  ghost predicate NamesNoVersion(ds: seq<Decision>) { forall i :: 0 <= i < |ds| ==> ds[i].expected.None? }

  /** For a batch that names no version the condition can be read off the batch alone. */
  lemma UnnamedBatchRepeatsIff(s: Store, ds: seq<Decision>, maxItems: nat, check: Check)
    requires ForeignOk(s) && Chain(s) && Append(s, ds, maxItems, check).1.Wrote? && NamesNoVersion(Batch(ds, maxItems))
    ensures var s' := Append(s, ds, maxItems, check).0;
      Append(s', ds, maxItems, check) == (s', Wrote(0)) <==> Agree(Batch(ds, maxItems))
  {
    AppendingAgainWritesNothingIff(s, ds, maxItems, check);
  }

  ghost predicate OnePerEvent(ds: seq<Decision>) {
    forall i, j :: 0 <= i < j < |ds| ==> ds[i].event != ds[j].event
  }

  /** In particular with at most one decision per event. */
  lemma AppendingAgainWritesNothing(s: Store, ds: seq<Decision>, maxItems: nat, check: Check)
    requires ForeignOk(s) && Chain(s) && Append(s, ds, maxItems, check).1.Wrote?
    requires OnePerEvent(Batch(ds, maxItems)) && NamesNoVersion(Batch(ds, maxItems))
    ensures var s' := Append(s, ds, maxItems, check).0; Append(s', ds, maxItems, check) == (s', Wrote(0))
  {
    UnnamedBatchRepeatsIff(s, ds, maxItems, check);
  }

  // ------------------------------------------------------------ a batch that never repeats cleanly

  /** A plain decision about a known event and known claims, unverified and naming no version. */
  predicate Ordinary(s: Store, d: Decision) {
    Plain(d) && d.state != Verified && d.expected.None? && d.event in s.events && d.claims <= s.claims
  }

  lemma OrdinaryIsHandled(s: Store, d: Decision, check: Check)
    requires ForeignOk(s) && Chain(s) && Ordinary(s, d)
    ensures Judge(s, d, check) == (if SameAsLatest(s, d) then Skip else Write)
    ensures var s' := Handled(s, d, check);
      ForeignOk(s') && Chain(s') && SameAsLatest(s', d) && s'.events == s.events && s'.claims == s.claims
  {
    HandledKeepsForm(s, d, check);
    HandlingSettles(s, d, check);
  }

  /** Two ordinary decisions that differ: whichever is not the latest is written, then the other. */
  lemma OneThenTwo(s: Store, one: Decision, two: Decision, check: Check)
    requires ForeignOk(s) && Chain(s) && Ordinary(s, one) && Ordinary(s, two) && !AgreesWith(one, two)
    ensures var (s', out) := Append(s, [one, two], 2, check);
      && ForeignOk(s') && Chain(s') && SameAsLatest(s', two) && s'.events == s.events && s'.claims == s.claims
      && out == Wrote(if SameAsLatest(s, one) then 1 else 2)
      && Latest(s', one.event) == Latest(s, one.event) + out.count
  {
    var ds := [one, two];
    var mid := Handled(s, one, check);
    OrdinaryIsHandled(s, one, check);
    OrdinaryIsHandled(mid, two, check);
    assert !SameAsLatest(mid, two);
    assert AppendSome(s, ds, 0, check) == Going(s, 0);
    assert AppendSome(s, ds, 1, check) == Going(mid, if SameAsLatest(s, one) then 0 else 1);
    assert AppendSome(s, ds, 2, check).store == Handled(mid, two, check);
    assert Chained(s, one.event) && Chained(mid, one.event);
    PutExtends(s, one.event, RowFor(one), one.claims);
    PutExtends(mid, one.event, RowFor(two), two.claims);
  }

  /** Two decisions about one event that ask for different rows take turns being the latest:
      the batch is committed, and appending it again writes two more rows. */
  lemma TwoDecisionsTakeTurns(s: Store, one: Decision, two: Decision, check: Check)
    requires ForeignOk(s) && Chain(s) && Ordinary(s, one) && Ordinary(s, two) && !AgreesWith(one, two)
    ensures var (s', out) := Append(s, [one, two], 2, check);
      && out.Wrote?
      && Append(s', [one, two], 2, check).1 == Wrote(2)
      && Latest(Append(s', [one, two], 2, check).0, one.event) == Latest(s', one.event) + 2
  {
    var s' := Append(s, [one, two], 2, check).0;
    OneThenTwo(s, one, two, check);
    assert !SameAsLatest(s', one);
    OneThenTwo(s', one, two, check);
  }
}
