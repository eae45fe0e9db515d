/** What the other three writers of the event log do to its rows, on the store before and after:
    which events a re-verification promotes, what a regeneration adds, what a finding leaves. */
module EventTerms {
  import opened Ordering
  import opened UtcText
  import opened EventStore
  import opened EventChain

  // ------------------------------------------------------------ re-verification

  /** The event's latest version is unverified and rests on an eligible claim. */
  ghost predicate Ripe(s: Store, eligible: set<ClaimId>, e: EventId) {
    var k := Key(e, Latest(s, e));
    k in s.versions && s.versions[k].state == Unverified && exists c :: c in eligible && Link(k, c) in s.links
  }

  /** Every claim the latest version rests on verifies now. */
  ghost predicate AllVerify(s: Store, verified: ClaimId -> bool, e: EventId) {
    forall c :: Link(Key(e, Latest(s, e)), c) in s.links ==> verified(c)
  }

  /** The clock does not follow the event's latest version. */
  predicate StaleFor(s: Store, at: Stamp, e: EventId) {
    Key(e, Latest(s, e)) in s.versions && at.instant <= s.versions[Key(e, Latest(s, e))].validFrom.instant
  }

  /** One more version, verified from `at` on, with the same summary and claims; the one before
      is closed there, and nothing else about the event changes. */
  ghost predicate Promoted(s: Store, s': Store, e: EventId, at: Stamp) {
    var n := Latest(s, e);
    && Latest(s', e) == n + 1 && Key(e, n) in s.versions && Key(e, n) in s'.versions && Key(e, n + 1) in s'.versions
    && s'.versions[Key(e, n + 1)] == Version("claim_reverification", s.versions[Key(e, n)].summary, Verified, at, None, Some(at))
    && s'.versions[Key(e, n)] == s.versions[Key(e, n)].(supersededAt := Some(at))
    && Linked(s', Key(e, n + 1)) == Linked(s, Key(e, n))
    && (forall k: nat :: k < n ==> KeptAt(s, s', Key(e, k)))
    && (forall k: nat :: k <= n ==> Linked(s', Key(e, k)) == Linked(s, Key(e, k)))
  }

  predicate KeptAt(s: Store, s': Store, k: Key) {
    (k in s'.versions <==> k in s.versions) && (k in s.versions && k in s'.versions ==> s'.versions[k] == s.versions[k])
  }

  lemma LinkedHolds(s: Store, k: Key, c: ClaimId)
    ensures c in Linked(s, k) <==> Link(k, c) in s.links
  {
  }

  lemma TouchedIsRipe(s: Store, eligible: set<ClaimId>, e: EventId)
    ensures e in Touched(s, eligible) <==> Ripe(s, eligible, e)
  {
    if Ripe(s, eligible, e) {
      var c :| c in eligible && Link(Key(e, Latest(s, e)), c) in s.links;
      assert Link(Key(e, Latest(s, e)), c).key.event in Touched(s, eligible);
    }
    if e in Touched(s, eligible) {
      var l :| l in s.links && l.claim in eligible && l.key.version == Latest(s, l.key.event)
               && l.key in s.versions && s.versions[l.key].state == Unverified && l.key.event == e;
      assert l == Link(Key(e, Latest(s, e)), l.claim);
    }
  }

  /** Putting a re-verified version promotes the event. */
  lemma PutPromotes(s: Store, e: EventId, at: Stamp)
    requires Chain(s) && ForeignLinks(s) && Key(e, Latest(s, e)) in s.versions
    ensures Promoted(s, Put(s, e, Row("claim_reverification", s.versions[Key(e, Latest(s, e))].summary, Verified, at), Linked(s, Key(e, Latest(s, e)))), e, at)
  {
    var n := Latest(s, e);
    var row, claims := Row("claim_reverification", s.versions[Key(e, n)].summary, Verified, at), Linked(s, Key(e, n));
    assert Chained(s, e) && Numbered(s, e, n, n);
    assert OpenAt(s, e, n);
    PutExtends(s, e, row, claims);
    NothingLinkedAhead(s, e);
    forall k: nat | k <= n + 1
      ensures Linked(Put(s, e, row, claims), Key(e, k)) == Linked(s, Key(e, k)) + (if k == n + 1 then claims else {})
    {
      LinkedAfterPut(s, e, row, claims, Key(e, k));
    }
  }

  lemma PromotedThenSame(s: Store, mid: Store, s': Store, e: EventId, at: Stamp)
    requires Promoted(s, mid, e, at) && SameEvent(mid, s', e)
    ensures Promoted(s, s', e, at)
  {
    SameEventSameLatest(mid, s', e);
    forall k: nat | k < Latest(s, e) ensures KeptAt(s, s', Key(e, k)) { assert KeptAt(s, mid, Key(e, k)); }
  }

  lemma SameThenPromoted(s: Store, mid: Store, s': Store, e: EventId, at: Stamp)
    requires SameEvent(s, mid, e) && Promoted(mid, s', e, at)
    ensures Promoted(s, s', e, at)
  {
    SameEventSameLatest(s, mid, e);
    forall k: nat | k < Latest(s, e) ensures KeptAt(s, s', Key(e, k)) { assert KeptAt(mid, s', Key(e, k)); }
  }

  lemma SameTwice(a: Store, b: Store, c: Store, e: EventId)
    requires SameEvent(a, b, e) && SameEvent(b, c, e)
    ensures SameEvent(a, c, e)
  {
  }

  /** One event's turn, seen from the store the call started with. */
  lemma OneTurn(s: Store, mid: Store, e: EventId, at: Stamp, verified: ClaimId -> bool, eligible: set<ClaimId>)
    requires Chain(mid) && ForeignOk(mid) && SameEvent(s, mid, e) && Ripe(s, eligible, e)
    ensures StaleFor(s, at, e) ==> Reverify(mid, e, at, verified).Failed?
    ensures !StaleFor(s, at, e) && !AllVerify(s, verified, e) ==> Reverify(mid, e, at, verified) == Going(mid, 0)
    ensures !StaleFor(s, at, e) && AllVerify(s, verified, e) ==>
      var p := Reverify(mid, e, at, verified);
      && p.Going? && p.written == 1 && Promoted(s, p.store, e, at)
      && Chain(p.store) && ForeignOk(p.store) && p.store.events == mid.events && p.store.claims == mid.claims
      && forall o :: o != e ==> SameEvent(mid, p.store, o)
  {
    SameEventSameLatest(s, mid, e);
    var k := Key(e, Latest(s, e));
    assert Linked(mid, k) == Linked(s, k);
    var c :| c in eligible && Link(k, c) in s.links;
    LinkedHolds(s, k, c);
    assert forall x :: x in Linked(s, k) <==> Link(k, x) in s.links;
    if !StaleFor(s, at, e) && AllVerify(s, verified, e) {
      var row := Row("claim_reverification", mid.versions[k].summary, Verified, at);
      PutPromotes(mid, e, at);
      SameThenPromoted(s, mid, Put(mid, e, row, Linked(mid, k)), e, at);
      PutKeepsChain(mid, e, row, Linked(mid, k));
      PutKeepsRefs(mid, e, row, Linked(mid, k));
      forall o | o != e ensures SameEvent(mid, Put(mid, e, row, Linked(mid, k)), o) {
        PutLeavesOthers(mid, e, row, Linked(mid, k), o);
      }
    }
  }

  lemma PutKeepsRefs(s: Store, e: EventId, row: Version, claims: set<ClaimId>)
    requires ForeignOk(s) && e in s.events && claims <= s.claims
    ensures ForeignOk(Put(s, e, row, claims))
  {
  }

  /** After the first n of the ripe events, none of them stale. */
  ghost predicate TurnsTaken(s: Store, es: seq<EventId>, n: nat, at: Stamp, verified: ClaimId -> bool, p: Progress)
    requires n <= |es|
  {
    && p.Going? && Chain(p.store) && ForeignOk(p.store) && p.store.events == s.events && p.store.claims == s.claims
    && (forall e :: e in es[..n] && AllVerify(s, verified, e) ==> Promoted(s, p.store, e, at))
    && (forall e :: !(e in es[..n] && AllVerify(s, verified, e)) ==> SameEvent(s, p.store, e))
    && p.written == |set e | e in es[..n] && AllVerify(s, verified, e)|
  }

  lemma CountOneMore(s: Store, es: seq<EventId>, n: nat, verified: ClaimId -> bool)
    requires n < |es| && forall i, j :: 0 <= i < j < |es| ==> es[i] != es[j]
    ensures var before, after := set e | e in es[..n] && AllVerify(s, verified, e), set e | e in es[..n + 1] && AllVerify(s, verified, e);
      |after| == |before| + (if AllVerify(s, verified, es[n]) then 1 else 0)
  {
    var before, after := set e | e in es[..n] && AllVerify(s, verified, e), set e | e in es[..n + 1] && AllVerify(s, verified, e);
    assert es[..n + 1] == es[..n] + [es[n]];
    assert es[n] !in before;
    assert after == before + (if AllVerify(s, verified, es[n]) then {es[n]} else {});
  }

  lemma TurnStep(s: Store, eligible: set<ClaimId>, es: seq<EventId>, n: nat, at: Stamp, verified: ClaimId -> bool, p: Progress)
    requires n < |es| && (forall i, j :: 0 <= i < j < |es| ==> es[i] != es[j]) && TurnsTaken(s, es, n, at, verified, p)
    requires Ripe(s, eligible, es[n])
    ensures var q := Reverify(p.store, es[n], at, verified);
      if StaleFor(s, at, es[n]) then q.Failed?
      else q.Going? && TurnsTaken(s, es, n + 1, at, verified, Going(q.store, p.written + q.written))
  {
    var e := es[n];
    assert e !in es[..n];
    OneTurn(s, p.store, e, at, verified, eligible);
    CountOneMore(s, es, n, verified);
    assert es[..n + 1] == es[..n] + [e];
    if !StaleFor(s, at, e) && AllVerify(s, verified, e) {
      var q := Reverify(p.store, e, at, verified);
      forall o | o in es[..n + 1] && AllVerify(s, verified, o) ensures Promoted(s, q.store, o, at) {
        if o != e { PromotedThenSame(s, p.store, q.store, o, at); }
      }
      forall o | !(o in es[..n + 1] && AllVerify(s, verified, o)) ensures SameEvent(s, q.store, o) {
        SameTwice(s, p.store, q.store, o);
      }
    }
  }

  ghost predicate SomeStale(s: Store, es: seq<EventId>, n: nat, at: Stamp)
    requires n <= |es|
  {
    exists i :: 0 <= i < n && StaleFor(s, at, es[i])
  }

  lemma StaleStep(s: Store, es: seq<EventId>, n: nat, at: Stamp)
    requires n < |es|
    ensures SomeStale(s, es, n + 1, at) <==> SomeStale(s, es, n, at) || StaleFor(s, at, es[n])
  {
  }

  predicate Distinct(es: seq<EventId>) { forall i, j :: 0 <= i < j < |es| ==> es[i] != es[j] }

  lemma NextTurn(s: Store, eligible: set<ClaimId>, es: seq<EventId>, n: nat, at: Stamp, verified: ClaimId -> bool)
    requires n < |es| && Distinct(es) && Ripe(s, eligible, es[n])
    requires TurnsTaken(s, es, n, at, verified, ReverifySome(s, es, n, at, verified))
    ensures StaleFor(s, at, es[n]) ==> ReverifySome(s, es, n + 1, at, verified).Failed?
    ensures !StaleFor(s, at, es[n]) ==> TurnsTaken(s, es, n + 1, at, verified, ReverifySome(s, es, n + 1, at, verified))
  {
    var p := ReverifySome(s, es, n, at, verified);
    var q := Reverify(p.store, es[n], at, verified);
    assert ReverifySome(s, es, n + 1, at, verified) == (if q.Failed? then Failed else Going(q.store, p.written + q.written));
    TurnStep(s, eligible, es, n, at, verified, p);
  }

  lemma {:induction false} TurnsSoFar(s: Store, eligible: set<ClaimId>, es: seq<EventId>, n: nat, at: Stamp, verified: ClaimId -> bool)
    requires Chain(s) && ForeignOk(s) && n <= |es| && Distinct(es) && forall i :: 0 <= i < |es| ==> Ripe(s, eligible, es[i])
    ensures SomeStale(s, es, n, at) ==> ReverifySome(s, es, n, at, verified).Failed?
    ensures !SomeStale(s, es, n, at) ==> TurnsTaken(s, es, n, at, verified, ReverifySome(s, es, n, at, verified))
  {
    if n == 0 {
      assert (set e | e in es[..0] && AllVerify(s, verified, e)) == {};
    } else {
      TurnsSoFar(s, eligible, es, n - 1, at, verified);
      StaleStep(s, es, n - 1, at);
      if !SomeStale(s, es, n - 1, at) { NextTurn(s, eligible, es, n - 1, at, verified); }
    }
  }

  /** What a committed call leaves: exactly the ripe events whose claims all verify are promoted,
      no other event changes, and the count is theirs. */
  ghost predicate Promotes(s: Store, s': Store, eligible: set<ClaimId>, at: Stamp, verified: ClaimId -> bool, count: nat) {
    && (forall e :: Ripe(s, eligible, e) && AllVerify(s, verified, e) ==> Promoted(s, s', e, at))
    && (forall e :: !(Ripe(s, eligible, e) && AllVerify(s, verified, e)) ==> SameEvent(s, s', e))
    && count == |set e | e in s.events && Ripe(s, eligible, e) && AllVerify(s, verified, e)|
    && s'.events == s.events && s'.claims == s.claims
  }

  ghost predicate Lists(es: seq<EventId>, s: Store, eligible: set<ClaimId>) {
    Distinct(es) && forall e :: e in es <==> Ripe(s, eligible, e)
  }

  lemma TouchedInOrder(s: Store, eligible: set<ClaimId>)
    ensures StrictTotal(EventOrder()) && Lists(InOrder(Touched(s, eligible), EventOrder()), s, eligible)
  {
    EventOrderIsStrictTotal();
    var es := InOrder(Touched(s, eligible), EventOrder());
    forall e ensures e in es <==> Ripe(s, eligible, e) { TouchedIsRipe(s, eligible, e); }
    forall i, j | 0 <= i < j < |es| ensures es[i] != es[j] { assert EventOrder()(es[i], es[j]); }
  }

  lemma AllTurns(s: Store, eligible: set<ClaimId>, es: seq<EventId>, at: Stamp, verified: ClaimId -> bool)
    requires Chain(s) && ForeignOk(s) && Lists(es, s, eligible)
    ensures var (s', out) := Commit(s, ReverifySome(s, es, |es|, at, verified));
      && (out.Raised? <==> exists e :: Ripe(s, eligible, e) && StaleFor(s, at, e))
      && (if out.Raised? then s' == s else Promotes(s, s', eligible, at, verified, out.count))
  {
    forall i | 0 <= i < |es| ensures Ripe(s, eligible, es[i]) { assert es[i] in es; }
    TurnsSoFar(s, eligible, es, |es|, at, verified);
    assert es[..|es|] == es;
    StaleInList(s, eligible, es, at);
    CountedAre(s, eligible, es, verified);
  }

  /** The whole call, in terms of rows.  It raises exactly when the clock does not follow the
      latest version of some ripe event, and then changes nothing; otherwise it promotes. */
  lemma ReverificationPromotes(s: Store, eligible: set<ClaimId>, at: Stamp, verified: ClaimId -> bool)
    requires ForeignOk(s) && Chain(s)
    ensures var (s', out) := ReverifyAll(s, eligible, at, verified);
      && (out.Raised? <==> exists e :: Ripe(s, eligible, e) && StaleFor(s, at, e))
      && (if out.Raised? then s' == s else Promotes(s, s', eligible, at, verified, out.count))
  {
    TouchedInOrder(s, eligible);
    AllTurns(s, eligible, InOrder(Touched(s, eligible), EventOrder()), at, verified);
  }

  lemma StaleInList(s: Store, eligible: set<ClaimId>, es: seq<EventId>, at: Stamp)
    requires forall e :: e in es <==> Ripe(s, eligible, e)
    ensures SomeStale(s, es, |es|, at) <==> exists e :: Ripe(s, eligible, e) && StaleFor(s, at, e)
  {
    if e :| Ripe(s, eligible, e) && StaleFor(s, at, e) {
      assert e in es;
      var i :| 0 <= i < |es| && es[i] == e;
      assert StaleFor(s, at, es[i]);
    }
    if i :| 0 <= i < |es| && StaleFor(s, at, es[i]) { assert es[i] in es; }
  }

  lemma CountedAre(s: Store, eligible: set<ClaimId>, es: seq<EventId>, verified: ClaimId -> bool)
    requires ForeignOk(s) && forall e :: e in es <==> Ripe(s, eligible, e)
    ensures (set e | e in es && AllVerify(s, verified, e))
      == (set e | e in s.events && Ripe(s, eligible, e) && AllVerify(s, verified, e))
  {
  }

  // ------------------------------------------------------------ one more version

  /** Event e has one more version, this row resting on these claims; the one before is closed
      where it begins, and nothing else about the event changes. */
  ghost predicate Extended(s: Store, s': Store, e: EventId, row: Version, claims: set<ClaimId>) {
    var n := Latest(s, e);
    && Latest(s', e) == n + 1 && Key(e, n + 1) in s'.versions && s'.versions[Key(e, n + 1)] == row
    && Linked(s', Key(e, n + 1)) == claims
    && (n >= 1 ==> ClosedAt(s, s', Key(e, n), row.validFrom))
    && (forall k: nat :: k < n ==> KeptAt(s, s', Key(e, k)))
    && (forall k: nat :: k <= n ==> Linked(s', Key(e, k)) == Linked(s, Key(e, k)))
  }

  predicate ClosedAt(s: Store, s': Store, k: Key, at: Stamp) {
    k in s.versions && k in s'.versions && s'.versions[k] == s.versions[k].(supersededAt := Some(at))
  }

  ghost predicate OthersSame(s: Store, s': Store, e: EventId) { forall o :: o != e ==> SameEvent(s, s', o) }

  lemma PutIsExtension(s: Store, e: EventId, row: Version, claims: set<ClaimId>)
    requires Chain(s) && ForeignLinks(s) && row.supersededAt == None
    ensures Extended(s, Put(s, e, row, claims), e, row, claims) && OthersSame(s, Put(s, e, row, claims), e)
  {
    var n, s' := Latest(s, e), Put(s, e, row, claims);
    assert Chained(s, e) && Numbered(s, e, n, n);
    if n >= 1 { assert OpenAt(s, e, n); }
    PutExtends(s, e, row, claims);
    NothingLinkedAhead(s, e);
    forall k: nat | k <= n + 1 ensures Linked(s', Key(e, k)) == Linked(s, Key(e, k)) + (if k == n + 1 then claims else {}) {
      LinkedAfterPut(s, e, row, claims, Key(e, k));
    }
    forall o | o != e ensures SameEvent(s, s', o) { PutLeavesOthers(s, e, row, claims, o); }
  }

  function NewRow(reason: string, summary: string, state: State, at: Stamp): Version {
    match state
    case Verified => Version(reason, summary, Verified, at, None, Some(at))
    case Unverified => Version(reason, summary, Unverified, at, None, None)
    case Watchlist => Version(reason, summary, Watchlist, at, None, None)
    case RejectedState => Version(reason, summary, RejectedState, at, None, None)
  }

  /** The latest version already says this, from the same instant on. */
  predicate Says(s: Store, e: EventId, reason: string, summary: string, state: State, at: Stamp) {
    var k := Key(e, Latest(s, e));
    k in s.versions && s.versions[k].reason == reason && s.versions[k].summary == summary
    && s.versions[k].state == state && s.versions[k].validFrom == at
  }

  // ------------------------------------------------------------ one decision

  /** A decision that is looked at: not suppressed, no rewrite, and no second distinct event. */
  predicate Heeded(s: Store, d: Decision) {
    !d.suppressed && d.semantic != Rewrite && (d.semantic == DistinctEvent ==> Latest(s, d.event) == 0)
  }

  /** It raises for unverifiable claims, a version that is not the next one, or references to
      nothing; it writes when it is heeded and says something new. */
  lemma OneDecisionWrites(s: Store, d: Decision, check: Check)
    requires ForeignOk(s) && Chain(s)
    ensures var (s', out) := Append(s, [d], 1, check);
      var repeats := Says(s, d.event, d.reason, d.summary, d.state, d.validFrom) && Linked(s, Key(d.event, Latest(s, d.event))) == d.claims;
      var wrongVersion := d.expected.Some? && d.expected.value != Latest(s, d.event) + 1;
      && (out.Raised? <==>
            || (!d.suppressed && d.state == Verified && !check(d.claims))
            || (Heeded(s, d) && wrongVersion)
            || (Heeded(s, d) && !repeats && !(d.event in s.events && d.claims <= s.claims)))
      && (out == Wrote(1) ==>
            Heeded(s, d) && !repeats
            && Extended(s, s', d.event, NewRow(d.reason, d.summary, d.state, d.validFrom), d.claims) && OthersSame(s, s', d.event))
      && (out != Wrote(1) ==> s' == s && (out == Raised || (out == Wrote(0) && (!Heeded(s, d) || repeats))))
  {
    assert AppendSome(s, [d], 0, check) == Going(s, 0);
    DecisionTurn(s, d, check);
    if Judge(s, d, check) == Write {
      PutIsExtension(s, d.event, Row(d.reason, d.summary, d.state, d.validFrom), d.claims);
      RefsAfterPut(s, d.event, Row(d.reason, d.summary, d.state, d.validFrom), d.claims);
    }
  }

  lemma DecisionTurn(s: Store, d: Decision, check: Check)
    ensures AppendSome(s, [d], 1, check) ==
      match Judge(s, d, check)
      case Skip => Going(s, 0)
      case Raise => Failed
      case Write => Going(Put(s, d.event, Row(d.reason, d.summary, d.state, d.validFrom), d.claims), 1)
  {
    assert AppendSome(s, [d], 0, check) == Going(s, 0);
  }

  lemma RefsAfterPut(s: Store, e: EventId, row: Version, claims: set<ClaimId>)
    requires ForeignOk(s)
    ensures ForeignOk(Put(s, e, row, claims)) <==> e in s.events && claims <= s.claims
  {
    var s', k := Put(s, e, row, claims), Key(e, Latest(s, e) + 1);
    assert k in s'.versions;
    if ForeignOk(s') {
      forall c | c in claims ensures c in s.claims { assert Link(k, c) in s'.links; }
    }
  }

  // ------------------------------------------------------------ a regenerated release

  /** An event on record is an error; a new one gets its claim and a verified version 1. */
  lemma RegenerationAdds(s: Store, e: EventId, claim: ClaimId, summary: string, at: Stamp)
    requires ForeignOk(s) && Chain(s)
    ensures var (s', out) := Regenerate(s, e, claim, summary, at);
      && (out == Raised <==> e in s.events)
      && (out == Raised ==> s' == s)
      && (out != Raised ==>
            && out == Wrote(1) && s'.events == s.events + {e} && s'.claims == s.claims + {claim}
            && Latest(s, e) == 0 && OthersSame(s, s', e)
            && Extended(s, s', e, Version("distinct", summary, Verified, at, None, Some(at)), {claim}))
  {
    if e !in s.events {
      var s1, row := s.(events := s.events + {e}, claims := s.claims + {claim}), Row("distinct", summary, Verified, at);
      forall k: nat ensures Numbered(s, e, 0, k) {}
      LatestIs(s, e, 0);
      SameRowsSameChain(s, s1);
      assert NumbersOf(s1.versions, e) == NumbersOf(s.versions, e);
      forall k: nat ensures Numbered(s1, e, 0, k) {}
      LatestIs(s1, e, 0);
      PutIsExtension(s1, e, row, {claim});
      RefsAfterPut(s1, e, row, {claim});
      assert Regenerate(s, e, claim, summary, at).0 == Put(s1, e, row, {claim});
      ExtendedFromMore(s, s1, Put(s1, e, row, {claim}), e, row, {claim});
    }
  }

  /** Rows for events and claims alone make no difference to an event's versions. */
  lemma ExtendedFromMore(s: Store, s1: Store, s': Store, e: EventId, row: Version, claims: set<ClaimId>)
    requires s1.versions == s.versions && s1.links == s.links
    requires Extended(s1, s', e, row, claims) && OthersSame(s1, s', e)
    ensures Latest(s1, e) == Latest(s, e) && Extended(s, s', e, row, claims) && OthersSame(s, s', e)
  {
    SameVersionsSameLatest(s, s1, e);
    forall k: nat ensures Linked(s1, Key(e, k)) == Linked(s, Key(e, k)) {}
    forall k: nat | k < Latest(s, e) ensures KeptAt(s, s', Key(e, k)) { assert KeptAt(s1, s', Key(e, k)); }
    forall o | o != e ensures SameEvent(s, s', o) {
      assert SameEvent(s1, s', o);
      forall k: nat ensures Linked(s1, Key(o, k)) == Linked(s, Key(o, k)) {}
    }
  }

  lemma SameVersionsSameLatest(s: Store, s1: Store, e: EventId)
    requires s1.versions == s.versions && s1.links == s.links
    ensures Latest(s1, e) == Latest(s, e)
  {
    forall k: nat ensures Linked(s1, Key(e, k)) == Linked(s, Key(e, k)) {}
    SameEventSameLatest(s, s1, e);
  }

  // ------------------------------------------------------------ one finding

  /** A finding about a known event that should be new is left alone; one that names a wrong
      version fails; one the latest version already says only adds its claims there; any other
      becomes the next version, resting on its claims and all the event ever rested on. */
  lemma OneFindingWrites(s: Store, f: Finding, at: Stamp)
    requires ForeignOk(s) && Chain(s)
    ensures var p := Process(s, f, at);
      var all := f.claims + EverLinked(s, f.event);
      && (f.distinct && f.event in s.events ==> p == Going(s, 0))
      && (!(f.distinct && f.event in s.events) ==>
            && (p.Failed? <==> f.expected.Some? && f.expected.value != Latest(s, f.event) + 1)
            && (p.Going? ==>
                  && p.store.events == s.events + {f.event} && p.store.claims == s.claims + f.claims
                  && (p.written == 0 <==> Says(s, f.event, f.reason, f.summary, f.state, at))
                  && (p.written == 0 ==>
                        && p.store.versions == s.versions
                        && p.store.links == s.links + (set c | c in all :: Link(Key(f.event, Latest(s, f.event)), c)))
                  && (p.written != 0 ==>
                        && p.written == 1 && OthersSame(s, p.store, f.event)
                        && Extended(s, p.store, f.event, NewRow(f.reason, f.summary, f.state, at), all))))
  {
    if !(f.distinct && f.event in s.events) {
      var s1 := s.(events := s.events + {f.event}, claims := s.claims + f.claims);
      var all, row := f.claims + EverLinked(s1, f.event), Row(f.reason, f.summary, f.state, at);
      assert EverLinked(s1, f.event) == EverLinked(s, f.event);
      SameVersionsSameLatest(s, s1, f.event);
      SameRowsSameChain(s, s1);
      PutIsExtension(s1, f.event, row, all);
      ExtendedFromMore(s, s1, Put(s1, f.event, row, all), f.event, row, all);
    }
  }
}
