/** The event version log (event_store.py): the version-writing parts of its four writers.

    Rows are keyed by event and version number, as in the database; nothing in the tables
    themselves makes the numbers consecutive or the intervals abut.  Which claims verify is
    decided elsewhere and comes in as a parameter. */
module EventStore {
  import opened Ordering
  import opened UtcText

  type EventId = string
  type ClaimId = string

  /** A timestamp as stored: its text, and the instant the text denotes. */
  datatype Stamp = Stamp(text: string, instant: int)

  datatype State = Unverified | Watchlist | Verified | RejectedState

  /** A version row; `verified_at` is `valid_from` when the state is verified. */
  datatype Version = Version(reason: string, summary: string, state: State, validFrom: Stamp, supersededAt: Option<Stamp>, verifiedAt: Option<Stamp>)

  datatype Key = Key(event: EventId, version: nat)
  datatype Link = Link(key: Key, claim: ClaimId)

  datatype Store = Store(events: set<EventId>, claims: set<ClaimId>, versions: map<Key, Version>, links: set<Link>)

  // ------------------------------------------------------------ queries

  function NumbersOf(versions: map<Key, Version>, e: EventId): set<nat> {
    set k | k in versions && k.event == e :: k.version
  }

  function Descending(): (nat, nat) -> bool { (a, b) => a > b }

  lemma DescendingIsStrictTotal()
    ensures StrictTotal(Descending())
  {
  }

  /** MAX(version), 0 when the event has none. */
  function Latest(s: Store, e: EventId): (n: nat)
    ensures NumbersOf(s.versions, e) == {} ==> n == 0
    ensures NumbersOf(s.versions, e) != {} ==> n in NumbersOf(s.versions, e)
    ensures forall m :: m in NumbersOf(s.versions, e) ==> m <= n
  {
    DescendingIsStrictTotal();
    var all := NumbersOf(s.versions, e);
    if all == {} then 0 else Least(all, Descending())
  }

  function Linked(s: Store, k: Key): set<ClaimId> { set l | l in s.links && l.key == k :: l.claim }

  function EverLinked(s: Store, e: EventId): set<ClaimId> { set l | l in s.links && l.key.event == e :: l.claim }

  /** Every reference points at a row. */
  predicate ForeignOk(s: Store) {
    && (forall k :: k in s.versions ==> k.event in s.events)
    && (forall l :: l in s.links ==> l.key in s.versions && l.claim in s.claims)
  }

  // ------------------------------------------------------------ one new version

  function Row(reason: string, summary: string, state: State, at: Stamp): Version {
    Version(reason, summary, state, at, None, if state == Verified then Some(at) else None)
  }

  function NewLinks(k: Key, claims: set<ClaimId>): set<Link> { set c | c in claims :: Link(k, c) }

  /** UPDATE … SET superseded_at WHERE that row exists and is still open. */
  function Close(versions: map<Key, Version>, k: Key, at: Stamp): map<Key, Version> {
    if k in versions && versions[k].supersededAt.None? then versions[k := versions[k].(supersededAt := Some(at))] else versions
  }

  /** Insert version latest + 1, link its claims, close the one before. */
  function Put(s: Store, e: EventId, row: Version, claims: set<ClaimId>): Store {
    var n := Latest(s, e);
    var added := s.versions[Key(e, n + 1) := row];
    s.(versions := if n >= 1 then Close(added, Key(e, n), row.validFrom) else added,
       links := s.links + NewLinks(Key(e, n + 1), claims))
  }

  // ------------------------------------------------------------ append_event_versions

  datatype Semantic = DistinctEvent | MaterialUpdate | Rewrite | Unstated

  datatype Decision = Decision(
    event: EventId, summary: string, reason: string, state: State, validFrom: Stamp, claims: set<ClaimId>,
    semantic: Semantic, expected: Option<nat>, suppressed: bool)

  type Check = set<ClaimId> -> bool

  datatype Verdict = Skip | Write | Raise

  predicate SameAsLatest(s: Store, d: Decision) {
    var k := Key(d.event, Latest(s, d.event));
    && k in s.versions
    && s.versions[k].reason == d.reason && s.versions[k].summary == d.summary
    && s.versions[k].state == d.state && s.versions[k].validFrom == d.validFrom
    && Linked(s, k) == d.claims
  }

  /** What the append loop does with one decision, in the order it asks. */
  function Judge(s: Store, d: Decision, check: Check): Verdict {
    var n := Latest(s, d.event);
    if d.suppressed then Skip
    else if d.state == Verified && !check(d.claims) then Raise
    else if d.semantic == Rewrite then Skip
    else if d.semantic == DistinctEvent && n >= 1 then Skip
    else if d.expected.Some? && d.expected.value != n + 1 then Raise
    else if SameAsLatest(s, d) then Skip
    else Write
  }

  datatype Progress = Going(store: Store, written: nat) | Failed

  function AppendSome(s: Store, ds: seq<Decision>, k: nat, check: Check): Progress
    requires k <= |ds|
  {
    if k == 0 then Going(s, 0)
    else
      var p := AppendSome(s, ds, k - 1, check);
      if p.Failed? then Failed
      else
        var d := ds[k - 1];
        match Judge(p.store, d, check)
        case Skip => p
        case Raise => Failed
        case Write => Going(Put(p.store, d.event, Row(d.reason, d.summary, d.state, d.validFrom), d.claims), p.written + 1)
  }

  datatype Outcome = Wrote(count: nat) | Raised

  /** Commit when the references hold, otherwise leave everything as it was. */
  function Commit(s: Store, p: Progress): (Store, Outcome) {
    if p.Failed? || !ForeignOk(p.store) then (s, Raised) else (p.store, Wrote(p.written))
  }

  function Batch(ds: seq<Decision>, maxItems: nat): seq<Decision> {
    if maxItems < |ds| then ds[..maxItems] else ds
  }

  function Append(s: Store, ds: seq<Decision>, maxItems: nat, check: Check): (Store, Outcome) {
    var batch := Batch(ds, maxItems);
    Commit(s, AppendSome(s, batch, |batch|, check))
  }

  // ------------------------------------------------------------ reverify_source_item_claims

  /** Events whose latest version is unverified and rests on an eligible claim. */
  function Touched(s: Store, eligible: set<ClaimId>): set<EventId> {
    set l | l in s.links && l.claim in eligible && l.key.version == Latest(s, l.key.event)
            && l.key in s.versions && s.versions[l.key].state == Unverified :: l.key.event
  }

  function EventOrder(): (EventId, EventId) -> bool { (a, b) => TextLess(a, b) }

  lemma EventOrderIsStrictTotal()
    ensures StrictTotal(EventOrder())
  {
    forall a: EventId, b: EventId ensures !EventOrder()(a, a) && (a != b ==> EventOrder()(a, b) || EventOrder()(b, a)) {
      TextLessTrichotomy(a, a);
      TextLessTrichotomy(a, b);
    }
    forall a: EventId, b: EventId, c: EventId | EventOrder()(a, b) && EventOrder()(b, c) ensures EventOrder()(a, c) {
      TextLessTransitive(a, b, c);
    }
  }

  /** One selected event: raise on a stale clock, skip unless every linked claim verifies. */
  function Reverify(s: Store, e: EventId, at: Stamp, verified: ClaimId -> bool): Progress {
    var k := Key(e, Latest(s, e));
    if k !in s.versions then Going(s, 0)
    else if at.instant <= s.versions[k].validFrom.instant then Failed
    else
      var linked := Linked(s, k);
      if linked == {} || exists c :: c in linked && !verified(c) then Going(s, 0)
      else Going(Put(s, e, Row("claim_reverification", s.versions[k].summary, Verified, at), linked), 1)
  }

  function ReverifySome(s: Store, es: seq<EventId>, n: nat, at: Stamp, verified: ClaimId -> bool): Progress
    requires n <= |es|
  {
    if n == 0 then Going(s, 0)
    else
      var p := ReverifySome(s, es, n - 1, at, verified);
      if p.Failed? then Failed
      else
        var q := Reverify(p.store, es[n - 1], at, verified);
        if q.Failed? then Failed else Going(q.store, p.written + q.written)
  }

  function ReverifyAll(s: Store, eligible: set<ClaimId>, at: Stamp, verified: ClaimId -> bool): (Store, Outcome) {
    EventOrderIsStrictTotal();
    var es := InOrder(Touched(s, eligible), EventOrder());
    Commit(s, ReverifySome(s, es, |es|, at, verified))
  }

  // ------------------------------------------------------------ regenerate_release_claim

  /** A new event with its version 1; an event that exists already is an error. */
  function Regenerate(s: Store, e: EventId, claim: ClaimId, summary: string, at: Stamp): (Store, Outcome) {
    if e in s.events then (s, Raised)
    else
      var s1 := s.(events := s.events + {e}, claims := s.claims + {claim});
      Commit(s, Going(s1.(versions := s1.versions[Key(e, 1) := Row("distinct", summary, Verified, at)],
                          links := s1.links + NewLinks(Key(e, 1), {claim})), 1))
  }

  // ------------------------------------------------------------ process_phase4

  /** One selected decision once its claims are stored; reason and state are decided from
      evidence tables that are not part of this model. */
  datatype Finding = Finding(
    event: EventId, distinct: bool, claims: set<ClaimId>, reason: string, summary: string, state: State, expected: Option<nat>)

  function AddLinks(s: Store, k: Key, claims: set<ClaimId>): Store { s.(links := s.links + NewLinks(k, claims)) }

  function Process(s: Store, f: Finding, at: Stamp): Progress {
    if f.distinct && f.event in s.events then Going(s, 0)
    else
      var s1 := s.(events := s.events + {f.event}, claims := s.claims + f.claims);
      var all := f.claims + EverLinked(s1, f.event);
      var n := Latest(s1, f.event);
      if f.expected.Some? && f.expected.value != n + 1 then Failed
      else
        var k := Key(f.event, n);
        if k in s1.versions && s1.versions[k].reason == f.reason && s1.versions[k].summary == f.summary
           && s1.versions[k].state == f.state && s1.versions[k].validFrom == at
        then Going(AddLinks(s1, k, all), 0)
        else Going(Put(s1, f.event, Row(f.reason, f.summary, f.state, at), all), 1)
  }

  function ProcessSome(s: Store, fs: seq<Finding>, k: nat, at: Stamp): Progress
    requires k <= |fs|
  {
    if k == 0 then Going(s, 0)
    else
      var p := ProcessSome(s, fs, k - 1, at);
      if p.Failed? then Failed
      else
        var q := Process(p.store, fs[k - 1], at);
        if q.Failed? then Failed else Going(q.store, p.written + q.written)
  }

  function ProcessAll(s: Store, fs: seq<Finding>, at: Stamp): (Store, Outcome) {
    Commit(s, ProcessSome(s, fs, |fs|, at))
  }

  // ------------------------------------------------------------ the database

  /** The tables.  Each writer works inside one transaction: it updates them in place and a
      rollback puts back the values they had. */
  class EventDb {
    var events: set<EventId>
    var claims: set<ClaimId>
    var versions: map<Key, Version>
    var links: set<Link>

    function Tables(): Store
      reads this
    {
      Store(events, claims, versions, links)
    }

    constructor (events: set<EventId>, claims: set<ClaimId>)
      ensures Tables() == Store(events, claims, map[], {})
    {
      this.events, this.claims, versions, links := events, claims, map[], {};
    }

    method Rollback(to: Store)
      modifies this
      ensures Tables() == to
    {
      events, claims, versions, links := to.events, to.claims, to.versions, to.links;
    }

    method PutVersion(e: EventId, row: Version, ids: set<ClaimId>)
      modifies this`versions, this`links
      ensures Tables() == Put(old(Tables()), e, row, ids)
    {
      var n := Latest(Tables(), e);
      versions := versions[Key(e, n + 1) := row];
      links := links + NewLinks(Key(e, n + 1), ids);
      if n >= 1 && Key(e, n) in versions && versions[Key(e, n)].supersededAt.None? {
        versions := versions[Key(e, n) := versions[Key(e, n)].(supersededAt := Some(row.validFrom))];
      }
    }

    method AppendEventVersions(ds: seq<Decision>, maxItems: nat, check: Check) returns (out: Outcome)
      modifies this
      ensures (Tables(), out) == Append(old(Tables()), ds, maxItems, check)
    {
      var before, batch, written := Tables(), Batch(ds, maxItems), 0;
      for i := 0 to |batch|
        invariant Going(Tables(), written) == AppendSome(before, batch, i, check)
      {
        var d := batch[i];
        var verdict := Judge(Tables(), d, check);
        if verdict == Raise {
          FailureStays(before, batch, i + 1, check);
          Rollback(before);
          return Raised;
        }
        if verdict == Write {
          PutVersion(d.event, Row(d.reason, d.summary, d.state, d.validFrom), d.claims);
          written := written + 1;
        }
      }
      if !ForeignOk(Tables()) {
        Rollback(before);
        return Raised;
      }
      return Wrote(written);
    }

    method ReverifyOne(e: EventId, at: Stamp, verified: ClaimId -> bool) returns (ok: bool, wrote: nat)
      modifies this`versions, this`links
      ensures ok ==> Going(Tables(), wrote) == Reverify(old(Tables()), e, at, verified)
      ensures !ok ==> Reverify(old(Tables()), e, at, verified).Failed?
    {
      var k := Key(e, Latest(Tables(), e));
      if k !in versions { return true, 0; }
      if at.instant <= versions[k].validFrom.instant { return false, 0; }
      var linked := Linked(Tables(), k);
      if linked == {} || exists c :: c in linked && !verified(c) { return true, 0; }
      PutVersion(e, Row("claim_reverification", versions[k].summary, Verified, at), linked);
      return true, 1;
    }

    method ReverifyEach(es: seq<EventId>, at: Stamp, verified: ClaimId -> bool) returns (ok: bool, written: nat)
      modifies this`versions, this`links
      ensures ok ==> Going(Tables(), written) == ReverifySome(old(Tables()), es, |es|, at, verified)
      ensures !ok ==> ReverifySome(old(Tables()), es, |es|, at, verified).Failed?
    {
      ghost var before := Tables();
      written := 0;
      for i := 0 to |es|
        invariant Going(Tables(), written) == ReverifySome(before, es, i, at, verified)
      {
        var fine, wrote := ReverifyOne(es[i], at, verified);
        if !fine {
          StaleStays(before, es, i + 1, at, verified);
          return false, written;
        }
        written := written + wrote;
      }
      ok := true;
    }

    method ReverifySourceItemClaims(eligible: set<ClaimId>, at: Stamp, verified: ClaimId -> bool) returns (out: Outcome)
      modifies this
      ensures (Tables(), out) == ReverifyAll(old(Tables()), eligible, at, verified)
    {
      EventOrderIsStrictTotal();
      var before := Tables();
      var es := InOrder(Touched(before, eligible), EventOrder());
      var ok, written := ReverifyEach(es, at, verified);
      if !ok || !ForeignOk(Tables()) {
        Rollback(before);
        return Raised;
      }
      return Wrote(written);
    }

    method RegenerateReleaseClaim(e: EventId, claim: ClaimId, summary: string, at: Stamp) returns (out: Outcome)
      modifies this
      ensures (Tables(), out) == Regenerate(old(Tables()), e, claim, summary, at)
    {
      var before := Tables();
      if e in events { return Raised; }
      events, claims := events + {e}, claims + {claim};
      versions := versions[Key(e, 1) := Row("distinct", summary, Verified, at)];
      links := links + NewLinks(Key(e, 1), {claim});
      if !ForeignOk(Tables()) {
        Rollback(before);
        return Raised;
      }
      return Wrote(1);
    }

    method ProcessOne(f: Finding, at: Stamp) returns (ok: bool, wrote: nat)
      modifies this
      ensures ok ==> Going(Tables(), wrote) == Process(old(Tables()), f, at)
      ensures !ok ==> Process(old(Tables()), f, at).Failed?
    {
      if f.distinct && f.event in events { return true, 0; }
      events, claims := events + {f.event}, claims + f.claims;
      var all := f.claims + EverLinked(Tables(), f.event);
      var k := Key(f.event, Latest(Tables(), f.event));
      if f.expected.Some? && f.expected.value != k.version + 1 { return false, 0; }
      if k in versions && versions[k].reason == f.reason && versions[k].summary == f.summary
         && versions[k].state == f.state && versions[k].validFrom == at {
        links := links + NewLinks(k, all);
        return true, 0;
      }
      PutVersion(f.event, Row(f.reason, f.summary, f.state, at), all);
      return true, 1;
    }

    method ProcessPhase4(fs: seq<Finding>, at: Stamp) returns (out: Outcome)
      modifies this
      ensures (Tables(), out) == ProcessAll(old(Tables()), fs, at)
    {
      var before, written := Tables(), 0;
      for i := 0 to |fs|
        invariant Going(Tables(), written) == ProcessSome(before, fs, i, at)
      {
        var ok, wrote := ProcessOne(fs[i], at);
        if !ok {
          FindingStays(before, fs, i + 1, at);
          Rollback(before);
          return Raised;
        }
        written := written + wrote;
      }
      if !ForeignOk(Tables()) {
        Rollback(before);
        return Raised;
      }
      return Wrote(written);
    }
  }

  lemma {:induction false} FailureStays(s: Store, ds: seq<Decision>, k: nat, check: Check)
    requires k <= |ds| && AppendSome(s, ds, k, check).Failed?
    ensures AppendSome(s, ds, |ds|, check).Failed?
    decreases |ds| - k
  {
    if k < |ds| { FailureStays(s, ds, k + 1, check); }
  }

  lemma {:induction false} StaleStays(s: Store, es: seq<EventId>, k: nat, at: Stamp, verified: ClaimId -> bool)
    requires k <= |es| && ReverifySome(s, es, k, at, verified).Failed?
    ensures ReverifySome(s, es, |es|, at, verified).Failed?
    decreases |es| - k
  {
    if k < |es| { StaleStays(s, es, k + 1, at, verified); }
  }

  lemma {:induction false} FindingStays(s: Store, fs: seq<Finding>, k: nat, at: Stamp)
    requires k <= |fs| && ProcessSome(s, fs, k, at).Failed?
    ensures ProcessSome(s, fs, |fs|, at).Failed?
    decreases |fs| - k
  {
    if k < |fs| { FindingStays(s, fs, k + 1, at); }
  }
}
