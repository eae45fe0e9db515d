/** What every sequence of delivery calls keeps, whatever crashes or fails in each. */
module DeliveryRuns {
  import opened UtcText
  import opened TelegramText
  import opened Delivery

  datatype Turn = Turn(call: Call, world: World)

  function Played(b: Book, turns: seq<Turn>, i: nat): Book
    requires i <= |turns|
  {
    if i == 0 then b else Deliver(Played(b, turns, i - 1), turns[i - 1].call, turns[i - 1].world).0
  }

  // ------------------------------------------------------------ what arrived

  /** The parts of one attempt that reached Telegram, in order of arrival. */
  function Heard(log: seq<Arrival>, attempt: nat): seq<nat> {
    if log == [] then [] else
      Heard(log[..|log| - 1], attempt) + (if log[|log| - 1].attempt == attempt then [log[|log| - 1].part] else [])
  }

  function Upto(n: nat): seq<nat> { seq(n, k => k) }

  lemma HeardAppend(log: seq<Arrival>, a: Arrival, attempt: nat)
    ensures Heard(log + [a], attempt) == Heard(log, attempt) + (if a.attempt == attempt then [a.part] else [])
  {
    assert (log + [a])[..|log|] == log;
  }

  /** Everything an attempt's sends leave alone. */
  ghost predicate SameButIds(b: Book, b': Book, attempt: nat)
    requires attempt < |b.attempts|
  {
    && b'.report == b.report && b'.deliveryId == b.deliveryId && b'.receipt == b.receipt
    && |b'.attempts| == |b.attempts|
    && (forall k :: 0 <= k < |b.attempts| ==>
          b'.attempts[k] == if k == attempt then b.attempts[k].(ids := b'.attempts[k].ids) else b.attempts[k])
    && (forall k: nat :: k != attempt ==> Heard(b'.arrivals, k) == Heard(b.arrivals, k))
  }

  ghost predicate HeardSome(b: Book, attempt: nat, most: nat) {
    exists n: nat :: n <= most && Heard(b.arrivals, attempt) == Upto(n)
  }

  /** After k parts: an initial run of them arrived, in order; if the loop is still going,
      all k did, with one id each; if a part was declined, exactly those with an id did. */
  ghost predicate SendGood(b: Book, p: Progress, attempt: nat, k: nat)
    requires attempt < |b.attempts|
  {
    && SameButIds(b, p.book, attempt)
    && HeardSome(p.book, attempt, k)
    && |p.ids| <= k
    && (p.ending == Going ==> |p.ids| == k && Heard(p.book.arrivals, attempt) == Upto(k))
    && (p.ending == EndDeclined ==> Heard(p.book.arrivals, attempt) == Upto(|p.ids|))
  }

  lemma ArriveFacts(b: Book, attempt: nat, k: nat)
    requires Heard(b.arrivals, attempt) == Upto(k)
    ensures Heard(Arrive(b, attempt, k).arrivals, attempt) == Upto(k + 1)
    ensures forall a: nat :: a != attempt ==> Heard(Arrive(b, attempt, k).arrivals, a) == Heard(b.arrivals, a)
  {
    forall a: nat
      ensures Heard(Arrive(b, attempt, k).arrivals, a) == Heard(b.arrivals, a) + (if a == attempt then [k] else [])
    {
      HeardAppend(b.arrivals, Arrival(attempt, k), a);
    }
    assert Upto(k + 1) == Upto(k) + [k];
  }

  lemma SendOneKeeps(b: Book, q: Progress, attempt: nat, k: nat, f: Fate)
    requires attempt < |b.attempts| && SendGood(b, q, attempt, k) && q.ending == Going
    ensures SendGood(b, SendOne(q, attempt, k, f), attempt, k + 1)
    ensures SendOne(q, attempt, k, f).ending == Going <==> f.Stored?
  {
    ArriveFacts(q.book, attempt, k);
    var p := SendOne(q, attempt, k, f);
    assert p.book.arrivals == q.book.arrivals || p.book.arrivals == Arrive(q.book, attempt, k).arrivals;
    assert HeardSome(p.book, attempt, k + 1);
  }

  lemma SendStep(b: Book, attempt: nat, k: nat, q: Progress, f: Fate)
    requires attempt < |b.attempts| && SendGood(b, q, attempt, k)
    ensures var p := if q.ending != Going then q else SendOne(q, attempt, k, f);
      SendGood(b, p, attempt, k + 1) && (p.ending == Going <==> q.ending == Going && f.Stored?)
  {
    if q.ending == Going { SendOneKeeps(b, q, attempt, k, f); }
  }

  lemma {:induction false} SendFacts(b: Book, attempt: nat, k: nat, fate: nat -> Fate)
    requires attempt < |b.attempts| && Heard(b.arrivals, attempt) == []
    ensures SendGood(b, SendParts(b, attempt, k, fate), attempt, k)
    ensures SendParts(b, attempt, k, fate).ending == Going <==> forall j :: 0 <= j < k ==> fate(j).Stored?
  {
    if k == 0 {
      assert Upto(0) == [];
    } else {
      SendFacts(b, attempt, k - 1, fate);
      SendStep(b, attempt, k - 1, SendParts(b, attempt, k - 1, fate), fate(k - 1));
    }
  }

  // ------------------------------------------------------------ the invariant

  predicate Finished(s: State) { s == DryRun || s == Failed }

  ghost predicate AttemptsInv(b: Book, row: Receipt) {
    && |b.attempts| == row.current + 1
    && b.attempts[row.current].state == row.state && row.state != Skipped
    && (forall k :: 0 <= k < |b.attempts| ==> b.attempts[k].content == row.content)
    && (forall k :: 0 <= k < row.current ==> Finished(b.attempts[k].state))
    && (forall k :: 0 < k < |b.attempts| ==> b.attempts[k].state != DryRun)
  }

  ghost predicate ArrivalsInv(b: Book) {
    forall k: nat ::
      (k >= |b.attempts| ==> Heard(b.arrivals, k) == [])
      && (k < |b.attempts| ==> HeardSome(b, k, |Parts(b.attempts[k].content, MAX_TELEGRAM_CHARS)|) && IdsTell(b, k))
  }

  /** What arrived of a finished attempt is told by its stored ids: the parts that have one. */
  ghost predicate IdsTell(b: Book, k: nat)
    requires k < |b.attempts|
  {
    Finished(b.attempts[k].state) ==> Heard(b.arrivals, k) == Upto(|b.attempts[k].ids|)
  }

  /** A sent receipt: report, receipt and attempt agree, and every part went out once, in
      order, with one message id each. */
  ghost predicate SentInv(b: Book, row: Receipt)
    requires row.current < |b.attempts|
  {
    && b.deliveryId == Some(row.current)
    && |b.attempts[row.current].ids| == |Parts(row.content, MAX_TELEGRAM_CHARS)|
    && Heard(b.arrivals, row.current) == Upto(|Parts(row.content, MAX_TELEGRAM_CHARS)|)
  }

  ghost predicate Coherent(b: Book) {
    && ArrivalsInv(b)
    && match b.receipt
       case None => b.attempts == [] && b.report != ReportSent
       case Some(row) =>
         && AttemptsInv(b, row)
         && (b.report == ReportSent <==> row.state == Sent)
         && (row.state == Sent ==> SentInv(b, row))
  }

  /** A prepared attempt at this content, in an otherwise coherent book. */
  ghost predicate Underway(b: Book, attempt: nat, content: string) {
    && b.receipt.Some? && AttemptsInv(b, b.receipt.value) && ArrivalsInv(b)
    && b.receipt.value.state == Prepared && b.receipt.value.current == attempt && b.receipt.value.content == content
    && b.report != ReportSent && b.report != Undeliverable
  }

  lemma PrepareKeepsArrivals(b: Book, c: Call)
    requires ArrivalsInv(b) && c.recipient.Some?
    ensures ArrivalsInv(Prepare(b, c))
  {
    var b1 := Prepare(b, c);
    assert Upto(0) == [];
    forall k: nat
      ensures k >= |b1.attempts| ==> Heard(b1.arrivals, k) == []
      ensures k < |b1.attempts| ==> HeardSome(b1, k, |Parts(b1.attempts[k].content, MAX_TELEGRAM_CHARS)|) && IdsTell(b1, k)
    {
      if k < |b.attempts| {
        assert b1.attempts[k] == b.attempts[k];
        assert HeardSome(b, k, |Parts(b.attempts[k].content, MAX_TELEGRAM_CHARS)|) && IdsTell(b, k);
      } else {
        assert Heard(b.arrivals, k) == Upto(0);
      }
    }
  }

  lemma PrepareKeepsAttempts(b: Book, c: Call)
    requires c.recipient.Some? && (b.receipt.None? ==> b.attempts == [])
    requires b.receipt.Some? ==> AttemptsInv(b, b.receipt.value) && Finished(b.receipt.value.state) && b.receipt.value.content == c.text
    ensures AttemptsInv(Prepare(b, c), Prepare(b, c).receipt.value)
  {
  }

  lemma PrepareFacts(b: Book, c: Call)
    requires Coherent(b) && Refusal(b, c).None? && c.live
    ensures Underway(Prepare(b, c), |b.attempts|, c.text)
    ensures Heard(Prepare(b, c).arrivals, |b.attempts|) == []
  {
    PrepareKeepsArrivals(b, c);
    PrepareKeepsAttempts(b, c);
  }

  lemma SentPartsKeepArrivals(b: Book, b': Book, attempt: nat)
    requires ArrivalsInv(b) && attempt < |b.attempts| && b.attempts[attempt].state == Prepared && SameButIds(b, b', attempt)
    requires HeardSome(b', attempt, |Parts(b.attempts[attempt].content, MAX_TELEGRAM_CHARS)|)
    ensures ArrivalsInv(b')
  {
    forall k: nat
      ensures k >= |b'.attempts| ==> Heard(b'.arrivals, k) == []
      ensures k < |b'.attempts| ==> HeardSome(b', k, |Parts(b'.attempts[k].content, MAX_TELEGRAM_CHARS)|) && IdsTell(b', k)
    {
      if k < |b.attempts| {
        assert b'.attempts[k].content == b.attempts[k].content;
        assert HeardSome(b, k, |Parts(b.attempts[k].content, MAX_TELEGRAM_CHARS)|) && IdsTell(b, k);
      }
    }
  }

  /** Marking the current, prepared attempt failed or ambiguous. */
  lemma MarkFacts(b: Book, attempt: nat, content: string, state: State, ids: seq<string>)
    requires Underway(b, attempt, content) && (state == Failed || state == Ambiguous)
    requires state == Failed ==> Heard(b.arrivals, attempt) == Upto(|ids|)
    ensures Coherent(Mark(b, attempt, state, ids))
  {
    var b' := Mark(b, attempt, state, ids);
    forall k: nat
      ensures k >= |b'.attempts| ==> Heard(b'.arrivals, k) == []
      ensures k < |b'.attempts| ==> HeardSome(b', k, |Parts(b'.attempts[k].content, MAX_TELEGRAM_CHARS)|) && IdsTell(b', k)
    {
      if k < |b.attempts| {
        assert b'.attempts[k].content == b.attempts[k].content;
        assert HeardSome(b, k, |Parts(b.attempts[k].content, MAX_TELEGRAM_CHARS)|) && IdsTell(b, k);
      }
    }
  }

  lemma FinalFacts(b: Book, attempt: nat, content: string, ids: seq<string>)
    requires Underway(b, attempt, content) && |ids| == |Parts(content, MAX_TELEGRAM_CHARS)|
    requires Heard(b.arrivals, attempt) == Upto(|ids|)
    ensures var done := Finalize(b, attempt, ids); done.Some? && Coherent(done.value)
  {
    var b' := Finalize(b, attempt, ids).value;
    forall k: nat
      ensures k >= |b'.attempts| ==> Heard(b'.arrivals, k) == []
      ensures k < |b'.attempts| ==> HeardSome(b', k, |Parts(b'.attempts[k].content, MAX_TELEGRAM_CHARS)|) && IdsTell(b', k)
    {
      if k < |b.attempts| {
        assert b'.attempts[k].content == b.attempts[k].content;
        assert HeardSome(b, k, |Parts(b.attempts[k].content, MAX_TELEGRAM_CHARS)|) && IdsTell(b, k);
      }
    }
  }

  lemma ConcludeFacts(p: Progress, attempt: nat, content: string, w: World)
    requires Underway(p.book, attempt, content)
    requires p.ending == Going ==>
      |p.ids| == |Parts(content, MAX_TELEGRAM_CHARS)| && Heard(p.book.arrivals, attempt) == Upto(|p.ids|)
    requires p.ending == EndDeclined ==> Heard(p.book.arrivals, attempt) == Upto(|p.ids|)
    ensures Coherent(Conclude(p, attempt, w).0)
    ensures Conclude(p, attempt, w).1 != Conflict
    ensures Conclude(p, attempt, w).1.Delivered? <==> p.ending == Going && w.finalize
  {
    match p.ending
    case EndEscaped =>
    case EndDeclined => MarkFacts(p.book, attempt, content, Failed, p.ids);
    case EndUnclear => MarkFacts(p.book, attempt, content, Ambiguous, p.ids);
    case Going => FinalFacts(p.book, attempt, content, p.ids);
  }

  lemma StillUnderway(b: Book, p: Progress, attempt: nat, content: string)
    requires Underway(b, attempt, content) && SendGood(b, p, attempt, |Parts(content, MAX_TELEGRAM_CHARS)|)
    ensures Underway(p.book, attempt, content)
  {
    SentPartsKeepArrivals(b, p.book, attempt);
    var row := b.receipt.value;
    forall k | 0 <= k < |b.attempts|
      ensures p.book.attempts[k].content == row.content
      ensures k < row.current ==> Finished(p.book.attempts[k].state)
      ensures k > 0 ==> p.book.attempts[k].state != DryRun
    {
      assert p.book.attempts[k].content == b.attempts[k].content && p.book.attempts[k].state == b.attempts[k].state;
    }
  }

  /** A live call that is not refused: coherent afterwards, never a conflict, and delivered
      exactly when nothing went wrong. */
  lemma LiveFacts(b: Book, c: Call, w: World)
    requires Coherent(b) && Refusal(b, c).None? && c.live
    ensures Coherent(SendLive(b, c, w).0)
    ensures SendLive(b, c, w).1 != Conflict
    ensures SendLive(b, c, w).1.Delivered? <==>
      w.prepare && w.finalize && forall k :: 0 <= k < |Parts(c.text, MAX_TELEGRAM_CHARS)| ==> w.fate(k).Stored?
  {
    if w.prepare {
      var b1, attempt, n := Prepare(b, c), |b.attempts|, |Parts(c.text, MAX_TELEGRAM_CHARS)|;
      PrepareFacts(b, c);
      SendFacts(b1, attempt, n, w.fate);
      StillUnderway(b1, SendParts(b1, attempt, n, w.fate), attempt, c.text);
      ConcludeFacts(SendParts(b1, attempt, n, w.fate), attempt, c.text, w);
    }
  }

  lemma DeliverKeepsCoherence(b: Book, c: Call, w: World)
    requires Coherent(b)
    ensures Coherent(Deliver(b, c, w).0)
  {
    if Refusal(b, c).None? {
      if c.live {
        LiveFacts(b, c, w);
      } else if w.prepare && b.receipt.None? {
        var b' := InsertDryRun(b, c);
        assert Upto(0) == [];
        forall k: nat ensures Heard(b'.arrivals, k) == Upto(0) { assert k >= |b.attempts|; }
        assert IdsTell(b', 0);
      }
    }
  }

  /** Over any sequence of calls, one at a time, with a crash or failure anywhere. */
  lemma {:induction false} ReachableBooksAreCoherent(start: ReportState, turns: seq<Turn>, i: nat)
    requires i <= |turns| && start != ReportSent
    ensures Coherent(Played(Book(start, None, None, [], []), turns, i))
  {
    var b := Book(start, None, None, [], []);
    if i > 0 {
      ReachableBooksAreCoherent(start, turns, i - 1);
      DeliverKeepsCoherence(Played(b, turns, i - 1), turns[i - 1].call, turns[i - 1].world);
    }
  }

  // ------------------------------------------------------------ what it gives

  lemma OnlyCurrentIsSent(b: Book, row: Receipt)
    requires AttemptsInv(b, row)
    ensures forall k :: 0 <= k < |b.attempts| && b.attempts[k].state == Sent ==> k == row.current && row.state == Sent
  {
  }

  /** Sent together or not at all; and then the parts that arrived for that attempt, each
      once and in order, with an id each, spell the report. */
  lemma SentMeansDelivered(b: Book)
    requires Coherent(b)
    ensures b.report == ReportSent <==> b.receipt.Some? && b.receipt.value.state == Sent
    ensures b.receipt.Some? ==> b.receipt.value.current < |b.attempts|
    ensures b.receipt.Some? ==>
      (b.receipt.value.state == Sent <==> b.attempts[b.receipt.value.current].state == Sent)
    ensures forall k :: 0 <= k < |b.attempts| && b.attempts[k].state == Sent ==> b.report == ReportSent && b.deliveryId == Some(k)
    ensures b.report == ReportSent ==>
      var a := b.receipt.value.current; var parts := Parts(b.receipt.value.content, MAX_TELEGRAM_CHARS);
      && |b.attempts[a].ids| == |parts| && Heard(b.arrivals, a) == Upto(|parts|)
      && Concat(parts) == b.receipt.value.content
  {
    if b.receipt.Some? {
      PartsRebuild(b.receipt.value.content, MAX_TELEGRAM_CHARS);
      OnlyCurrentIsSent(b, b.receipt.value);
    }
  }

  // ------------------------------------------------------------ how often each part arrived

  /** How often part `part` arrived, over all attempts. */
  function Times(log: seq<Arrival>, part: nat): nat {
    if log == [] then 0 else Times(log[..|log| - 1], part) + (if log[|log| - 1].part == part then 1 else 0)
  }

  /** The same, attempt by attempt. */
  function TimesByAttempt(log: seq<Arrival>, attempts: nat, part: nat): nat {
    if attempts == 0 then 0 else TimesByAttempt(log, attempts - 1, part) + multiset(Heard(log, attempts - 1))[part]
  }

  /** How many of the attempts stored an id for part `part`. */
  function WithId(attempts: seq<Attempt>, part: nat): nat {
    if attempts == [] then 0 else
      WithId(attempts[..|attempts| - 1], part) + (if part < |attempts[|attempts| - 1].ids| then 1 else 0)
  }

  lemma CountAppend(s: seq<nat>, x: nat, part: nat)
    ensures multiset(s + [x])[part] == multiset(s)[part] + (if x == part then 1 else 0)
  {
  }

  lemma {:induction false} ByAttemptAppend(log: seq<Arrival>, a: Arrival, attempts: nat, part: nat)
    ensures TimesByAttempt(log + [a], attempts, part)
      == TimesByAttempt(log, attempts, part) + (if a.attempt < attempts && a.part == part then 1 else 0)
  {
    if attempts > 0 {
      ByAttemptAppend(log, a, attempts - 1, part);
      HeardAppend(log, a, attempts - 1);
      CountAppend(Heard(log, attempts - 1), a.part, part);
    }
  }

  lemma {:induction false} NothingByAttempt(attempts: nat, part: nat)
    ensures TimesByAttempt([], attempts, part) == 0
  {
    if attempts > 0 { NothingByAttempt(attempts - 1, part); }
  }

  lemma {:induction false} TimesSplit(log: seq<Arrival>, attempts: nat, part: nat)
    requires forall j :: 0 <= j < |log| ==> log[j].attempt < attempts
    ensures Times(log, part) == TimesByAttempt(log, attempts, part)
  {
    if log == [] {
      NothingByAttempt(attempts, part);
    } else {
      var init, last := log[..|log| - 1], log[|log| - 1];
      assert log == init + [last];
      TimesSplit(init, attempts, part);
      ByAttemptAppend(init, last, attempts, part);
    }
  }

  lemma {:induction false} HeardOfIts(log: seq<Arrival>, j: nat)
    requires j < |log|
    ensures log[j].part in Heard(log, log[j].attempt)
  {
    if j < |log| - 1 { HeardOfIts(log[..|log| - 1], j); }
  }

  lemma OnceUpto(n: nat, part: nat)
    ensures multiset(Upto(n))[part] == (if part < n then 1 else 0)
    decreases n
  {
    if n == 0 {
      assert Upto(0) == [];
    } else {
      OnceUpto(n - 1, part);
      assert Upto(n) == Upto(n - 1) + [n - 1];
    }
  }

  lemma {:induction false} IdsCount(log: seq<Arrival>, attempts: seq<Attempt>, n: nat, part: nat)
    requires n <= |attempts| && forall k :: 0 <= k < n ==> Heard(log, k) == Upto(|attempts[k].ids|)
    ensures TimesByAttempt(log, n, part) == WithId(attempts[..n], part)
  {
    if n > 0 {
      IdsCount(log, attempts, n - 1, part);
      assert attempts[..n][..n - 1] == attempts[..n - 1];
      OnceUpto(|attempts[n - 1].ids|, part);
    }
  }

  /** In a sent book every part arrived exactly as often as attempts stored an id for it. */
  lemma ArrivalsFollowIds(b: Book, part: nat)
    requires Coherent(b) && b.report == ReportSent
    ensures Times(b.arrivals, part) == WithId(b.attempts, part)
  {
    forall j | 0 <= j < |b.arrivals| ensures b.arrivals[j].attempt < |b.attempts| { HeardOfIts(b.arrivals, j); }
    TimesSplit(b.arrivals, |b.attempts|, part);
    forall k | 0 <= k < |b.attempts| ensures Heard(b.arrivals, k) == Upto(|b.attempts[k].ids|) {
      assert k != b.receipt.value.current ==> IdsTell(b, k);
    }
    IdsCount(b.arrivals, b.attempts, |b.attempts|, part);
    assert b.attempts[..|b.attempts|] == b.attempts;
  }

  /** No attempt before the current one stored an id: what a caller can read before retrying. */
  predicate CleanSlate(b: Book)
    requires b.receipt.Some? && b.receipt.value.current <= |b.attempts|
  {
    forall a :: 0 <= a < b.receipt.value.current ==> b.attempts[a].ids == []
  }

  lemma {:induction false} WithoutIds(attempts: seq<Attempt>, part: nat)
    requires forall a :: 0 <= a < |attempts| ==> attempts[a].ids == []
    ensures WithId(attempts, part) == 0
  {
    if attempts != [] { WithoutIds(attempts[..|attempts| - 1], part); }
  }

  lemma {:induction false} WithSomeId(attempts: seq<Attempt>, a: nat)
    requires a < |attempts| && attempts[a].ids != []
    ensures WithId(attempts, 0) >= 1
  {
    if a < |attempts| - 1 { WithSomeId(attempts[..|attempts| - 1], a); }
  }

  /** Over the whole log, a sent report's parts arrived once each exactly when no earlier
      attempt had stored an id. */
  lemma PartsArriveOnceIff(b: Book)
    requires Coherent(b) && b.report == ReportSent
    ensures b.receipt.Some? && b.receipt.value.current < |b.attempts|
    ensures CleanSlate(b) <==>
      forall part :: 0 <= part < |Parts(b.receipt.value.content, MAX_TELEGRAM_CHARS)| ==> Times(b.arrivals, part) == 1
  {
    var a, n := b.receipt.value.current, |Parts(b.receipt.value.content, MAX_TELEGRAM_CHARS)|;
    var earlier := b.attempts[..a];
    if CleanSlate(b) {
      forall part | 0 <= part < n ensures Times(b.arrivals, part) == 1 {
        ArrivalsFollowIds(b, part);
        WithoutIds(earlier, part);
      }
    } else {
      var k :| 0 <= k < a && b.attempts[k].ids != [];
      ArrivalsFollowIds(b, 0);
      WithSomeId(earlier, k);
      SomePartOf(b, k);
    }
  }

  lemma SomePartOf(b: Book, k: nat)
    requires Coherent(b) && b.receipt.Some? && k < |b.attempts| && Finished(b.attempts[k].state) && b.attempts[k].ids != []
    ensures Parts(b.receipt.value.content, MAX_TELEGRAM_CHARS) != []
  {
    assert IdsTell(b, k) && HeardSome(b, k, |Parts(b.attempts[k].content, MAX_TELEGRAM_CHARS)|);
    assert |Upto(|b.attempts[k].ids|)| > 0;
  }

  /** A live call leaves the earlier attempts as they were. */
  lemma LiveKeepsEarlier(b: Book, c: Call, w: World)
    requires Coherent(b) && Refusal(b, c).None? && c.live && w.prepare
    ensures |SendLive(b, c, w).0.attempts| == |b.attempts| + 1
    ensures forall k :: 0 <= k < |b.attempts| ==> SendLive(b, c, w).0.attempts[k] == b.attempts[k]
  {
    var b1, attempt, n := Prepare(b, c), |b.attempts|, |Parts(c.text, MAX_TELEGRAM_CHARS)|;
    PrepareFacts(b, c);
    SendFacts(b1, attempt, n, w.fate);
  }

  lemma {:induction false} ConcatAtMost(parts: seq<string>, max: nat)
    requires forall k :: 0 <= k < |parts| ==> |parts[k]| <= max
    ensures |Concat(parts)| <= |parts| * max
  {
    if parts != [] { ConcatAtMost(parts[1..], max); }
  }

  lemma LongTextHasParts(text: string)
    requires |text| > MAX_TELEGRAM_CHARS
    ensures |Parts(text, MAX_TELEGRAM_CHARS)| >= 2
  {
    PartsRebuild(text, MAX_TELEGRAM_CHARS);
    ConcatAtMost(Parts(text, MAX_TELEGRAM_CHARS), MAX_TELEGRAM_CHARS);
  }

  /** A live call whose second part is declined, then an explicit retry that goes through. */
  function DeclinedThenRetried(text: string, manifest: string, recipient: string): seq<Turn> {
    var first := Call(true, text, manifest, true, false, Some(recipient), false);
    [Turn(first, World(true, k => if k == 0 then Stored("1") else Declined, true, true)),
     Turn(first.(retryFailed := true), World(true, k => Stored("2"), true, true))]
  }

  lemma FirstCallDeclines(text: string, manifest: string, recipient: string)
    requires |text| > MAX_TELEGRAM_CHARS
    ensures Played(Book(NotAttempted, None, None, [], []), DeclinedThenRetried(text, manifest, recipient), 1)
      == Book(ReportFailed, Some(0), Some(Receipt(manifest, recipient, text, Failed, 0)), [Attempt(Failed, text, ["1"])], [Arrival(0, 0)])
  {
    var b, turn := Book(NotAttempted, None, None, [], []), DeclinedThenRetried(text, manifest, recipient)[0];
    var b1, n, fate := Prepare(b, turn.call), |Parts(text, MAX_TELEGRAM_CHARS)|, turn.world.fate;
    LongTextHasParts(text);
    var p := SendOne(Progress([], b1, Going), 0, 0, Stored("1"));
    assert fate(0) == Stored("1") && fate(1) == Declined;
    assert SendParts(b1, 0, 0, fate) == Progress([], b1, Going);
    assert SendParts(b1, 0, 1, fate) == p;
    assert SendParts(b1, 0, 2, fate) == p.(ending := EndDeclined);
    assert p.ids == [] + ["1"] == ["1"] && p.book.arrivals == [] + [Arrival(0, 0)];
    StopsStay(b1, 0, 2, n, fate);
    assert Deliver(b, turn.call, turn.world).0 == Mark(p.book, 0, Failed, ["1"]);
  }

  /** The report ends sent although its first part arrived twice, for every long text. */
  lemma RetryCanRepeatAPart(text: string, manifest: string, recipient: string)
    requires |text| > MAX_TELEGRAM_CHARS
    ensures var b := Played(Book(NotAttempted, None, None, [], []), DeclinedThenRetried(text, manifest, recipient), 2);
      b.report == ReportSent && Times(b.arrivals, 0) == 2
  {
    var turns := DeclinedThenRetried(text, manifest, recipient);
    FirstCallDeclines(text, manifest, recipient);
    ReachableBooksAreCoherent(NotAttempted, turns, 1);
    ReachableBooksAreCoherent(NotAttempted, turns, 2);
    SecondCallDelivers(Played(Book(NotAttempted, None, None, [], []), turns, 1), turns[1]);
    ArrivalsFollowIds(Played(Book(NotAttempted, None, None, [], []), turns, 2), 0);
  }

  /** A retry that goes through, after one failed attempt that stored an id. */
  lemma SecondCallDelivers(b: Book, turn: Turn)
    requires Coherent(b) && Refusal(b, turn.call).None? && turn.call.live && |turn.call.text| > MAX_TELEGRAM_CHARS
    requires turn.world.prepare && turn.world.finalize && forall k :: 0 <= k < |Parts(turn.call.text, MAX_TELEGRAM_CHARS)| ==> turn.world.fate(k).Stored?
    requires |b.attempts| == 1 && b.attempts[0].ids != []
    ensures var done := Deliver(b, turn.call, turn.world).0; done.report == ReportSent && WithId(done.attempts, 0) == 2
  {
    var done := SendLive(b, turn.call, turn.world).0;
    LiveFacts(b, turn.call, turn.world);
    LiveKeepsEarlier(b, turn.call, turn.world);
    LongTextHasParts(turn.call.text);
    DeliveredIsSent(b, turn.call, turn.world);
    assert done.attempts == [b.attempts[0], done.attempts[1]];
    TwoIds(b.attempts[0], done.attempts[1]);
  }

  lemma TwoIds(first: Attempt, second: Attempt)
    requires first.ids != [] && second.ids != []
    ensures WithId([first, second], 0) == 2
  {
    var both := [first, second];
    assert both[..1] == [first] && [first][..0] == [];
    assert WithId([first], 0) == 1;
    assert both[|both| - 1] == second;
  }

  lemma DeliveredIsSent(b: Book, c: Call, w: World)
    requires Coherent(b) && Refusal(b, c).None? && c.live && SendLive(b, c, w).1.Delivered?
    ensures var done := SendLive(b, c, w).0;
      && done.report == ReportSent && |done.attempts| == |b.attempts| + 1
      && |done.attempts[|b.attempts|].ids| == |Parts(c.text, MAX_TELEGRAM_CHARS)|
  {
    var b1, attempt, n := Prepare(b, c), |b.attempts|, |Parts(c.text, MAX_TELEGRAM_CHARS)|;
    PrepareFacts(b, c);
    SendFacts(b1, attempt, n, w.fate);
    var p := SendParts(b1, attempt, n, w.fate);
    assert SendLive(b, c, w) == Conclude(p, attempt, w);
    assert p.book.attempts[attempt].state == Prepared;
    assert p.ending == Going && |p.ids| == n;
    assert p.book.attempts[attempt] == b1.attempts[attempt].(ids := p.book.attempts[attempt].ids);
    assert Finalize(p.book, attempt, p.ids).value == SendLive(b, c, w).0;
  }

  predicate Settled(b: Book) {
    b.receipt.Some? && (b.receipt.value.state == Prepared || b.receipt.value.state == Ambiguous || b.receipt.value.state == Sent)
  }

  /** A prepared, ambiguous or sent receipt is final: no later call, live or not, retrying or
      not, sends anything or changes a row. */
  lemma {:induction false} SettledReceiptsStaySilent(b: Book, turns: seq<Turn>, i: nat)
    requires Settled(b) && i <= |turns|
    ensures Played(b, turns, i) == b
  {
    if i > 0 {
      SettledReceiptsStaySilent(b, turns, i - 1);
      assert Refusal(b, turns[i - 1].call).Some?;
    }
  }

  /** The finalisation conflict cannot happen: a conflict is only ever a refusal, and a
      refusal writes nothing. */
  lemma ConflictOnlyRefuses(b: Book, c: Call, w: World)
    requires Coherent(b)
    ensures Deliver(b, c, w).1 == Conflict ==> Refusal(b, c) == Some(Conflict)
    ensures Refusal(b, c).Some? ==> Deliver(b, c, w) == (b, Refusal(b, c).value)
  {
    if Refusal(b, c).None? && c.live { LiveFacts(b, c, w); }
  }

  // ------------------------------------------------------------ how often it sends

  function LiveAttempts(attempts: seq<Attempt>): nat {
    if attempts == [] then 0 else
      LiveAttempts(attempts[..|attempts| - 1]) + (if attempts[|attempts| - 1].state == DryRun then 0 else 1)
  }

  function Retries(turns: seq<Turn>, i: nat): nat
    requires i <= |turns|
  {
    if i == 0 then 0 else
      Retries(turns, i - 1) + (if turns[i - 1].call.live && turns[i - 1].call.retryFailed then 1 else 0)
  }

  lemma {:induction false} SameLiveness(a: seq<Attempt>, b: seq<Attempt>)
    requires |a| == |b| && forall k :: 0 <= k < |a| ==> (a[k].state == DryRun <==> b[k].state == DryRun)
    ensures LiveAttempts(a) == LiveAttempts(b)
  {
    if a != [] {
      SameLiveness(a[..|a| - 1], b[..|b| - 1]);
    }
  }

  /** Once prepared, concluding changes neither how many attempts there are nor which are live. */
  lemma ConcludeKeepsLiveness(p: Progress, attempt: nat, w: World)
    requires attempt < |p.book.attempts| && p.book.attempts[attempt].state != DryRun
    ensures LiveAttempts(Conclude(p, attempt, w).0.attempts) == LiveAttempts(p.book.attempts)
  {
    SameLiveness(p.book.attempts, Conclude(p, attempt, w).0.attempts);
  }

  lemma LiveCallAddsOne(b: Book, c: Call, w: World)
    requires Coherent(b) && Refusal(b, c).None? && c.live
    ensures LiveAttempts(SendLive(b, c, w).0.attempts) <= LiveAttempts(b.attempts) + 1
  {
    if w.prepare {
      var b1, attempt, n := Prepare(b, c), |b.attempts|, |Parts(c.text, MAX_TELEGRAM_CHARS)|;
      PrepareFacts(b, c);
      SendFacts(b1, attempt, n, w.fate);
      var p := SendParts(b1, attempt, n, w.fate);
      assert b1.attempts[..|b1.attempts| - 1] == b.attempts;
      SameLiveness(b1.attempts, p.book.attempts);
      ConcludeKeepsLiveness(p, attempt, w);
    }
  }

  lemma FirstLiveCall(b: Book, c: Call)
    requires Coherent(b) && Refusal(b, c).None? && c.live && !c.retryFailed
    ensures LiveAttempts(b.attempts) == 0
  {
    if b.receipt.Some? {
      assert b.attempts[0].state == DryRun && |b.attempts| == 1;
      assert b.attempts[..0] == [];
    }
  }

  /** A call adds at most one attempt, only when it is live, and not over a failed one unless
      it asks to retry. */
  lemma CallAddsOneAttempt(b: Book, c: Call, w: World)
    requires Coherent(b)
    ensures var b' := Deliver(b, c, w).0;
      LiveAttempts(b'.attempts) <=
        (if c.live && c.retryFailed then LiveAttempts(b.attempts) + 1
         else if LiveAttempts(b.attempts) == 0 then 1 else LiveAttempts(b.attempts))
  {
    if Refusal(b, c).None? && c.live {
      LiveCallAddsOne(b, c, w);
      if !c.retryFailed { FirstLiveCall(b, c); }
    }
  }

  /** Live attempts never outnumber one plus the explicit live retries. */
  lemma {:induction false} LiveAttemptsAreAskedFor(start: ReportState, turns: seq<Turn>, i: nat)
    requires i <= |turns| && start != ReportSent
    ensures LiveAttempts(Played(Book(start, None, None, [], []), turns, i).attempts) <= 1 + Retries(turns, i)
  {
    var b := Book(start, None, None, [], []);
    if i > 0 {
      LiveAttemptsAreAskedFor(start, turns, i - 1);
      ReachableBooksAreCoherent(start, turns, i - 1);
      CallAddsOneAttempt(Played(b, turns, i - 1), turns[i - 1].call, turns[i - 1].world);
    }
  }

  // ------------------------------------------------------------ who may send, and what is recorded

  /** The material can be delivered at all, and by this caller. */
  predicate Deliverable(b: Book, c: Call) {
    && c.loads && b.report != Undeliverable && !(b.report == ReportSent && b.deliveryId.None?) && c.text != ""
    && (if c.live then c.recipient.Some? else !c.stray)
  }

  /** A live call may send on a clean book, over a dry run of the same report, or, when it asks
      to retry, over a failed receipt of the same report and recipient; never otherwise. */
  predicate MaySend(b: Book, c: Call) {
    && Deliverable(b, c) && c.live
    && match b.receipt
       case None => b.report != ReportSent
       case Some(row) =>
         && row.manifest == c.manifest && row.content == c.text
         && (row.state == DryRun || (row.state == Failed && c.retryFailed && c.recipient == Some(row.recipient)))
  }

  /** Nothing arrives and no row changes in a live call that may not send. */
  lemma LiveSendsOnlyIf(b: Book, c: Call, w: World)
    requires c.live
    ensures MaySend(b, c) <==> Refusal(b, c).None?
    ensures !MaySend(b, c) ==> Deliver(b, c, w).0 == b
    ensures MaySend(b, c) && w.prepare ==> |Deliver(b, c, w).0.attempts| == |b.attempts| + 1
  {
    if MaySend(b, c) && w.prepare {
      SendKeepsCount(Prepare(b, c), |b.attempts|, |Parts(c.text, MAX_TELEGRAM_CHARS)|, w.fate);
    }
  }

  lemma {:induction false} SendKeepsCount(b: Book, attempt: nat, k: nat, fate: nat -> Fate)
    ensures |SendParts(b, attempt, k, fate).book.attempts| == |b.attempts|
  {
    if k > 0 { SendKeepsCount(b, attempt, k - 1, fate); }
  }

  /** A receipt of another report, or live for another recipient, is a conflict. */
  lemma AnotherReceiptConflicts(b: Book, c: Call, w: World)
    requires Deliverable(b, c) && b.receipt.Some?
    requires var row := b.receipt.value;
      || row.manifest != c.manifest || row.content != c.text
      || (c.live && row.state != DryRun && c.recipient != Some(row.recipient))
    ensures Deliver(b, c, w) == (b, Conflict)
  {
  }

  /** What a caller is told whose report and recipient are right, by the receipt's state. */
  lemma OwnReceiptAnswers(b: Book, c: Call, w: World)
    requires Deliverable(b, c) && b.receipt.Some? && b.receipt.value.manifest == c.manifest && b.receipt.value.content == c.text
    requires c.live ==> c.recipient == Some(b.receipt.value.recipient)
    ensures match b.receipt.value.state
      case Sent => Deliver(b, c, w).0 == b && Deliver(b, c, w).1.Delivered? && Deliver(b, c, w).1.replayed && !Deliver(b, c, w).1.network
      case Prepared => Deliver(b, c, w) == (b, AmbiguousError)
      case Ambiguous => Deliver(b, c, w) == (b, AmbiguousError)
      case Skipped => Deliver(b, c, w) == (b, Rejected)
      case Failed => !(c.live && c.retryFailed) ==> Deliver(b, c, w) == (b, Rejected)
      case DryRun => !c.live ==> Deliver(b, c, w).0 == b
  {
  }

  /** The fates that stop the loop and are recorded, and as what. */
  function RecordedAs(f: Fate): Option<State> {
    match f
    case Declined => Some(Failed)
    case Unclear(_) => Some(Ambiguous)
    case NotPersisted(_) => Some(Ambiguous)
    case _ => None
  }

  /** The stored ids of the first k parts. */
  predicate StoredIds(fate: nat -> Fate, k: nat, ids: seq<string>) {
    |ids| == k && forall j :: 0 <= j < k ==> fate(j) == Stored(ids[j])
  }

  lemma {:induction false} SentIdsAre(b: Book, attempt: nat, k: nat, fate: nat -> Fate)
    requires forall j :: 0 <= j < k ==> fate(j).Stored?
    ensures var p := SendParts(b, attempt, k, fate);
      && p.ending == Going && StoredIds(fate, k, p.ids)
      && |p.book.attempts| == |b.attempts| && p.book.receipt == b.receipt && p.book.report == b.report
      && (attempt < |b.attempts| ==> p.book.attempts[attempt].content == b.attempts[attempt].content)
  {
    if k > 0 { SentIdsAre(b, attempt, k - 1, fate); }
  }

  /** The first part that is declined or unclear ends the call: attempt, receipt and report are
      marked, the attempt keeps the ids of the parts before it, and the caller is told. */
  lemma TroubleIsRecorded(b: Book, c: Call, w: World, k: nat)
    requires Coherent(b) && MaySend(b, c) && w.prepare && w.mark && k < |Parts(c.text, MAX_TELEGRAM_CHARS)|
    requires (forall j :: 0 <= j < k ==> w.fate(j).Stored?) && RecordedAs(w.fate(k)).Some?
    ensures var (after, reply) := Deliver(b, c, w); var state := RecordedAs(w.fate(k)).value; var n := |b.attempts|;
      && reply == (if w.fate(k).Declined? then Rejected else AmbiguousError)
      && |after.attempts| == n + 1 && after.attempts[n].state == state && after.attempts[n].content == c.text
      && after.receipt == Some(Receipt(c.manifest, c.recipient.value, c.text, state, n))
      && after.report == ReportFailed && after.deliveryId == Some(n)
      && k <= |after.attempts[n].ids| && StoredIds(w.fate, k, after.attempts[n].ids[..k])
      && |after.attempts[n].ids| == (if w.fate(k).NotPersisted? then k + 1 else k)
  {
    var b1, n := Prepare(b, c), |b.attempts|;
    SentIdsAre(b1, n, k, w.fate);
    TroubleStops(b1, n, k, |Parts(c.text, MAX_TELEGRAM_CHARS)|, w.fate);
    PreparedReceipt(b, c);
    LiveSendsOnlyIf(b, c, w);
    assert Deliver(b, c, w) == Conclude(SendParts(b1, n, |Parts(c.text, MAX_TELEGRAM_CHARS)|, w.fate), n, w);
    MarkedAs(b1, c, SendParts(b1, n, k, w.fate), SendParts(b1, n, |Parts(c.text, MAX_TELEGRAM_CHARS)|, w.fate), n, k, w);
  }

  lemma PreparedReceipt(b: Book, c: Call)
    requires Coherent(b) && MaySend(b, c)
    ensures var b1 := Prepare(b, c);
      && b1.receipt == Some(Receipt(c.manifest, c.recipient.value, c.text, Prepared, |b.attempts|))
      && |b1.attempts| == |b.attempts| + 1 && b1.attempts[|b.attempts|].content == c.text
      && b1.report == b.report && b1.report != Undeliverable
  {
  }

  lemma TroubleStops(b: Book, attempt: nat, k: nat, n: nat, fate: nat -> Fate)
    requires k < n && SendParts(b, attempt, k, fate).ending == Going && RecordedAs(fate(k)).Some?
    ensures SendParts(b, attempt, n, fate) == SendOne(SendParts(b, attempt, k, fate), attempt, k, fate(k))
  {
    var q := SendParts(b, attempt, k, fate);
    TroubleEnds(q, attempt, k, fate(k));
    assert SendParts(b, attempt, k + 1, fate) == SendOne(q, attempt, k, fate(k));
    StopsStay(b, attempt, k + 1, n, fate);
  }

  lemma TroubleEnds(q: Progress, attempt: nat, k: nat, f: Fate)
    requires RecordedAs(f).Some?
    ensures SendOne(q, attempt, k, f).ending != Going
  {
  }

  lemma MarkedAs(b1: Book, c: Call, q: Progress, p: Progress, n: nat, k: nat, w: World)
    requires w.mark && p == SendOne(q, n, k, w.fate(k)) && RecordedAs(w.fate(k)).Some? && StoredIds(w.fate, k, q.ids)
    requires |q.book.attempts| == n + 1 && q.book.attempts[n].content == c.text && c.recipient.Some?
    requires q.book.receipt == Some(Receipt(c.manifest, c.recipient.value, c.text, Prepared, n)) && q.book.report != Undeliverable
    ensures var (after, reply) := Conclude(p, n, w); var state := RecordedAs(w.fate(k)).value;
      && reply == (if w.fate(k).Declined? then Rejected else AmbiguousError)
      && |after.attempts| == n + 1 && after.attempts[n].state == state && after.attempts[n].content == c.text
      && after.receipt == Some(Receipt(c.manifest, c.recipient.value, c.text, state, n))
      && after.report == ReportFailed && after.deliveryId == Some(n)
      && k <= |after.attempts[n].ids| && StoredIds(w.fate, k, after.attempts[n].ids[..k])
      && |after.attempts[n].ids| == (if w.fate(k).NotPersisted? then k + 1 else k)
  {
  }
}
