/** Delivery receipts (delivery.py): one report's rows, the transport's log, and
    `deliver_report` under a crash or an error at any point, one call at a time.

    Hashes stand for the text they hash.  An attempt is known by its position, which is its
    ordinal less one. */
module Delivery {
  import opened UtcText
  import opened TelegramText

  datatype ReportState = NotAttempted | ReportDryRun | ReportFailed | ReportSent | Undeliverable
  datatype State = Prepared | Sent | Failed | Ambiguous | DryRun | Skipped

  datatype Receipt = Receipt(manifest: string, recipient: string, content: string, state: State, current: nat)
  datatype Attempt = Attempt(state: State, content: string, ids: seq<string>)

  /** A message that reached Telegram: which attempt sent it, and which part it was. */
  datatype Arrival = Arrival(attempt: nat, part: nat)

  datatype Book = Book(
    report: ReportState, deliveryId: Option<nat>, receipt: Option<Receipt>, attempts: seq<Attempt>, arrivals: seq<Arrival>)

  /** The arguments of a call and the material it loads.  `recipient` is None when no usable
      transport was given; `stray` is a transport supplied to a dry run. */
  datatype Call = Call(
    loads: bool, text: string, manifest: string, live: bool, retryFailed: bool, recipient: Option<string>, stray: bool)

  /** What becomes of one part.  A declined part did not arrive; an unclear one, or one that
      fails with some other error, may have. */
  datatype Fate =
    | CrashBefore | Declined | Unclear(arrived: bool) | OtherError(arrived: bool)
    | CrashAfter(id: string) | NotPersisted(id: string) | Stored(id: string)

  /** Which of the call's transactions commit, and the fate of each part. */
  datatype World = World(prepare: bool, fate: nat -> Fate, finalize: bool, mark: bool)

  datatype Reply =
    | Delivered(state: State, attempt: nat, ids: seq<string>, network: bool, replayed: bool)
    | Rejected | AmbiguousError | Conflict
    | Escaped  // another exception, or the process died

  // ------------------------------------------------------------ before anything is written

  function Replay(b: Book, row: Receipt): Reply {
    Delivered(row.state, row.current, if row.current < |b.attempts| then b.attempts[row.current].ids else [], false, true)
  }

  /** The durable receipt decides: Some(reply) answers without touching anything. */
  function Gate(b: Book, c: Call): Option<Reply> {
    match b.receipt
    case Some(row) =>
      if row.manifest != c.manifest || row.content != c.text then Some(Conflict)
      else if c.live && row.state != DryRun && Some(row.recipient) != c.recipient then Some(Conflict)
      else if row.state == Sent then Some(Replay(b, row))
      else if row.state == Prepared || row.state == Ambiguous then Some(AmbiguousError)
      else if row.state == Skipped then Some(Rejected)
      else if row.state == Failed && (!c.retryFailed || !c.live) then Some(Rejected)
      else if row.state == DryRun && !c.live then Some(Replay(b, row))
      else None
    case None => if b.report == ReportSent then Some(Conflict) else None
  }

  function LoadCheck(b: Book, c: Call): Option<Reply> {
    if !c.loads || b.report == Undeliverable then Some(Rejected)
    else if b.report == ReportSent && b.deliveryId.None? then Some(Conflict)
    else if c.text == "" then Some(Escaped)
    else if (c.live && c.recipient.None?) || (!c.live && c.stray) then Some(Rejected)
    else None
  }

  function Refusal(b: Book, c: Call): Option<Reply> {
    var early := LoadCheck(b, c);
    if early.Some? then early else Gate(b, c)
  }

  // ------------------------------------------------------------ the transactions

  function InsertDryRun(b: Book, c: Call): Book {
    b.(receipt := Some(Receipt(c.manifest, "phase6-dry-run", c.text, DryRun, 0)), attempts := [Attempt(DryRun, c.text, [])])
  }

  function Prepare(b: Book, c: Call): Book
    requires c.recipient.Some?
  {
    var row := if b.receipt.None? then Receipt(c.manifest, c.recipient.value, c.text, Prepared, |b.attempts|)
               else b.receipt.value.(state := Prepared, current := |b.attempts|, recipient := c.recipient.value);
    b.(receipt := Some(row), attempts := b.attempts + [Attempt(Prepared, c.text, [])])
  }

  function Persist(b: Book, attempt: nat, ids: seq<string>): Book {
    if attempt < |b.attempts| then b.(attempts := b.attempts[attempt := b.attempts[attempt].(ids := ids)]) else b
  }

  /** `_mark_attempt`: attempt, receipt when it still points here, and the report. */
  function Mark(b: Book, attempt: nat, state: State, ids: seq<string>): Book {
    b.(attempts := if attempt < |b.attempts| then b.attempts[attempt := b.attempts[attempt].(state := state, ids := ids)] else b.attempts,
       receipt := if b.receipt.Some? && b.receipt.value.current == attempt then Some(b.receipt.value.(state := state)) else b.receipt,
       report := if b.report == Undeliverable then Undeliverable else ReportFailed,
       deliveryId := if b.report == Undeliverable then b.deliveryId else Some(attempt))
  }

  /** The finalising transaction; None is the conflict that rolls it back. */
  function Finalize(b: Book, attempt: nat, ids: seq<string>): Option<Book> {
    if !(b.receipt.Some? && b.receipt.value.current == attempt && b.receipt.value.state == Prepared) then None
    else if b.report == ReportSent || b.report == Undeliverable then None
    else
      Some(b.(
        attempts := if attempt < |b.attempts| && b.attempts[attempt].state == Prepared
                    then b.attempts[attempt := b.attempts[attempt].(state := Sent, ids := ids)] else b.attempts,
        receipt := Some(b.receipt.value.(state := Sent)),
        report := ReportSent, deliveryId := Some(attempt)))
  }

  // ------------------------------------------------------------ the send loop

  datatype Ending = Going | EndDeclined | EndUnclear | EndEscaped

  /** The loop after k parts: ids collected, the book, and how it stands. */
  datatype Progress = Progress(ids: seq<string>, book: Book, ending: Ending)

  function Arrive(b: Book, attempt: nat, part: nat): Book {
    b.(arrivals := b.arrivals + [Arrival(attempt, part)])
  }

  function SendOne(p: Progress, attempt: nat, part: nat, fate: Fate): Progress {
    match fate
    case CrashBefore => p.(ending := EndEscaped)
    case Declined => p.(ending := EndDeclined)
    case Unclear(arrived) => Progress(p.ids, if arrived then Arrive(p.book, attempt, part) else p.book, EndUnclear)
    case OtherError(arrived) => Progress(p.ids, if arrived then Arrive(p.book, attempt, part) else p.book, EndEscaped)
    case CrashAfter(id) => Progress(p.ids + [id], Arrive(p.book, attempt, part), EndEscaped)
    case NotPersisted(id) => Progress(p.ids + [id], Arrive(p.book, attempt, part), EndUnclear)
    case Stored(id) => Progress(p.ids + [id], Persist(Arrive(p.book, attempt, part), attempt, p.ids + [id]), Going)
  }

  function SendParts(b: Book, attempt: nat, k: nat, fate: nat -> Fate): Progress {
    if k == 0 then Progress([], b, Going)
    else
      var p := SendParts(b, attempt, k - 1, fate);
      if p.ending != Going then p else SendOne(p, attempt, k - 1, fate(k - 1))
  }

  /** After the loop: finalise, or record how it failed. */
  function Conclude(p: Progress, attempt: nat, w: World): (Book, Reply) {
    match p.ending
    case EndEscaped => (p.book, Escaped)
    case EndDeclined => if w.mark then (Mark(p.book, attempt, Failed, p.ids), Rejected) else (p.book, Escaped)
    case EndUnclear => if w.mark then (Mark(p.book, attempt, Ambiguous, p.ids), AmbiguousError) else (p.book, Escaped)
    case Going =>
      var final := Finalize(p.book, attempt, p.ids);
      if final.None? then
        if w.mark then (Mark(p.book, attempt, Ambiguous, p.ids), Conflict) else (p.book, Escaped)
      else if !w.finalize then (p.book, Escaped)
      else (final.value, Delivered(Sent, attempt, p.ids, true, false))
  }

  function SendLive(b: Book, c: Call, w: World): (Book, Reply)
    requires c.recipient.Some?
  {
    if !w.prepare then (b, Escaped)
    else
      var attempt := |b.attempts|;
      Conclude(SendParts(Prepare(b, c), attempt, |Parts(c.text, MAX_TELEGRAM_CHARS)|, w.fate), attempt, w)
  }

  function Deliver(b: Book, c: Call, w: World): (Book, Reply) {
    var refusal := Refusal(b, c);
    if refusal.Some? then (b, refusal.value)
    else if c.live then SendLive(b, c, w)
    else if !w.prepare then (b, Escaped)
    else if b.receipt.None? then (InsertDryRun(b, c), Delivered(DryRun, 0, [], false, false))
    else (b, Delivered(DryRun, b.receipt.value.current, [], false, true))
  }

  // ------------------------------------------------------------ the database

  class ReportDb {
    var report: ReportState
    var deliveryId: Option<nat>
    var receipt: Option<Receipt>
    var attempts: seq<Attempt>
    var arrivals: seq<Arrival>

    function Rows(): Book
      reads this
    {
      Book(report, deliveryId, receipt, attempts, arrivals)
    }

    constructor (initial: ReportState)
      ensures Rows() == Book(initial, None, None, [], [])
    {
      report, deliveryId, receipt, attempts, arrivals := initial, None, None, [], [];
    }

    method MarkAttempt(attempt: nat, state: State, ids: seq<string>)
      modifies this
      ensures Rows() == Mark(old(Rows()), attempt, state, ids)
    {
      if attempt < |attempts| {
        attempts := attempts[attempt := attempts[attempt].(state := state, ids := ids)];
      }
      if receipt.Some? && receipt.value.current == attempt {
        receipt := Some(receipt.value.(state := state));
      }
      if report != Undeliverable {
        report, deliveryId := ReportFailed, Some(attempt);
      }
    }

    /** Send every part, persisting the ids after each. */
    method SendAll(attempt: nat, parts: seq<string>, fate: nat -> Fate) returns (sentIds: seq<string>, ending: Ending)
      modifies this`attempts, this`arrivals
      ensures Progress(sentIds, Rows(), ending) == SendParts(old(Rows()), attempt, |parts|, fate)
    {
      sentIds, ending := [], Going;
      ghost var start := Rows();
      for k := 0 to |parts|
        invariant ending == Going
        invariant Progress(sentIds, Rows(), ending) == SendParts(start, attempt, k, fate)
      {
        ghost var p := Progress(sentIds, Rows(), ending);
        var f := fate(k);
        match f {
          case CrashBefore => ending := EndEscaped;
          case Declined => ending := EndDeclined;
          case Unclear(arrived) =>
            if arrived { arrivals := arrivals + [Arrival(attempt, k)]; }
            ending := EndUnclear;
          case OtherError(arrived) =>
            if arrived { arrivals := arrivals + [Arrival(attempt, k)]; }
            ending := EndEscaped;
          case CrashAfter(id) =>
            sentIds, arrivals := sentIds + [id], arrivals + [Arrival(attempt, k)];
            ending := EndEscaped;
          case NotPersisted(id) =>
            sentIds, arrivals := sentIds + [id], arrivals + [Arrival(attempt, k)];
            ending := EndUnclear;
          case Stored(id) =>
            sentIds, arrivals := sentIds + [id], arrivals + [Arrival(attempt, k)];
            if attempt < |attempts| {
              attempts := attempts[attempt := attempts[attempt].(ids := sentIds)];
            }
        }
        assert Progress(sentIds, Rows(), ending) == SendOne(p, attempt, k, fate(k));
        if ending != Going {
          StopsStay(start, attempt, k + 1, |parts|, fate);
          return;
        }
      }
    }

    method DeliverReport(c: Call, w: World) returns (r: Reply)
      modifies this
      ensures (Rows(), r) == Deliver(old(Rows()), c, w)
    {
      ghost var start := Rows();
      if !c.loads || report == Undeliverable { return Rejected; }
      if report == ReportSent && deliveryId.None? { return Conflict; }
      if c.text == "" { return Escaped; }
      var parts := SplitTelegramText(c.text, MAX_TELEGRAM_CHARS);
      if (c.live && c.recipient.None?) || (!c.live && c.stray) { return Rejected; }
      var gate := Gate(Rows(), c);
      if gate.Some? { return gate.value; }
      if !c.live {
        if !w.prepare { return Escaped; }
        if receipt.None? {
          receipt := Some(Receipt(c.manifest, "phase6-dry-run", c.text, DryRun, 0));
          attempts := [Attempt(DryRun, c.text, [])];
          return Delivered(DryRun, 0, [], false, false);
        }
        return Delivered(DryRun, receipt.value.current, [], false, true);
      }
      if !w.prepare { return Escaped; }
      var attempt := |attempts|;
      if receipt.None? {
        receipt := Some(Receipt(c.manifest, c.recipient.value, c.text, Prepared, attempt));
      } else {
        receipt := Some(receipt.value.(state := Prepared, current := attempt, recipient := c.recipient.value));
      }
      attempts := attempts + [Attempt(Prepared, c.text, [])];
      assert Rows() == Prepare(start, c);
      var sentIds, ending := SendAll(attempt, parts, w.fate);
      ghost var p := Progress(sentIds, Rows(), ending);
      assert Deliver(start, c, w) == Conclude(p, attempt, w);
      r := Finish(attempt, sentIds, ending, w);
    }

    method Finish(attempt: nat, sentIds: seq<string>, ending: Ending, w: World) returns (r: Reply)
      modifies this
      ensures (Rows(), r) == Conclude(Progress(sentIds, old(Rows()), ending), attempt, w)
    {
      match ending {
        case EndEscaped => return Escaped;
        case EndDeclined =>
          if !w.mark { return Escaped; }
          MarkAttempt(attempt, Failed, sentIds);
          return Rejected;
        case EndUnclear =>
          if !w.mark { return Escaped; }
          MarkAttempt(attempt, Ambiguous, sentIds);
          return AmbiguousError;
        case Going =>
          if receipt.None? || receipt.value.current != attempt || receipt.value.state != Prepared
             || report == ReportSent || report == Undeliverable {
            if !w.mark { return Escaped; }
            MarkAttempt(attempt, Ambiguous, sentIds);
            return Conflict;
          }
          if !w.finalize { return Escaped; }
          if attempt < |attempts| && attempts[attempt].state == Prepared {
            attempts := attempts[attempt := attempts[attempt].(state := Sent, ids := sentIds)];
          }
          receipt := Some(receipt.value.(state := Sent));
          report, deliveryId := ReportSent, Some(attempt);
          return Delivered(Sent, attempt, sentIds, true, false);
      }
    }
  }

  lemma {:induction false} StopsStay(b: Book, attempt: nat, k: nat, n: nat, fate: nat -> Fate)
    requires k <= n && SendParts(b, attempt, k, fate).ending != Going
    ensures SendParts(b, attempt, n, fate) == SendParts(b, attempt, k, fate)
  {
    if k < n {
      StopsStay(b, attempt, k, n - 1, fate);
    }
  }
}
