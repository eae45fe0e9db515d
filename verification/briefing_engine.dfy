/** One briefing run (briefing_engine.py): classify, sort, summarise, render per subject, and
    only then complete the ledger.  Collaborators that may fail are parameters: the summariser
    is any function of its request, ledger and process failures are chosen by `Faults`. */
module BriefingEngine {
  import opened Ordering
  import opened UtcText
  import opened TextRules
  import opened JsonBytes
  import opened Grouping
  import opened DecimalText
  import opened MorningWindow
  import opened BriefingLedger
  import opened LedgerRuns
  import opened Packing
  import R = Renderer
  import opened Rendering

  // ------------------------------------------------------------ inputs

  /** `urlParses` is what the library's URL parser says of the URL. */
  datatype Input = Input(
    candidate: string, category: R.Category, subject: string, evaluatedAt: Moment, ordinal: nat,
    decision: Semantic, suppressed: bool, eventId: Option<string>, eventVersion: Option<nat>,
    title: string, snippet: string, url: Option<string>, urlParses: bool, reasons: seq<string>, facts: seq<R.Fact>)

  const SUBJECTS: seq<string> :=
    ["ai", "world", "audio_engineering", "professional_av", "hardware", "fantasy_novel", "our_setup"]

  /** The hashed triple, printed: the fields hold no control characters. */
  function EventVersionIdentity(subject: string, event: string, version: nat): string {
    "evv1:" + subject + "\n" + event + "\n" + Decimal(version)
  }

  /** `delivery_identity`: subject, event and version, or the candidate when there is no event. */
  function Identity(i: Input): CandidateId {
    if i.eventId.None? || i.suppressed then i.candidate
    else EventVersionIdentity(i.subject, i.eventId.value, if i.eventVersion.Some? then i.eventVersion.value else 1)
  }

  /** `event_version_identity` refuses a triple that is not clean; no identity, no run. */
  predicate IdentityOk(i: Input) {
    i.eventId.None? || i.suppressed || (CleanId(i.subject) && CleanId(i.eventId.value) && i.eventVersion != Some(0))
  }

  function IdentityAccepted(): Input -> bool { (i: Input) => IdentityOk(i) }

  predicate IdentitiesOk(inputs: seq<Input>) { Every(inputs, IdentityAccepted()) }

  predicate BadUrlChar(c: char) { Space(c) || c <= '\U{1F}' || '\U{7F}' <= c <= '\U{9F}' }

  predicate CleanUrl(u: string) {
    && 1 <= |u| <= 2048
    && ("http://" <= u || "https://" <= u)
    && (forall k :: 0 <= k < |u| ==> !BadUrlChar(u[k]))
    && (var host := if "http://" <= u then u[7..] else u[8..]; host != "" && host[0] !in "/?#")
  }

  /** `_raw_bounds_invalid`: such an input is listed as included but never rendered or recorded. */
  predicate BoundsInvalid(i: Input) {
    !(1 <= |i.candidate| <= 256) || !(1 <= |i.title| <= 512) || |i.snippet| > 2048
    || (i.url.Some? && !CleanUrl(i.url.value))
  }

  // ------------------------------------------------------------ classification

  datatype Reason = OutOfWindow | NonEligibleDecision | AlreadyShadowSeen
  datatype Excluded = Excluded(input: Input, reason: Reason)

  predicate InWindow(i: Input, lower: Moment, upper: Moment) { lower <= i.evaluatedAt < upper }

  /** Why an input is left out, in the order the engine asks. */
  function WhyNot(seen: map<CandidateId, SeenRow>, lower: Moment, upper: Moment, i: Input): Option<Reason> {
    if Identity(i) in seen then Some(AlreadyShadowSeen)
    else if !InWindow(i, lower, upper) then Some(OutOfWindow)
    else if !Eligible(i.decision, i.suppressed) then Some(NonEligibleDecision)
    else None
  }

  function Wanted(seen: map<CandidateId, SeenRow>, lower: Moment, upper: Moment): Input -> bool {
    i => WhyNot(seen, lower, upper, i).None?
  }

  function ExcludedOf(seen: map<CandidateId, SeenRow>, lower: Moment, upper: Moment, inputs: seq<Input>): seq<Excluded> {
    if inputs == [] then [] else
      var i := inputs[|inputs| - 1];
      ExcludedOf(seen, lower, upper, inputs[..|inputs| - 1])
      + (match WhyNot(seen, lower, upper, i) case Some(reason) => [Excluded(i, reason)] case None => [])
  }

  /** An input both seen and ineligible makes the engine raise. */
  predicate Contradicts(seen: map<CandidateId, SeenRow>, i: Input) {
    Identity(i) in seen && !Eligible(i.decision, i.suppressed)
  }

  function IdentityOf(): Input -> string { i => Identity(i) }
  function SubjectOf(): Input -> string { (i: Input) => i.subject }

  predicate ArrivesFirst(a: Input, b: Input) {
    R.Rank(a.category) < R.Rank(b.category)
    || (a.category == b.category
        && (a.evaluatedAt < b.evaluatedAt
            || (a.evaluatedAt == b.evaluatedAt
                && (a.ordinal < b.ordinal || (a.ordinal == b.ordinal && TextAtMost(a.candidate, b.candidate))))))
  }

  function Arrival(): (Input, Input) -> bool { (a, b) => ArrivesFirst(a, b) }

  lemma ArrivalIsPreorder()
    ensures TotalPreorder(Arrival())
  {
    forall a: Input, b: Input ensures Arrival()(a, b) || Arrival()(b, a) {
      TextLessTrichotomy(a.candidate, b.candidate);
    }
    forall a: Input, b: Input, c: Input | Arrival()(a, b) && Arrival()(b, c) ensures Arrival()(a, c) {
      if TextLess(a.candidate, b.candidate) && TextLess(b.candidate, c.candidate) {
        TextLessTransitive(a.candidate, b.candidate, c.candidate);
      }
    }
  }

  /** The eligible unseen inputs of the window in processing order. */
  function Queue(seen: map<CandidateId, SeenRow>, lower: Moment, upper: Moment, inputs: seq<Input>): seq<Input> {
    Sort(Filter(inputs, Wanted(seen, lower, upper)), Arrival())
  }

  method Classify(seenIds: seq<CandidateId>, ghost seen: map<CandidateId, SeenRow>, lower: Moment, upper: Moment, inputs: seq<Input>)
    returns (ok: bool, eligible: seq<Input>, excluded: seq<Excluded>)
    requires forall k :: 0 <= k < |inputs| ==> (Identity(inputs[k]) in seenIds <==> Identity(inputs[k]) in seen)
    ensures ok <==> forall k :: 0 <= k < |inputs| ==> !Contradicts(seen, inputs[k])
    ensures ok ==> eligible == Filter(inputs, Wanted(seen, lower, upper))
    ensures ok ==> excluded == ExcludedOf(seen, lower, upper, inputs)
  {
    eligible, excluded := [], [];
    for n := 0 to |inputs|
      invariant forall k :: 0 <= k < n ==> !Contradicts(seen, inputs[k])
      invariant eligible == Filter(inputs[..n], Wanted(seen, lower, upper))
      invariant excluded == ExcludedOf(seen, lower, upper, inputs[..n])
    {
      var i := inputs[n];
      assert inputs[..n + 1][..n] == inputs[..n];
      if Identity(i) in seenIds {
        if !Eligible(i.decision, i.suppressed) { return false, eligible, excluded; }
        excluded := excluded + [Excluded(i, AlreadyShadowSeen)];
      } else if !(lower <= i.evaluatedAt < upper) {
        excluded := excluded + [Excluded(i, OutOfWindow)];
      } else if !Eligible(i.decision, i.suppressed) {
        excluded := excluded + [Excluded(i, NonEligibleDecision)];
      } else {
        eligible := eligible + [i];
      }
    }
    assert inputs[..|inputs|] == inputs;
    return true, eligible, excluded;
  }

  // ------------------------------------------------------------ summaries

  datatype Summary = Summary(text: string, fallback: bool)
  datatype Included = Included(input: Input, summary: Summary)

  /** None stands for an exception leaving the summariser. */
  type Summarizer = (string, seq<Input>) -> Option<map<CandidateId, Summary>>

  const BOUNDS_EXCEEDED := Summary("Input bounds exceeded", true)

  /** Inputs the summariser is asked about: bounds fine, and an event, version and URL present
      that the editorial input accepts. */
  predicate Askable(i: Input) {
    && !BoundsInvalid(i) && i.eventId.Some? && i.eventVersion.Some? && i.url.Some?
    && 1 <= |i.eventId.value| <= 256 && EditorialClean(i.eventId.value) && i.eventVersion.value >= 1
    && EditorialClean(i.title) && EditorialClean(i.url.value) && i.urlParses
  }

  function Asked(): Input -> bool { i => Askable(i) }

  function WithSummaries(group: seq<Input>, m: map<CandidateId, Summary>): seq<Included> {
    seq(|group|, k requires 0 <= k < |group| =>
      Included(group[k], if Askable(group[k]) && Identity(group[k]) in m then m[Identity(group[k])] else BOUNDS_EXCEEDED))
  }

  predicate Covers(m: map<CandidateId, Summary>, raw: seq<Input>) {
    forall k :: 0 <= k < |raw| ==> Identity(raw[k]) in m
  }

  function IncludeGroup(subject: string, group: seq<Input>, summarize: Summarizer): Option<seq<Included>> {
    var raw := Filter(group, Asked());
    if raw == [] then Some(WithSummaries(group, map[]))
    else match summarize(subject, raw)
      case None => None
      case Some(m) => if Covers(m, raw) then Some(WithSummaries(group, m)) else None
  }

  function IncludeAll(queue: seq<Input>, subjects: seq<string>, summarize: Summarizer): Option<seq<Included>> {
    if subjects == [] then Some([])
    else
      var subject := subjects[|subjects| - 1];
      var before := IncludeAll(queue, subjects[..|subjects| - 1], summarize);
      var group := IncludeGroup(subject, Filter(queue, HasKey(SubjectOf(), subject)), summarize);
      if before.Some? && group.Some? then Some(before.value + group.value) else None
  }

  function Inputs(s: seq<Included>): seq<Input> { seq(|s|, k requires 0 <= k < |s| => s[k].input) }

  /** Whatever the summariser says, the included inputs are the queue grouped by subject. */
  lemma {:induction false} IncludedAreTheGroups(queue: seq<Input>, subjects: seq<string>, summarize: Summarizer)
    requires IncludeAll(queue, subjects, summarize).Some?
    ensures Inputs(IncludeAll(queue, subjects, summarize).value) == Grouped(queue, SubjectOf(), subjects)
  {
    if subjects != [] {
      var subject := subjects[|subjects| - 1];
      IncludedAreTheGroups(queue, subjects[..|subjects| - 1], summarize);
      var before := IncludeAll(queue, subjects[..|subjects| - 1], summarize).value;
      var group := Filter(queue, HasKey(SubjectOf(), subject));
      IncludedGroup(subject, group, summarize);
      InputsAppend(before, IncludeGroup(subject, group, summarize).value);
    }
  }

  lemma IncludedGroup(subject: string, group: seq<Input>, summarize: Summarizer)
    requires IncludeGroup(subject, group, summarize).Some?
    ensures Inputs(IncludeGroup(subject, group, summarize).value) == group
  {
  }

  lemma InputsAppend(a: seq<Included>, b: seq<Included>)
    ensures Inputs(a + b) == Inputs(a) + Inputs(b)
  {
  }

  /** Every askable input of the group is answered. */
  ghost predicate Answered(group: seq<Input>, n: nat, answers: map<CandidateId, Summary>)
    requires n <= |group|
  {
    forall k :: 0 <= k < n && Askable(group[k]) ==> Identity(group[k]) in answers
  }

  lemma CoversTheAsked(group: seq<Input>, raw: seq<Input>, answers: map<CandidateId, Summary>)
    requires raw == Filter(group, Asked())
    ensures Covers(answers, raw) == Answered(group, |group|, answers)
  {
    FilterMembers(group, Asked());
    if Answered(group, |group|, answers) {
      forall k | 0 <= k < |raw| ensures Identity(raw[k]) in answers { assert raw[k] in raw; }
    }
    if Covers(answers, raw) {
      forall k | 0 <= k < |group| && Askable(group[k]) ensures Identity(group[k]) in answers { assert group[k] in raw; }
    }
  }

  /** Each input with its answer, or the fixed fallback; None when an askable one got none. */
  method AttachSummaries(group: seq<Input>, answers: map<CandidateId, Summary>) returns (out: Option<seq<Included>>)
    ensures out == if Answered(group, |group|, answers) then Some(WithSummaries(group, answers)) else None
  {
    var made: seq<Included> := [];
    ghost var whole := WithSummaries(group, answers);
    for n := 0 to |group|
      invariant made == whole[..n] && Answered(group, n, answers)
    {
      assert whole[..n + 1] == whole[..n] + [whole[n]];
      if Askable(group[n]) {
        if Identity(group[n]) !in answers { return None; }
        made := made + [Included(group[n], answers[Identity(group[n])])];
      } else {
        made := made + [Included(group[n], BOUNDS_EXCEEDED)];
      }
    }
    assert whole[..|group|] == whole;
    return Some(made);
  }

  method SummarizeGroup(subject: string, group: seq<Input>, summarize: Summarizer) returns (out: Option<seq<Included>>)
    ensures out == IncludeGroup(subject, group, summarize)
  {
    var raw: seq<Input> := [];
    for n := 0 to |group|
      invariant raw == Filter(group[..n], Asked())
    {
      assert group[..n + 1][..n] == group[..n];
      if Askable(group[n]) { raw := raw + [group[n]]; }
    }
    assert group[..|group|] == group;
    FilterMembers(group, Asked());
    var answers: map<CandidateId, Summary> := map[];
    if raw != [] {
      var answer := summarize(subject, raw);
      if answer.None? { return None; }
      answers := answer.value;
    }
    out := AttachSummaries(group, answers);
    CoversTheAsked(group, raw, answers);
  }

  function GroupFor(queue: seq<Input>, subject: string, summarize: Summarizer): Option<seq<Included>> {
    IncludeGroup(subject, Filter(queue, HasKey(SubjectOf(), subject)), summarize)
  }

  lemma IncludeStep(queue: seq<Input>, subjects: seq<string>, n: nat, summarize: Summarizer)
    requires n < |subjects|
    ensures var before, group := IncludeAll(queue, subjects[..n], summarize), GroupFor(queue, subjects[n], summarize);
      IncludeAll(queue, subjects[..n + 1], summarize)
        == if before.Some? && group.Some? then Some(before.value + group.value) else None
  {
    assert subjects[..n + 1][..n] == subjects[..n];
  }

  method SummarizeSubjects(queue: seq<Input>, subjects: seq<string>, summarize: Summarizer)
    returns (out: Option<seq<Included>>)
    ensures out == IncludeAll(queue, subjects, summarize)
  {
    var groups := GroupBy(queue, SubjectOf());
    var made: seq<Included> := [];
    for n := 0 to |subjects|
      invariant IncludeAll(queue, subjects[..n], summarize) == Some(made)
    {
      IncludeStep(queue, subjects, n, summarize);
      var group: Option<seq<Included>> := Some([]);
      if subjects[n] in groups {
        group := SummarizeGroup(subjects[n], groups[subjects[n]], summarize);
      }
      if subjects[n] !in groups { EmptyGroup(subjects[n], summarize); }
      assert group == GroupFor(queue, subjects[n], summarize);
      if group.None? {
        PrefixAnswered(queue, subjects, n + 1, summarize);
        return None;
      }
      made := made + group.value;
    }
    assert subjects[..|subjects|] == subjects;
    return Some(made);
  }

  lemma EmptyGroup(subject: string, summarize: Summarizer)
    ensures IncludeGroup(subject, [], summarize) == Some([])
  {
    assert WithSummaries([], map[]) == [];
  }

  /** If all subjects are answered, so are the first n. */
  lemma {:induction false} PrefixAnswered(queue: seq<Input>, subjects: seq<string>, n: nat, summarize: Summarizer)
    requires n <= |subjects|
    ensures IncludeAll(queue, subjects, summarize).Some? ==> IncludeAll(queue, subjects[..n], summarize).Some?
  {
    if n == |subjects| {
      assert subjects[..n] == subjects;
    } else {
      var init := subjects[..|subjects| - 1];
      PrefixAnswered(queue, init, n, summarize);
      assert init[..n] == subjects[..n];
    }
  }

  // ------------------------------------------------------------ records and events

  function Renderable(): Included -> bool { (x: Included) => !BoundsInvalid(x.input) }

  /** The included items that reach the renderer and the ledger. */
  function Recordable(s: seq<Included>): seq<Included> { Filter(s, Renderable()) }

  /** The subject that owns a category; the two audiovisual ones share theirs. */
  function SubjectFor(c: R.Category): string {
    SUBJECTS[match c
             case AI => 0 case WorldNews => 1 case AudioEngineering => 2 case Audiovisual => 3 case AvCorporate => 3
             case Hardware => 4 case FantasyNovel => 5 case OurSetup => 6]
  }

  /** What `RenderRecord` demands of an item whose bounds are fine: the subject owns the
      category, event and version come together, and there is something to show. */
  predicate RecordOk(x: Included) {
    && x.input.subject == SubjectFor(x.input.category)
    && (x.input.eventId.Some? <==> x.input.eventVersion.Some?)
    && (x.input.eventId.Some? ==> x.input.eventId.value != "" && x.input.eventVersion.value > 0)
    && HasVisible(x.input.title) && HasVisible(x.summary.text)
    && (x.input.url.Some? ==> Clean(x.input.url.value))
  }

  const PAYLOAD_BYTE_LIMIT := 16_384
  const EVENT_IDENTITY_BYTES := 69  // "evv1:" and 64 hexadecimal digits
  const FRAME_BYTES := 71           // keys, quotes and braces of the five fields every payload has
  const EVENT_FRAME_BYTES := 47     // and of the three an event adds

  /** UTF-8 length of the canonical payload. */
  function PayloadBytes(i: Input): nat {
    FRAME_BYTES + (if i.eventId.None? || i.suppressed then TextBytes(i.candidate) else EVENT_IDENTITY_BYTES)
    + |CategoryText(i.category)| + |DecisionText(i.decision)| + TextBytes(i.title) + TextBytes(i.snippet)
    + (if i.eventId.None? then 0 else
         EVENT_FRAME_BYTES + TextBytes(i.subject) + TextBytes(i.eventId.value)
         + |Decimal(if i.eventVersion.Some? && i.eventVersion.value > 0 then i.eventVersion.value else 1)|)
  }

  /** What `ShadowEvent` and its payload demand of an item whose record was accepted. */
  predicate EventOk(i: Input) {
    && (i.eventId.None? ==> CleanId(i.candidate))
    && PayloadBytes(i) <= PAYLOAD_BYTE_LIMIT
  }

  function RecordAccepted(): Included -> bool { (x: Included) => RecordOk(x) }
  function EventAccepted(): Included -> bool { (x: Included) => EventOk(x.input) }

  predicate RecordsOk(s: seq<Included>) { Every(s, RecordAccepted()) }
  predicate EventsOk(s: seq<Included>) { Every(s, EventAccepted()) }

  function CategoryCount(s: seq<Included>, c: R.Category): nat {
    if s == [] then 0 else
      CategoryCount(s[..|s| - 1], c) + (if s[|s| - 1].input.category == c then 1 else 0)
  }

  function RecordOf(x: Included, ordinal: nat): R.Record {
    R.Record(x.input.candidate, x.input.category,
      if x.input.decision == Semantic.DistinctEvent then R.Decision.DistinctEvent else R.Decision.MaterialUpdate,
      Normalize(x.input.title), Normalize(x.summary.text), x.input.url, x.input.reasons, x.input.facts, ordinal,
      Some(x.input.subject), x.input.eventId, x.input.eventVersion)
  }

  /** Ordinals restart at 0 in each category. */
  function Records(s: seq<Included>): (r: seq<R.Record>)
    ensures |r| == |s|
  {
    if s == [] then [] else
      var init := s[..|s| - 1];
      Records(init) + [RecordOf(s[|s| - 1], CategoryCount(init, s[|s| - 1].input.category))]
  }

  /** The k-th record is the k-th item's own, numbered within its category. */
  lemma {:induction false} RecordAt(s: seq<Included>, k: nat)
    requires k < |s|
    ensures Records(s)[k] == RecordOf(s[k], CategoryCount(s[..k], s[k].input.category))
  {
    var init := s[..|s| - 1];
    if k < |init| {
      RecordAt(init, k);
      assert init[..k] == s[..k] && init[k] == s[k];
    }
  }

  lemma RecordsStep(s: seq<Included>, n: nat)
    requires n < |s|
    ensures RecordsOk(s[..n + 1]) <==> RecordsOk(s[..n]) && RecordOk(s[n])
    ensures !RecordOk(s[n]) ==> !RecordsOk(s)
    ensures Records(s[..n + 1]) == Records(s[..n]) + [RecordOf(s[n], CategoryCount(s[..n], s[n].input.category))]
  {
    EveryStep(s, n, RecordAccepted());
    assert s[..n + 1][..n] == s[..n];
  }

  lemma CountStep(s: seq<Included>, n: nat)
    requires n < |s|
    ensures forall c :: CategoryCount(s[..n + 1], c) == CategoryCount(s[..n], c) + (if s[n].input.category == c then 1 else 0)
  {
    assert s[..n + 1][..n] == s[..n];
  }

  /** The per-category counters after some items. */
  ghost predicate Counts(counter: map<R.Category, nat>, s: seq<Included>) {
    forall c :: (if c in counter then counter[c] else 0) == CategoryCount(s, c)
  }

  lemma CountOne(counter: map<R.Category, nat>, s: seq<Included>, n: nat)
    requires n < |s| && Counts(counter, s[..n])
    ensures var c := s[n].input.category; var ordinal := if c in counter then counter[c] else 0;
      ordinal == CategoryCount(s[..n], c) && Counts(counter[c := ordinal + 1], s[..n + 1])
  {
    CountStep(s, n);
  }

  method BuildRecords(s: seq<Included>) returns (records: Option<seq<R.Record>>)
    ensures records == if RecordsOk(s) then Some(Records(s)) else None
  {
    var made: seq<R.Record> := [];
    var counter: map<R.Category, nat> := map[];
    for n := 0 to |s|
      invariant RecordsOk(s[..n]) && made == Records(s[..n]) && Counts(counter, s[..n])
    {
      RecordsStep(s, n);
      CountOne(counter, s, n);
      if !RecordOk(s[n]) { return None; }
      var c := s[n].input.category;
      var ordinal := if c in counter then counter[c] else 0;
      made := made + [RecordOf(s[n], ordinal)];
      counter := counter[c := ordinal + 1];
    }
    assert s[..|s|] == s;
    return Some(made);
  }

  function DecisionText(d: Semantic): string {
    match d
    case DistinctEvent => "distinct_event" case MaterialUpdate => "material_update" case Rewrite => "rewrite"
    case BypassTerminal => "bypass_phase2_terminal" case PendingReview => "pending_review"
    case PendingModelError => "pending_model_error"
  }

  function CategoryText(c: R.Category): string {
    match c
    case AI => "ai" case WorldNews => "world" case AudioEngineering => "audio_engineering"
    case Hardware => "hardware" case FantasyNovel => "fantasy_novel" case Audiovisual => "audiovisual"
    case AvCorporate => "av_corporate" case OurSetup => "our_setup"
  }

  function EventMembers(i: Input): seq<string> {
    if i.eventId.None? then [] else
      [Member("event_id", Quoted(i.eventId.value)),
       Member("event_version", Decimal(if i.eventVersion.Some? && i.eventVersion.value > 0 then i.eventVersion.value else 1)),
       Member("subject_id", Quoted(i.subject))]
  }

  /** The members of the payload of an input under an identity, sorted by key. */
  function Members(i: Input, identity: CandidateId): seq<string> {
    [Member("candidate_id", Quoted(identity)), Member("category", Quoted(CategoryText(i.category))),
     Member("decision", Quoted(DecisionText(i.decision)))]
    + EventMembers(i) + [Member("summary", Quoted(i.snippet)), Member("title", Quoted(i.title))]
  }

  /** The canonical payload: the input alone, never the summariser's words. */
  function PayloadOf(i: Input): Payload { Object(Members(i, Identity(i))) }

  function EventOf(i: Input, at: Time): ShadowEvent {
    ShadowEvent(Identity(i), CategoryText(i.category), DecisionText(i.decision), PayloadOf(i), at)
  }

  function Events(s: seq<Included>, at: Time): seq<ShadowEvent> {
    seq(|s|, k requires 0 <= k < |s| => EventOf(s[k].input, at))
  }

  method BuildEvents(s: seq<Included>, at: Time) returns (ok: bool, events: seq<ShadowEvent>)
    ensures ok <==> EventsOk(Recordable(s))
    ensures ok ==> events == Events(Recordable(s), at)
  {
    events := [];
    for n := 0 to |s|
      invariant EventsOk(Recordable(s[..n]))
      invariant events == Events(Recordable(s[..n]), at)
    {
      EventsStep(s, n, at);
      if !BoundsInvalid(s[n].input) {
        if !EventOk(s[n].input) {
          BadEventStays(s, n);
          return false, events;
        }
        events := events + [EventOf(s[n].input, at)];
      }
    }
    assert s[..|s|] == s;
    ok := true;
  }

  lemma EventsStep(s: seq<Included>, n: nat, at: Time)
    requires n < |s|
    ensures var before, after := Recordable(s[..n]), Recordable(s[..n + 1]);
      if BoundsInvalid(s[n].input) then after == before
      else (EventsOk(after) <==> EventsOk(before) && EventOk(s[n].input)) && Events(after, at) == Events(before, at) + [EventOf(s[n].input, at)]
  {
    assert s[..n + 1][..n] == s[..n];
    var before, after := Recordable(s[..n]), Recordable(s[..n + 1]);
    if !BoundsInvalid(s[n].input) {
      assert after == before + [s[n]] && after[..|before|] == before;
    }
  }

  lemma BadEventStays(s: seq<Included>, n: nat)
    requires n < |s| && !BoundsInvalid(s[n].input) && !EventOk(s[n].input)
    ensures !EventsOk(Recordable(s))
  {
    FilterMembers(s, Renderable());
    EveryMember(Recordable(s), EventAccepted());
    assert s[n] in Recordable(s);
  }

  // ------------------------------------------------------------ rendering per subject

  /** One renderer call: the subject, its records, and the chunks with the split behind them. */
  datatype Page = Page(subject: string, records: seq<R.Record>, chunks: seq<string>, blocks: seq<seq<R.Record>>)

  function RecordSubject(): R.Record -> string { (r: R.Record) => if r.subject.Some? then r.subject.value else "" }

  function AllChunks(pages: seq<Page>): seq<string> {
    if pages == [] then [] else AllChunks(pages[..|pages| - 1]) + pages[|pages| - 1].chunks
  }

  predicate Mine(records: seq<R.Record>, subject: string) {
    forall k :: 0 <= k < |records| ==> records[k].subject == Some(subject)
  }

  ghost predicate Fits(records: seq<R.Record>, date: string, subject: string) {
    EachFitsAlone(R.Fitting(Heading(date, Some(subject))), Sort(records, R.ByKey()))
  }

  ghost predicate SubjectFits(records: seq<R.Record>, date: string, subject: string) {
    var group := Filter(records, HasKey(RecordSubject(), subject));
    group != [] ==> Fits(group, date, subject)
  }

  ghost predicate AllFit(records: seq<R.Record>, date: string, subjects: seq<string>) {
    forall subject :: subject in subjects ==> SubjectFits(records, date, subject)
  }

  lemma AllFitAppend(records: seq<R.Record>, date: string, subjects: seq<string>, n: nat)
    requires n < |subjects| && AllFit(records, date, subjects[..n]) && SubjectFits(records, date, subjects[n])
    ensures AllFit(records, date, subjects[..n + 1])
  {
    assert subjects[..n + 1] == subjects[..n] + [subjects[n]];
  }

  /** One page per subject that has records, in subject order, each holding exactly that
      subject's records and rendered as the renderer promises. */
  ghost predicate PagesOf(records: seq<R.Record>, date: string, subjects: seq<string>, pages: seq<Page>)
    decreases |subjects|
  {
    if subjects == [] then pages == [] else
      var init, subject := subjects[..|subjects| - 1], subjects[|subjects| - 1];
      var group := Filter(records, HasKey(RecordSubject(), subject));
      if group == [] then PagesOf(records, date, init, pages)
      else
        && pages != []
        && PagesOf(records, date, init, pages[..|pages| - 1])
        && (var page := pages[|pages| - 1];
            page.subject == subject && page.records == group && Mine(group, subject)
            && RenderedAs(Heading(date, Some(subject)), group, page.chunks, page.blocks))
  }

  lemma PagesAppend(records: seq<R.Record>, date: string, subjects: seq<string>, n: nat, pages: seq<Page>, page: Page)
    requires n < |subjects| && PagesOf(records, date, subjects[..n], pages)
    requires page.records == Filter(records, HasKey(RecordSubject(), subjects[n])) != []
    requires page.subject == subjects[n] && Mine(page.records, page.subject)
    requires RenderedAs(Heading(date, Some(page.subject)), page.records, page.chunks, page.blocks)
    ensures PagesOf(records, date, subjects[..n + 1], pages + [page])
    ensures AllChunks(pages + [page]) == AllChunks(pages) + page.chunks
  {
    assert subjects[..n + 1][..n] == subjects[..n];
    assert (pages + [page])[..|pages|] == pages;
  }

  function NotSame(): (R.Record, R.Record) -> bool { (a, b) => !SameEvent(a, b) }

  lemma GroupIsClean(records: seq<R.Record>, subject: string)
    requires forall k :: 0 <= k < |records| ==> records[k].subject.Some?
    requires NoDuplicates(records)
    ensures var g := Filter(records, HasKey(RecordSubject(), subject)); NoDuplicates(g) && Mine(g, subject)
  {
    var g := Filter(records, HasKey(RecordSubject(), subject));
    FilterAscends(records, HasKey(RecordSubject(), subject), NotSame());
    FilterMembers(records, HasKey(RecordSubject(), subject));
    forall i, j | 0 <= i < j < |g| ensures !SameEvent(g[i], g[j]) { assert NotSame()(g[i], g[j]); }
    forall k | 0 <= k < |g| ensures g[k].subject == Some(subject) { assert g[k] in g; }
  }

  method RenderSubject(group: seq<R.Record>, date: string, subject: string)
    returns (ok: bool, chunks: seq<string>, ghost page: Page)
    requires group != [] && NoDuplicates(group) && Mine(group, subject) && SubjectLabel(subject).Some?
    ensures ok <==> Fits(group, date, subject)
    ensures ok ==> page.subject == subject && page.records == group && page.chunks == chunks
    ensures ok ==> RenderedAs(Heading(date, Some(subject)), page.records, page.chunks, page.blocks)
  {
    var out, blocks := RenderBriefing(group, date, Some(subject));
    if out.Result? {
      ok, chunks, page := true, out.chunks, Page(subject, group, out.chunks, blocks);
    } else {
      ok, chunks, page := false, [], Page(subject, group, [], blocks);
    }
  }

  method RenderSubjects(records: seq<R.Record>, date: string, subjects: seq<string>)
    returns (ok: bool, chunks: seq<string>, ghost pages: seq<Page>)
    requires forall k :: 0 <= k < |records| ==> records[k].subject.Some?
    requires NoDuplicates(records)
    requires forall n :: 0 <= n < |subjects| ==> SubjectLabel(subjects[n]).Some?
    ensures ok <==> AllFit(records, date, subjects)
    ensures ok ==> PagesOf(records, date, subjects, pages) && chunks == AllChunks(pages)
  {
    var groups := GroupBy(records, RecordSubject());
    chunks, pages := [], [];
    for n := 0 to |subjects|
      invariant AllFit(records, date, subjects[..n])
      invariant PagesOf(records, date, subjects[..n], pages) && chunks == AllChunks(pages)
    {
      var subject := subjects[n];
      assert subjects[..n + 1][..n] == subjects[..n];
      if subject in groups {
        GroupIsClean(records, subject);
        var fine, own, page := RenderSubject(groups[subject], date, subject);
        if !fine {
          assert !SubjectFits(records, date, subjects[n]);
          return false, chunks, pages;
        }
        PagesAppend(records, date, subjects, n, pages, page);
        pages := pages + [page];
        chunks := chunks + own;
      }
      AllFitAppend(records, date, subjects, n);
    }
    assert subjects[..|subjects|] == subjects;
    ok := true;
  }

  // ------------------------------------------------------------ the run

  datatype Call = Call(run: RunId, inputs: seq<Input>, today: int, asOf: Moment, last: Option<Moment>, date: string)

  /** Where the ledger raises or the process dies, and whether the failure note gets through.
      `lost` is a completion that commits but never reports back. */
  datatype Faults = Faults(begin: bool, seen: bool, complete: bool, lost: bool, note: bool)

  datatype Report = Report(lower: Moment, upper: Moment, included: seq<Included>, excluded: seq<Excluded>, chunks: seq<string>, partial: bool)

  datatype Outcome = Returned(report: Report) | Raised(code: string) | Rejected

  const LEDGER_FAILURE := "LEDGER_FAILURE"
  const PROGRAMMER := "PROGRAMMER_EXCEPTION"
  const OVERFLOW := "RENDERER_OVERFLOW"

  /** Whole seconds, the precision of every timestamp the ledger receives. */
  function Seconds(t: Moment): Time { t / SECOND }

  ghost predicate ValidSubjects(queue: seq<Input>) {
    forall k :: 0 <= k < |queue| ==> queue[k].subject in SUBJECTS
  }

  /** Up to the summaries: the included items, or None when something on the way raises. */
  ghost function Prepared(seen: map<CandidateId, SeenRow>, lower: Moment, upper: Moment, call: Call, summarize: Summarizer, f: Faults): Option<seq<Included>> {
    var queue := Queue(seen, lower, upper, call.inputs);
    if && IdentitiesOk(call.inputs) && DistinctKeys(call.inputs, IdentityOf())
       && !f.seen
       && (forall k :: 0 <= k < |call.inputs| ==> !Contradicts(seen, call.inputs[k]))
       && ValidSubjects(queue)
    then IncludeAll(queue, SUBJECTS, summarize)
    else None
  }

  /** The records are sound and fit their chunks, and the ledger takes the events. */
  ghost predicate Storable(kept: seq<Included>, date: string, f: Faults) {
    RecordsOk(kept) && AllFit(Records(kept), date, SUBJECTS) && EventsOk(kept) && !f.complete
  }

  /** Everything after `begin_run` that must hold for the completion to be committed. */
  ghost predicate Commits(seen: map<CandidateId, SeenRow>, lower: Moment, upper: Moment, call: Call, summarize: Summarizer, f: Faults) {
    var included := Prepared(seen, lower, upper, call, summarize, f);
    included.Some? && Storable(Recordable(included.value), call.date, f)
  }

  /** And for a report to come back. */
  ghost predicate Proceeds(seen: map<CandidateId, SeenRow>, lower: Moment, upper: Moment, call: Call, summarize: Summarizer, f: Faults) {
    Commits(seen, lower, upper, call, summarize, f) && !f.lost
  }

  ghost function PrepareCode(call: Call, f: Faults): string {
    if IdentitiesOk(call.inputs) && DistinctKeys(call.inputs, IdentityOf()) && f.seen then LEDGER_FAILURE else PROGRAMMER
  }

  ghost function StoreCode(kept: seq<Included>, date: string, f: Faults): string {
    if !RecordsOk(kept) then PROGRAMMER
    else if !AllFit(Records(kept), date, SUBJECTS) then OVERFLOW
    else if !EventsOk(kept) || f.complete then LEDGER_FAILURE
    else PROGRAMMER
  }

  /** The failure noted when a begun run raises: the first thing that goes wrong decides.  A
      completion that commits and never answers counts as a programmer's error. */
  ghost function RunCode(seen: map<CandidateId, SeenRow>, lower: Moment, upper: Moment, call: Call, summarize: Summarizer, f: Faults): string {
    var included := Prepared(seen, lower, upper, call, summarize, f);
    if included.None? then PrepareCode(call, f) else StoreCode(Recordable(included.value), call.date, f)
  }

  /** What a report says, given what had been seen when the run began. */
  ghost predicate Reports(seen: map<CandidateId, SeenRow>, lower: Moment, upper: Moment, call: Call, summarize: Summarizer, report: Report, pages: seq<Page>) {
    var queue := Queue(seen, lower, upper, call.inputs);
    && report.lower == lower && report.upper == upper
    && DistinctKeys(call.inputs, IdentityOf())
    && ValidSubjects(queue)
    && IncludeAll(queue, SUBJECTS, summarize) == Some(report.included)
    && report.excluded == ExcludedOf(seen, lower, upper, call.inputs)
    && RecordsOk(Recordable(report.included))
    && PagesOf(Records(Recordable(report.included)), call.date, SUBJECTS, pages)
    && report.chunks == AllChunks(pages)
    && (report.partial <==> exists k :: 0 <= k < |report.included| && report.included[k].summary.fallback)
  }

  lemma QueueFacts(seen: map<CandidateId, SeenRow>, lower: Moment, upper: Moment, inputs: seq<Input>)
    ensures multiset(Queue(seen, lower, upper, inputs)) == multiset(Filter(inputs, Wanted(seen, lower, upper)))
    ensures multiset(Queue(seen, lower, upper, inputs)) <= multiset(inputs)
    ensures forall i :: i in Queue(seen, lower, upper, inputs) ==> i in inputs && WhyNot(seen, lower, upper, i).None?
  {
    var wanted := Filter(inputs, Wanted(seen, lower, upper));
    ArrivalIsPreorder();
    SortFacts(wanted, Arrival());
    FilterMembers(inputs, Wanted(seen, lower, upper));
    forall x: Input ensures multiset(wanted)[x] <= multiset(inputs)[x] {
      FilterCount(inputs, Wanted(seen, lower, upper), x);
    }
    forall i | i in Queue(seen, lower, upper, inputs) ensures i in inputs && WhyNot(seen, lower, upper, i).None? {
      assert i in multiset(Queue(seen, lower, upper, inputs));
    }
  }

  lemma SubjectsAreDistinct()
    ensures forall i, j :: 0 <= i < j < |SUBJECTS| ==> SUBJECTS[i] != SUBJECTS[j]
    ensures forall n :: 0 <= n < |SUBJECTS| ==> SubjectLabel(SUBJECTS[n]).Some?
  {
  }

  /** Grouping by subject loses nothing: the included inputs are the queue, rearranged. */
  lemma IncludedIsQueue(queue: seq<Input>, summarize: Summarizer)
    requires ValidSubjects(queue) && IncludeAll(queue, SUBJECTS, summarize).Some?
    ensures multiset(Inputs(IncludeAll(queue, SUBJECTS, summarize).value)) == multiset(queue)
  {
    IncludedAreTheGroups(queue, SUBJECTS, summarize);
    forall x | x in queue ensures SubjectOf()(x) in SUBJECTS {
      var k :| 0 <= k < |queue| && queue[k] == x;
    }
    SubjectsAreDistinct();
    GroupedIsPermutation(queue, SubjectOf(), SUBJECTS);
  }

  ghost predicate DistinctIncluded(s: seq<Included>) {
    forall i, j :: 0 <= i < j < |s| ==> Identity(s[i].input) != Identity(s[j].input)
  }

  function OtherIdentity(): (Included, Included) -> bool { (a: Included, b: Included) => Identity(a.input) != Identity(b.input) }

  lemma RecordableAreDistinct(s: seq<Included>)
    requires DistinctKeys(Inputs(s), IdentityOf())
    ensures DistinctIncluded(Recordable(s))
  {
    var r := Recordable(s);
    forall i, j | 0 <= i < j < |s| ensures OtherIdentity()(s[i], s[j]) {
      assert IdentityOf()(Inputs(s)[i]) != IdentityOf()(Inputs(s)[j]);
    }
    FilterAscends(s, Renderable(), OtherIdentity());
    forall i, j | 0 <= i < j < |r| ensures Identity(r[i].input) != Identity(r[j].input) {
      assert OtherIdentity()(r[i], r[j]);
    }
  }

  lemma {:induction false} RecordsAreClean(s: seq<Included>)
    requires DistinctIncluded(s)
    requires forall k :: 0 <= k < |s| ==> !s[k].input.suppressed
    ensures NoDuplicates(Records(s))
    ensures forall k :: 0 <= k < |s| ==> Records(s)[k].subject.Some?
  {
    forall k | 0 <= k < |s| ensures Records(s)[k].subject.Some? { RecordAt(s, k); }
    forall i, j | 0 <= i < j < |s| ensures !SameEvent(Records(s)[i], Records(s)[j]) {
      RecordAt(s, i);
      RecordAt(s, j);
    }
  }

  /** Included items carry distinct identities, all wanted. */
  lemma IncludedAreDistinct(seen: map<CandidateId, SeenRow>, lower: Moment, upper: Moment, inputs: seq<Input>, included: seq<Included>)
    requires DistinctKeys(inputs, IdentityOf())
    requires multiset(Inputs(included)) == multiset(Queue(seen, lower, upper, inputs))
    ensures DistinctIncluded(Recordable(included))
    ensures forall k :: 0 <= k < |included| ==> WhyNot(seen, lower, upper, included[k].input).None?
    ensures forall x :: x in Recordable(included) ==> x in included && !BoundsInvalid(x.input)
  {
    QueueFacts(seen, lower, upper, inputs);
    DistinctKeysSurvive(inputs, Inputs(included), IdentityOf());
    RecordableAreDistinct(included);
    FilterMembers(included, Renderable());
    forall k | 0 <= k < |included| ensures WhyNot(seen, lower, upper, included[k].input).None? {
      assert Inputs(included)[k] in multiset(Inputs(included));
    }
  }

  /** The collecting loop after n inputs. */
  ghost predicate Collected(inputs: seq<Input>, n: nat, ids: seq<CandidateId>, known: set<CandidateId>)
    requires n <= |inputs|
  {
    && |ids| == n && (forall k :: 0 <= k < n ==> ids[k] == Identity(inputs[k]))
    && (forall c :: c in known <==> c in ids)
    && IdentitiesOk(inputs[..n]) && DistinctKeys(inputs[..n], IdentityOf())
  }

  lemma CollectOne(inputs: seq<Input>, n: nat, ids: seq<CandidateId>, known: set<CandidateId>)
    requires n < |inputs| && Collected(inputs, n, ids, known)
    requires IdentityOk(inputs[n]) && Identity(inputs[n]) !in known
    ensures Collected(inputs, n + 1, ids + [Identity(inputs[n])], known + {Identity(inputs[n])})
  {
    EveryStep(inputs, n, IdentityAccepted());
    forall k | 0 <= k < n ensures IdentityOf()(inputs[k]) != IdentityOf()(inputs[n]) { assert ids[k] in ids; }
    forall i, j | 0 <= i < j < n ensures IdentityOf()(inputs[i]) != IdentityOf()(inputs[j]) {
      assert inputs[..n][i] == inputs[i] && inputs[..n][j] == inputs[j];
    }
  }

  lemma IdentityClash(inputs: seq<Input>, n: nat, ids: seq<CandidateId>, known: set<CandidateId>)
    requires n < |inputs| && Collected(inputs, n, ids, known) && Identity(inputs[n]) in known
    ensures !DistinctKeys(inputs, IdentityOf())
  {
    var k :| 0 <= k < n && ids[k] == Identity(inputs[n]);
    assert IdentityOf()(inputs[k]) == IdentityOf()(inputs[n]);
  }

  method CollectIdentities(inputs: seq<Input>) returns (ids: Option<seq<CandidateId>>)
    ensures ids.Some? <==> IdentitiesOk(inputs) && DistinctKeys(inputs, IdentityOf())
    ensures ids.Some? ==> |ids.value| == |inputs| && forall k :: 0 <= k < |inputs| ==> ids.value[k] == Identity(inputs[k])
  {
    var made: seq<CandidateId> := [];
    var known: set<CandidateId> := {};
    for n := 0 to |inputs|
      invariant Collected(inputs, n, made, known)
    {
      var id := Identity(inputs[n]);
      if !IdentityOk(inputs[n]) {
        EveryStep(inputs, n, IdentityAccepted());
        return None;
      }
      if id in known {
        IdentityClash(inputs, n, made, known);
        return None;
      }
      CollectOne(inputs, n, made, known);
      known := known + {id};
      made := made + [id];
    }
    assert inputs[..|inputs|] == inputs;
    return Some(made);
  }

  method ReadSeen(db: LedgerDb, inputs: seq<Input>) returns (ok: bool, seenIds: seq<CandidateId>)
    ensures ok <==> IdentitiesOk(inputs) && DistinctKeys(inputs, IdentityOf())
    ensures ok ==> forall k :: 0 <= k < |inputs| ==> (Identity(inputs[k]) in seenIds <==> Identity(inputs[k]) in db.seen)
  {
    var collected := CollectIdentities(inputs);
    if collected.None? { return false, []; }
    var ids := collected.value;
    forall i, j | 0 <= i < j < |ids| ensures ids[i] != ids[j] {
      assert IdentityOf()(inputs[i]) != IdentityOf()(inputs[j]);
    }
    var found := db.SeenCandidateIds(ids);
    ghost var l := db.Model();
    FilterMembers(ids, c => c in l.seen);
    forall k | 0 <= k < |inputs| ensures Identity(inputs[k]) in found.value <==> Identity(inputs[k]) in db.seen {
      assert ids[k] in ids;
    }
    return true, found.value;
  }

  method CheckSubjects(queue: seq<Input>) returns (ok: bool)
    ensures ok <==> ValidSubjects(queue)
  {
    for n := 0 to |queue|
      invariant forall k :: 0 <= k < n ==> queue[k].subject in SUBJECTS
    {
      if queue[n].subject !in SUBJECTS { return false; }
    }
    return true;
  }

  method AnyFallback(s: seq<Included>) returns (any: bool)
    ensures any <==> exists k :: 0 <= k < |s| && s[k].summary.fallback
  {
    for n := 0 to |s|
      invariant forall k :: 0 <= k < n ==> !s[k].summary.fallback
    {
      if s[n].summary.fallback { return true; }
    }
    return false;
  }

  lemma EventsAreDistinct(s: seq<Included>, at: Time)
    requires DistinctIncluded(s)
    ensures DistinctCandidates(Events(s, at))
  {
  }

  /** Render the recordable items subject by subject. */
  method RenderIncluded(included: seq<Included>, date: string) returns (sound: bool, ok: bool, chunks: seq<string>, ghost pages: seq<Page>)
    requires DistinctIncluded(Recordable(included))
    requires forall x :: x in Recordable(included) ==> !x.input.suppressed
    ensures sound <==> RecordsOk(Recordable(included))
    ensures ok <==> sound && AllFit(Records(Recordable(included)), date, SUBJECTS)
    ensures ok ==> PagesOf(Records(Recordable(included)), date, SUBJECTS, pages) && chunks == AllChunks(pages)
  {
    var kept: seq<Included> := [];
    for n := 0 to |included|
      invariant kept == Recordable(included[..n])
    {
      assert included[..n + 1][..n] == included[..n];
      if !BoundsInvalid(included[n].input) { kept := kept + [included[n]]; }
    }
    assert included[..|included|] == included;
    var records := BuildRecords(kept);
    if records.None? { return false, false, [], []; }
    sound := true;
    RecordsAreClean(kept);
    SubjectsAreDistinct();
    ok, chunks, pages := RenderSubjects(records.value, date, SUBJECTS);
  }

  /** Identities, the seen lookup, classification, order and summaries. */
  method Prepare(db: LedgerDb, call: Call, lower: Moment, upper: Moment, summarize: Summarizer, f: Faults)
    returns (included: Option<seq<Included>>, excluded: seq<Excluded>, code: string)
    ensures included == Prepared(db.seen, lower, upper, call, summarize, f)
    ensures included.Some? ==> excluded == ExcludedOf(db.seen, lower, upper, call.inputs)
    ensures included.None? ==> code == PrepareCode(call, f)
  {
    excluded, code := [], PROGRAMMER;
    var distinct, seenIds := ReadSeen(db, call.inputs);
    if !distinct { return None, excluded, code; }
    if f.seen { return None, excluded, LEDGER_FAILURE; }
    var sane, eligible, out := Classify(seenIds, db.seen, lower, upper, call.inputs);
    if !sane { return None, excluded, code; }
    excluded := out;
    var queue := Sort(eligible, Arrival());
    assert queue == Queue(db.seen, lower, upper, call.inputs);
    var valid := CheckSubjects(queue);
    if !valid { return None, excluded, code; }
    included := SummarizeSubjects(queue, SUBJECTS, summarize);
  }

  lemma PreparedFacts(seen: map<CandidateId, SeenRow>, lower: Moment, upper: Moment, call: Call, summarize: Summarizer, f: Faults)
    requires Prepared(seen, lower, upper, call, summarize, f).Some?
    ensures var included := Prepared(seen, lower, upper, call, summarize, f).value;
      && IncludeAll(Queue(seen, lower, upper, call.inputs), SUBJECTS, summarize) == Some(included)
      && DistinctKeys(call.inputs, IdentityOf()) && ValidSubjects(Queue(seen, lower, upper, call.inputs))
      && DistinctIncluded(Recordable(included))
      && forall x :: x in Recordable(included) ==> !x.input.suppressed
  {
    var included := Prepared(seen, lower, upper, call, summarize, f).value;
    IncludedIsQueue(Queue(seen, lower, upper, call.inputs), summarize);
    IncludedAreDistinct(seen, lower, upper, call.inputs, included);
    RecordableAreEligible(seen, lower, upper, included);
  }

  lemma RecordableAreEligible(seen: map<CandidateId, SeenRow>, lower: Moment, upper: Moment, included: seq<Included>)
    requires forall k :: 0 <= k < |included| ==> WhyNot(seen, lower, upper, included[k].input).None?
    ensures forall x :: x in Recordable(included) ==> !x.input.suppressed
  {
    FilterMembers(included, Renderable());
    forall x | x in Recordable(included) ensures !x.input.suppressed {
      var k :| 0 <= k < |included| && included[k] == x;
      assert WhyNot(seen, lower, upper, included[k].input).None?;
    }
  }

  /** Render, build the events and complete. */
  method RenderAndStore(db: LedgerDb, call: Call, included: seq<Included>, f: Faults)
    returns (committed: bool, chunks: seq<string>, code: string, ghost pages: seq<Page>)
    requires call.run in db.runs && db.runs[call.run].status == Running
    requires DistinctIncluded(Recordable(included)) && forall x :: x in Recordable(included) ==> !x.input.suppressed
    modifies db
    ensures committed == Storable(Recordable(included), call.date, f)
    ensures committed ==> PagesOf(Records(Recordable(included)), call.date, SUBJECTS, pages) && chunks == AllChunks(pages)
    ensures code == StoreCode(Recordable(included), call.date, f)
    ensures db.Model() == if committed
      then CompleteStep(old(db.Model()), call.run, Seconds(call.asOf), Events(Recordable(included), Seconds(call.asOf))).0
      else old(db.Model())
  {
    committed, chunks, code, pages := false, [], PROGRAMMER, [];
    var sound, fits, drawn, book := RenderIncluded(included, call.date);
    if !sound { return; }
    if !fits { code := OVERFLOW; return; }
    var storable, events := BuildEvents(included, Seconds(call.asOf));
    if !storable || f.complete { code := LEDGER_FAILURE; return; }
    EventsAreDistinct(Recordable(included), Seconds(call.asOf));
    var reply := db.CompleteRun(call.run, Seconds(call.asOf), events);
    assert reply.Partition?;
    committed, chunks, pages := true, drawn, book;
  }

  method RunAfterBegin(db: LedgerDb, call: Call, lower: Moment, upper: Moment, summarize: Summarizer, f: Faults)
    returns (ok: bool, report: Report, code: string, ghost committed: bool, ghost pages: seq<Page>)
    requires call.run in db.runs && db.runs[call.run].status == Running
    modifies db
    ensures ok == Proceeds(old(db.seen), lower, upper, call, summarize, f)
    ensures ok ==> Reports(old(db.seen), lower, upper, call, summarize, report, pages)
    ensures committed == Commits(old(db.seen), lower, upper, call, summarize, f)
    ensures committed ==> Prepared(old(db.seen), lower, upper, call, summarize, f) == Some(report.included)
    ensures committed ==> db.Model() == CompleteStep(old(db.Model()), call.run, Seconds(call.asOf), Events(Recordable(report.included), Seconds(call.asOf))).0
    ensures !committed ==> db.Model() == old(db.Model())
    ensures !ok ==> code == RunCode(old(db.seen), lower, upper, call, summarize, f)
  {
    ok, report, committed, pages := false, Report(lower, upper, [], [], [], false), false, [];
    var included, excluded, early := Prepare(db, call, lower, upper, summarize, f);
    if included.None? { code := early; return; }
    PreparedFacts(db.seen, lower, upper, call, summarize, f);
    var stored, chunks, late, drawn := RenderAndStore(db, call, included.value, f);
    code, pages, committed := late, drawn, stored;
    if !stored { return; }
    var partial := AnyFallback(included.value);
    report := Report(lower, upper, included.value, excluded, chunks, partial);
    ok := !f.lost;
  }

  function BeginOp(call: Call, lower: Moment, upper: Moment): Op {
    Op.BeginRun(call.run, Seconds(lower), Seconds(upper), Seconds(call.asOf))
  }

  function CompletionOf(call: Call, included: seq<Included>): Op {
    Op.CompleteRun(call.run, Seconds(call.asOf), Events(Recordable(included), Seconds(call.asOf)))
  }

  function CompleteOp(call: Call, report: Report): Op { CompletionOf(call, report.included) }

  /** Exactly when a run returns a report. */
  ghost predicate CanReturn(l: Ledger, call: Call, w: Bounds, summarize: Summarizer, f: Faults) {
    && w.Bounds?
    && !f.begin
    && Step(l, BeginOp(call, w.lower, w.upper)).1 == Begun
    && Proceeds(l.seen, w.lower, w.upper, call, summarize, f)
  }

  /** The steps a raised run took before its failure note: the begin unless that failed outright,
      and the completion when everything but its answer came through. */
  ghost function Started(l: Ledger, call: Call, w: Bounds, summarize: Summarizer, f: Faults): seq<Op>
    requires w.Bounds?
  {
    var begin := BeginOp(call, w.lower, w.upper);
    if f.begin then []
    else if Step(l, begin).1 != Begun then [begin]
    else [begin] + Finished(l.seen, call, w, summarize, f)
  }

  ghost function Finished(seen: map<CandidateId, SeenRow>, call: Call, w: Bounds, summarize: Summarizer, f: Faults): seq<Op>
    requires w.Bounds?
  {
    if Commits(seen, w.lower, w.upper, call, summarize, f)
    then [CompletionOf(call, Prepared(seen, w.lower, w.upper, call, summarize, f).value)]
    else []
  }

  ghost function RaisedWith(l: Ledger, call: Call, w: Bounds, summarize: Summarizer, f: Faults): string
    requires w.Bounds?
  {
    if f.begin || Step(l, BeginOp(call, w.lower, w.upper)).1 != Begun then LEDGER_FAILURE
    else RunCode(l.seen, w.lower, w.upper, call, summarize, f)
  }

  /** A raised run: its code, its steps, and one failure note under that code unless the ledger
      would not take it. */
  ghost predicate RaisedAs(l: Ledger, call: Call, w: Bounds, summarize: Summarizer, f: Faults, code: string, ops: seq<Op>)
    requires w.Bounds?
  {
    && code == RaisedWith(l, call, w, summarize, f)
    && ops == Started(l, call, w, summarize, f) + (if f.note then [Op.FailRun(call.run, Seconds(call.asOf), code)] else [])
  }

  lemma {:induction false} AtPrefix(l: Ledger, a: seq<Op>, b: seq<Op>, i: nat)
    requires i <= |a|
    ensures At(l, a + b, i) == At(l, a, i)
  {
    if i > 0 {
      AtPrefix(l, a, b, i - 1);
    }
  }

  lemma AtAppend(l: Ledger, ops: seq<Op>, op: Op)
    ensures At(l, ops + [op], |ops| + 1) == Step(At(l, ops, |ops|), op).0
  {
    AtPrefix(l, ops, [op], |ops|);
  }

  /** `_safe_fail_run`: best effort, never raises. */
  method SafeFailRun(db: LedgerDb, call: Call, code: string, note: bool, ghost l: Ledger, ghost ops: seq<Op>)
    returns (ghost all: seq<Op>)
    requires db.Model() == At(l, ops, |ops|)
    modifies db
    ensures all == ops + (if note then [Op.FailRun(call.run, Seconds(call.asOf), code)] else [])
    ensures db.Model() == At(l, all, |all|)
  {
    all := ops;
    if note {
      var _ := db.FailRun(call.run, Seconds(call.asOf), code);
      AtAppend(l, ops, Op.FailRun(call.run, Seconds(call.asOf), code));
      all := ops + [Op.FailRun(call.run, Seconds(call.asOf), code)];
    } else {
      assert ops + [] == ops;
    }
  }

  method TryBegin(db: LedgerDb, call: Call, w: Bounds, f: Faults) returns (begun: bool, ghost ops: seq<Op>)
    requires w.Bounds?
    modifies db
    ensures begun == (!f.begin && Step(old(db.Model()), BeginOp(call, w.lower, w.upper)).1 == Begun)
    ensures ops == if f.begin then [] else [BeginOp(call, w.lower, w.upper)]
    ensures db.Model() == At(old(db.Model()), ops, |ops|)
    ensures db.seen == old(db.seen)
    ensures begun ==> call.run in db.runs && db.runs[call.run].status == Running
  {
    if f.begin { return false, []; }
    ghost var l := db.Model();
    var reply := db.BeginRun(call.run, Seconds(w.lower), Seconds(w.upper), Seconds(call.asOf));
    OneOp(l, BeginOp(call, w.lower, w.upper));
    return reply == Begun, [BeginOp(call, w.lower, w.upper)];
  }

  /** Begin and everything after it, under the boundary that notes failures. */
  method BeginAndRun(db: LedgerDb, call: Call, w: Bounds, summarize: Summarizer, f: Faults)
    returns (res: Outcome, ghost ops: seq<Op>, ghost pages: seq<Page>)
    requires w.Bounds?
    modifies db
    ensures db.Model() == At(old(db.Model()), ops, |ops|)
    ensures res.Returned? == CanReturn(old(db.Model()), call, w, summarize, f)
    ensures res.Returned? ==> Reports(old(db.seen), w.lower, w.upper, call, summarize, res.report, pages)
    ensures res.Returned? ==> ops == [BeginOp(call, w.lower, w.upper), CompleteOp(call, res.report)]
    ensures !res.Returned? ==> res.Raised? && RaisedAs(old(db.Model()), call, w, summarize, f, res.code, ops)
  {
    ops, pages := [], [];
    ghost var l := db.Model();
    var begun;
    begun, ops := TryBegin(db, call, w, f);
    if !begun {
      ops := SafeFailRun(db, call, LEDGER_FAILURE, f.note, l, ops);
      return Raised(LEDGER_FAILURE), ops, pages;
    }
    res, ops, pages := RunBegun(db, call, w, summarize, f, l, ops);
  }

  lemma OneOp(l: Ledger, op: Op)
    ensures At(l, [op], 1) == Step(l, op).0
  {
    assert At(l, [op], 0) == l;
  }

  /** The run proper, its ledger operations continued from the begin. */
  method RunBegun(db: LedgerDb, call: Call, w: Bounds, summarize: Summarizer, f: Faults, ghost l: Ledger, ghost begun: seq<Op>)
    returns (res: Outcome, ghost ops: seq<Op>, ghost pages: seq<Page>)
    requires w.Bounds? && |begun| == 1 && begun[0].BeginRun? && db.Model() == At(l, begun, |begun|)
    requires call.run in db.runs && db.runs[call.run].status == Running
    modifies db
    ensures db.Model() == At(l, ops, |ops|)
    ensures res.Returned? == Proceeds(old(db.seen), w.lower, w.upper, call, summarize, f)
    ensures res.Returned? ==> Reports(old(db.seen), w.lower, w.upper, call, summarize, res.report, pages)
    ensures res.Returned? ==> ops == begun + [CompleteOp(call, res.report)]
    ensures !res.Returned? ==> res.Raised? && res.code == RunCode(old(db.seen), w.lower, w.upper, call, summarize, f)
    ensures !res.Returned? ==>
      ops == begun + Finished(old(db.seen), call, w, summarize, f) + (if f.note then [Op.FailRun(call.run, Seconds(call.asOf), res.code)] else [])
  {
    ops := begun;
    var ok, report, code, committed, drawn := RunAfterBegin(db, call, w.lower, w.upper, summarize, f);
    pages := drawn;
    if committed {
      AtAppend(l, ops, CompleteOp(call, report));
      ops := ops + [CompleteOp(call, report)];
    }
    if ok { return Returned(report), ops, pages; }
    ops := SafeFailRun(db, call, code, f.note, l, ops);
    return Raised(code), ops, pages;
  }

  method ExecuteBriefingRun(db: LedgerDb, call: Call, at8: Mornings, summarize: Summarizer, f: Faults)
    returns (res: Outcome, ghost ops: seq<Op>, ghost pages: seq<Page>)
    modifies db
    ensures db.Model() == At(old(db.Model()), ops, |ops|)
    ensures res.Returned? == CanReturn(old(db.Model()), call, ComputeWindow(at8, call.today, call.asOf, call.last), summarize, f)
    ensures res.Returned? ==>
      var w := ComputeWindow(at8, call.today, call.asOf, call.last);
      Reports(old(db.seen), w.lower, w.upper, call, summarize, res.report, pages)
    ensures res.Returned? ==> ops == [BeginOp(call, res.report.lower, res.report.upper), CompleteOp(call, res.report)]
    ensures res.Rejected? <==> ComputeWindow(at8, call.today, call.asOf, call.last).LastAfterAsOf?
    ensures res.Rejected? ==> ops == []
    ensures res.Raised? ==>
      RaisedAs(old(db.Model()), call, ComputeWindow(at8, call.today, call.asOf, call.last), summarize, f, res.code, ops)
  {
    if call.last.Some? && call.last.value > call.asOf { return Rejected, [], []; }
    res, ops, pages := BeginAndRun(db, call, ComputeWindow(at8, call.today, call.asOf, call.last), summarize, f);
  }
}
