/** What a briefing run does with each input, in the inputs' own fields: who is included and why
    the others are not, the order, the summary, the record and the event each one becomes, what
    identity means, and what a run that raises leaves behind. */
module EngineTerms {
  import opened Ordering
  import opened UtcText
  import opened TextRules
  import opened DecimalText
  import opened JsonBytes
  import opened Grouping
  import opened MorningWindow
  import opened BriefingLedger
  import opened LedgerRuns
  import R = Renderer
  import opened Rendering
  import opened TextLayout
  import opened PrintedText
  import opened Packing
  import opened BriefingEngine
  import opened EngineRuns

  // ------------------------------------------------------------ who is included

  lemma QueuedIff(seen: map<CandidateId, SeenRow>, lower: Moment, upper: Moment, inputs: seq<Input>, i: Input)
    ensures i in multiset(Queue(seen, lower, upper, inputs)) <==> i in inputs && WhyNot(seen, lower, upper, i).None?
  {
    var wanted := Filter(inputs, Wanted(seen, lower, upper));
    QueueFacts(seen, lower, upper, inputs);
    FilterMembers(inputs, Wanted(seen, lower, upper));
    assert i in wanted <==> i in multiset(wanted);
  }

  /** An input is included exactly when it is one of the call's, unseen, evaluated in the window,
      not suppressed, and judged a distinct event or a material update. */
  lemma IncludedIff(seen: map<CandidateId, SeenRow>, lower: Moment, upper: Moment, call: Call, summarize: Summarizer, report: Report, pages: seq<Page>, i: Input)
    requires Reports(seen, lower, upper, call, summarize, report, pages)
    ensures i in Inputs(report.included) <==>
      && i in call.inputs && Identity(i) !in seen && lower <= i.evaluatedAt < upper
      && !i.suppressed && (i.decision == Semantic.DistinctEvent || i.decision == Semantic.MaterialUpdate)
  {
    var queue := Queue(seen, lower, upper, call.inputs);
    IncludedIsQueue(queue, summarize);
    QueuedIff(seen, lower, upper, call.inputs, i);
    assert i in Inputs(report.included) <==> i in multiset(queue);
  }

  /** Every other input is listed with the first reason that keeps it out. */
  lemma ExcludedBecause(seen: map<CandidateId, SeenRow>, lower: Moment, upper: Moment, call: Call, summarize: Summarizer, report: Report, pages: seq<Page>, k: nat)
    requires Reports(seen, lower, upper, call, summarize, report, pages) && k < |report.excluded|
    ensures var i, reason := report.excluded[k].input, report.excluded[k].reason;
      && reason == (if Identity(i) in seen then AlreadyShadowSeen
                    else if i.evaluatedAt < lower || upper <= i.evaluatedAt then OutOfWindow else NonEligibleDecision)
      && (reason == NonEligibleDecision ==>
            i.suppressed || (i.decision != Semantic.DistinctEvent && i.decision != Semantic.MaterialUpdate))
  {
    ExcludedAreTheRest(seen, lower, upper, call.inputs);
  }

  // ------------------------------------------------------------ in which order

  /** The order of the categories. */
  predicate CategoryPlace(c: R.Category, n: nat) {
    c == match n
         case 0 => R.AI case 1 => R.WorldNews case 2 => R.AudioEngineering case 3 => R.Hardware
         case 4 => R.FantasyNovel case 5 => R.Audiovisual case 6 => R.AvCorporate case _ => R.OurSetup
  }

  /** Input a is not behind b: by category, then time, then ordinal, then candidate. */
  ghost predicate NotBehind(a: Input, b: Input) {
    exists p: nat, q: nat :: p < 8 && q < 8 && CategoryPlace(a.category, p) && CategoryPlace(b.category, q)
      && (p < q
          || (p == q && (a.evaluatedAt < b.evaluatedAt
                         || (a.evaluatedAt == b.evaluatedAt
                             && (a.ordinal < b.ordinal || (a.ordinal == b.ordinal && TextAtMost(a.candidate, b.candidate)))))))
  }

  lemma RankIsPlace(c: R.Category)
    ensures R.Rank(c) < 8 && CategoryPlace(c, R.Rank(c))
  {
  }

  lemma ArrivalIsNotBehind(a: Input, b: Input)
    requires ArrivesFirst(a, b)
    ensures NotBehind(a, b)
  {
    RankIsPlace(a.category);
    RankIsPlace(b.category);
  }

  /** Where a subject stands in the fixed order of subjects. */
  ghost predicate SubjectPlace(i: Input, subjects: seq<string>, n: nat) { n < |subjects| && i.subject == subjects[n] }

  /** Subject by subject in the listed order, and inside a subject in arrival order. */
  ghost predicate InSubjectOrder(a: Input, b: Input, subjects: seq<string>) {
    exists p: nat, q: nat :: SubjectPlace(a, subjects, p) && SubjectPlace(b, subjects, q) && (p < q || (p == q && NotBehind(a, b)))
  }

  lemma OrderLonger(a: Input, b: Input, init: seq<string>, last: string)
    requires InSubjectOrder(a, b, init)
    ensures InSubjectOrder(a, b, init + [last])
  {
    var p: nat, q: nat :| SubjectPlace(a, init, p) && SubjectPlace(b, init, q) && (p < q || (p == q && NotBehind(a, b)));
    assert SubjectPlace(a, init + [last], p) && SubjectPlace(b, init + [last], q);
  }

  lemma {:induction false} GroupedPlace(queue: seq<Input>, subjects: seq<string>, i: Input) returns (p: nat)
    requires i in Grouped(queue, SubjectOf(), subjects)
    ensures SubjectPlace(i, subjects, p)
  {
    var init, last := subjects[..|subjects| - 1], subjects[|subjects| - 1];
    if i in Grouped(queue, SubjectOf(), init) {
      p := GroupedPlace(queue, init, i);
    } else {
      FilterMembers(queue, HasKey(SubjectOf(), last));
      p := |subjects| - 1;
    }
  }

  lemma {:induction false} GroupedInOrder(queue: seq<Input>, subjects: seq<string>, i: nat, j: nat)
    requires SortedBy(queue, Arrival()) && i < j < |Grouped(queue, SubjectOf(), subjects)|
    ensures var g := Grouped(queue, SubjectOf(), subjects); InSubjectOrder(g[i], g[j], subjects)
  {
    var init, last := subjects[..|subjects| - 1], subjects[|subjects| - 1];
    var before, group := Grouped(queue, SubjectOf(), init), Filter(queue, HasKey(SubjectOf(), last));
    var a, b := (before + group)[i], (before + group)[j];
    assert subjects == init + [last];
    FilterMembers(queue, HasKey(SubjectOf(), last));
    if j < |before| {
      GroupedInOrder(queue, init, i, j);
      OrderLonger(a, b, init, last);
    } else {
      assert b in group && SubjectPlace(b, subjects, |init|);
      if i < |before| {
        var p := GroupedPlace(queue, init, a);
        assert SubjectPlace(a, subjects, p);
      } else {
        FilterAscends(queue, HasKey(SubjectOf(), last), Arrival());
        assert Arrival()(group[i - |before|], group[j - |before|]);
        ArrivalIsNotBehind(a, b);
        assert a in group && SubjectPlace(a, subjects, |init|);
      }
    }
  }

  /** The included inputs of a report come subject by subject, and inside a subject by category,
      time, ordinal and candidate. */
  lemma IncludedComeInOrder(seen: map<CandidateId, SeenRow>, lower: Moment, upper: Moment, call: Call, summarize: Summarizer, report: Report, pages: seq<Page>, i: nat, j: nat)
    requires Reports(seen, lower, upper, call, summarize, report, pages) && i < j < |report.included|
    ensures InSubjectOrder(report.included[i].input, report.included[j].input,
      ["ai", "world", "audio_engineering", "professional_av", "hardware", "fantasy_novel", "our_setup"])
  {
    var queue := Queue(seen, lower, upper, call.inputs);
    ArrivalIsPreorder();
    SortFacts(Filter(call.inputs, Wanted(seen, lower, upper)), Arrival());
    IncludedAreTheGroups(queue, SUBJECTS, summarize);
    GroupedInOrder(queue, SUBJECTS, i, j);
    assert Inputs(report.included)[i] == report.included[i].input && Inputs(report.included)[j] == report.included[j].input;
  }

  // ------------------------------------------------------------ with which summary

  /** The questions of one subject: its askable inputs in order. */
  function Questions(queue: seq<Input>, subject: string): seq<Input> {
    Filter(Filter(queue, HasKey(SubjectOf(), subject)), Asked())
  }

  /** An input that can be asked about carries the summariser's own answer for its identity, from
      the one request of its subject; any other carries the fixed fallback. */
  ghost predicate OwnSummary(x: Included, queue: seq<Input>, summarize: Summarizer) {
    if Askable(x.input) then
      var answer := summarize(x.input.subject, Questions(queue, x.input.subject));
      answer.Some? && Identity(x.input) in answer.value && x.summary == answer.value[Identity(x.input)]
    else x.summary == Summary("Input bounds exceeded", true)
  }

  lemma GroupSummaries(queue: seq<Input>, subject: string, summarize: Summarizer, k: nat)
    requires GroupFor(queue, subject, summarize).Some? && k < |GroupFor(queue, subject, summarize).value|
    ensures OwnSummary(GroupFor(queue, subject, summarize).value[k], queue, summarize)
  {
    var group := Filter(queue, HasKey(SubjectOf(), subject));
    var raw := Filter(group, Asked());
    FilterMembers(queue, HasKey(SubjectOf(), subject));
    FilterMembers(group, Asked());
    assert group[k] in group && group[k].subject == subject;
    if Askable(group[k]) {
      assert group[k] in raw;
      var n :| 0 <= n < |raw| && raw[n] == group[k];
      assert Covers(summarize(subject, raw).value, raw);
    }
  }

  lemma {:induction false} AllSummaries(queue: seq<Input>, subjects: seq<string>, summarize: Summarizer, k: nat)
    requires IncludeAll(queue, subjects, summarize).Some? && k < |IncludeAll(queue, subjects, summarize).value|
    ensures OwnSummary(IncludeAll(queue, subjects, summarize).value[k], queue, summarize)
  {
    var init, last := subjects[..|subjects| - 1], subjects[|subjects| - 1];
    var before := IncludeAll(queue, init, summarize).value;
    if k < |before| { AllSummaries(queue, init, summarize, k); } else { GroupSummaries(queue, last, summarize, k - |before|); }
  }

  lemma SummariesAreTheirOwn(seen: map<CandidateId, SeenRow>, lower: Moment, upper: Moment, call: Call, summarize: Summarizer, report: Report, pages: seq<Page>, k: nat)
    requires Reports(seen, lower, upper, call, summarize, report, pages) && k < |report.included|
    ensures OwnSummary(report.included[k], Queue(seen, lower, upper, call.inputs), summarize)
  {
    AllSummaries(Queue(seen, lower, upper, call.inputs), SUBJECTS, summarize, k);
  }

  /** What makes an input too large or unclean to be shown at all, spelled out. */
  predicate Showable(i: Input) {
    && 1 <= |i.candidate| <= 256 && 1 <= |i.title| <= 512 && |i.snippet| <= 2048
    && (i.url == None || WebAddress(i.url.value))
  }

  predicate WebAddress(u: string) {
    && |u| <= 2048 && ("http://" <= u || "https://" <= u)
    && (forall k :: 0 <= k < |u| ==> !Space(u[k]) && u[k] > '\U{1F}' && !('\U{7F}' <= u[k] <= '\U{9F}'))
    && (var rest := if "http://" <= u then u[7..] else u[8..]; rest != "" && rest[0] != '/' && rest[0] != '?' && rest[0] != '#')
  }

  lemma AddressReads(u: string)
    ensures CleanUrl(u) == WebAddress(u)
  {
    if WebAddress(u) {
      forall k | 0 <= k < |u| ensures !BadUrlChar(u[k]) { assert !Space(u[k]); }
    }
  }

  lemma ShowableIff(i: Input)
    ensures Showable(i) == !BoundsInvalid(i)
  {
    if i.url.Some? { AddressReads(i.url.value); }
  }

  /** Exactly the inputs the summariser is asked about: showable, with a URL the library reads, and
      a version of an event, none of their texts holding a control character. */
  lemma AskableIff(i: Input)
    ensures Askable(i) <==>
      && Showable(i) && i.url.Some? && i.urlParses
      && i.eventId.Some? && 1 <= |i.eventId.value| <= 256 && i.eventVersion.Some? && i.eventVersion.value >= 1
      && EditorialClean(i.eventId.value) && EditorialClean(i.title) && EditorialClean(i.url.value)
  {
    ShowableIff(i);
  }

  // ------------------------------------------------------------ what it becomes

  /** How many of the first k items are in category c. */
  function Earlier(s: seq<Included>, c: R.Category, k: nat): nat
    requires k <= |s|
  {
    if k == 0 then 0 else Earlier(s, c, k - 1) + (if s[k - 1].input.category == c then 1 else 0)
  }

  lemma {:induction false} EarlierIsCount(s: seq<Included>, c: R.Category, k: nat)
    requires k <= |s|
    ensures CategoryCount(s[..k], c) == Earlier(s, c, k)
  {
    if k > 0 {
      EarlierIsCount(s, c, k - 1);
      assert s[..k][..k - 1] == s[..k - 1];
    }
  }

  /** The record of the k-th rendered item is that item, field by field. */
  lemma RecordCarriesItsItem(kept: seq<Included>, k: nat)
    requires k < |kept|
    ensures var r, x := Records(kept)[k], kept[k];
      && r.candidate == x.input.candidate && r.category == x.input.category
      && (r.decision == R.Decision.DistinctEvent <==> x.input.decision == Semantic.DistinctEvent)
      && r.title == Normalize(x.input.title) && r.summary == Normalize(x.summary.text)
      && r.url == x.input.url && r.reasons == x.input.reasons && r.facts == x.input.facts
      && r.ordinal == Earlier(kept, x.input.category, k)
      && r.subject == Some(x.input.subject) && r.eventId == x.input.eventId && r.eventVersion == x.input.eventVersion
  {
    RecordAt(kept, k);
    EarlierIsCount(kept, kept[k].input.category, k);
  }

  /** A payload with this value behind this key. */
  ghost predicate Holds(text: string, key: string, value: string) {
    exists before, after :: text == before + Member(key, value) + after
  }

  lemma PayloadHolds(i: Input, k: nat, key: string, value: string)
    requires k < |Members(i, Identity(i))| && Members(i, Identity(i))[k] == Member(key, value)
    ensures Holds(PayloadOf(i), key, value)
  {
    var before, after := ListedHolds(Members(i, Identity(i)), k);
    assert PayloadOf(i) == ("{" + before) + Member(key, value) + (after + "}");
  }

  /** What a payload says of its input. */
  ghost predicate Tells(text: string, i: Input) {
    && Holds(text, "candidate_id", Quoted(Identity(i)))
    && Holds(text, "title", Quoted(i.title)) && Holds(text, "summary", Quoted(i.snippet))
    && Holds(text, "decision", Quoted(if i.decision == Semantic.DistinctEvent then "distinct_event" else "material_update"))
    && Holds(text, "category", Quoted(CategoryWord(i.category)))
  }

  /** And of the event, an absent version counting as the first. */
  ghost predicate TellsEvent(text: string, i: Input) {
    i.eventId.Some? ==>
      && Holds(text, "subject_id", Quoted(i.subject)) && Holds(text, "event_id", Quoted(i.eventId.value))
      && (i.eventVersion.Some? && i.eventVersion.value > 0 ==> Holds(text, "event_version", Decimal(i.eventVersion.value)))
      && (i.eventVersion.None? ==> Holds(text, "event_version", "1"))
  }

  function CategoryWord(c: R.Category): string {
    match c
    case AI => "ai" case WorldNews => "world" case Hardware => "hardware" case FantasyNovel => "fantasy_novel"
    case AudioEngineering => "audio_engineering" case Audiovisual => "audiovisual"
    case AvCorporate => "av_corporate" case OurSetup => "our_setup"
  }

  lemma OneIsPrinted()
    ensures Decimal(1) == "1"
  {
  }

  lemma PayloadTells(i: Input)
    requires Eligible(i.decision, i.suppressed)
    ensures Tells(PayloadOf(i), i)
  {
    PayloadHolds(i, 0, "candidate_id", Quoted(Identity(i)));
    PayloadHolds(i, 1, "category", Quoted(CategoryText(i.category)));
    PayloadHolds(i, 2, "decision", Quoted(DecisionText(i.decision)));
    var n := |EventMembers(i)|;
    PayloadHolds(i, n + 3, "summary", Quoted(i.snippet));
    PayloadHolds(i, n + 4, "title", Quoted(i.title));
  }

  lemma PayloadTellsEvent(i: Input)
    ensures TellsEvent(PayloadOf(i), i)
  {
    if i.eventId.Some? {
      PayloadHolds(i, 3, "event_id", Quoted(i.eventId.value));
      PayloadHolds(i, 5, "subject_id", Quoted(i.subject));
      var version := if i.eventVersion.Some? && i.eventVersion.value > 0 then i.eventVersion.value else 1;
      PayloadHolds(i, 4, "event_version", Decimal(version));
      OneIsPrinted();
    }
  }

  /** The recorded event of an included item names its identity, and its payload holds the input's
      own category, decision, title and snippet, and the event's subject, id and version; nothing
      in it comes from the summariser. */
  lemma EventCarriesItsInput(kept: seq<Included>, at: Time, k: nat)
    requires k < |kept| && Eligible(kept[k].input.decision, kept[k].input.suppressed)
    ensures Events(kept, at)[k].candidate == Identity(kept[k].input) && Events(kept, at)[k].recordedAt == at
    ensures Tells(Events(kept, at)[k].payload, kept[k].input)
    ensures TellsEvent(Events(kept, at)[k].payload, kept[k].input)
  {
    PayloadTells(kept[k].input);
    PayloadTellsEvent(kept[k].input);
  }

  // ------------------------------------------------------------ how long its payload is

  lemma CategoryIsPlain(c: R.Category)
    ensures Plain(CategoryText(c))
  {
    match c
    case AI => assert Plain("ai");
    case WorldNews => assert Plain("world");
    case AudioEngineering => assert Plain("audio_engineering");
    case Hardware => assert Plain("hardware");
    case FantasyNovel => assert Plain("fantasy_novel");
    case Audiovisual => assert Plain("audiovisual");
    case AvCorporate => assert Plain("av_corporate");
    case OurSetup => assert Plain("our_setup");
  }

  lemma DecisionIsPlain(d: Semantic)
    ensures Plain(DecisionText(d))
  {
    match d
    case DistinctEvent => assert Plain("distinct_event");
    case MaterialUpdate => assert Plain("material_update");
    case Rewrite => assert Plain("rewrite");
    case BypassTerminal => assert Plain("bypass_phase2_terminal");
    case PendingReview => assert Plain("pending_review");
    case PendingModelError => assert Plain("pending_model_error");
  }

  /** The first three members of a payload, those of the event, and the last two. */
  function Front(identity: string, category: string, decision: string): seq<string> {
    [Member("candidate_id", Quoted(identity)), Member("category", Quoted(category)), Member("decision", Quoted(decision))]
  }

  function Middle(event: string, version: string, subject: string): seq<string> {
    [Member("event_id", Quoted(event)), Member("event_version", version), Member("subject_id", Quoted(subject))]
  }

  function Back(snippet: string, title: string): seq<string> {
    [Member("summary", Quoted(snippet)), Member("title", Quoted(title))]
  }

  lemma FrontLength(identity: string, category: string, decision: string)
    requires Plain(category) && Plain(decision)
    ensures Total(Front(identity, category, decision)) == 43 + TextBytes(identity) + |category| + |decision|
  {
    KeysAreAscii();
    QuotedMember("candidate_id", identity);
    PlainMember("category", category);
    PlainMember("decision", decision);
    var f := Front(identity, category, decision);
    TotalOfThree(f[0], f[1], f[2]);
  }

  lemma MiddleLength(event: string, version: string, subject: string)
    ensures Total(Middle(event, version, subject)) == 44 + TextBytes(event) + Length(version) + TextBytes(subject)
  {
    KeysAreAscii();
    QuotedMember("event_id", event);
    MemberLength("event_version", version);
    QuotedMember("subject_id", subject);
    var m := Middle(event, version, subject);
    TotalOfThree(m[0], m[1], m[2]);
  }

  lemma BackLength(snippet: string, title: string)
    ensures Total(Back(snippet, title)) == 22 + TextBytes(snippet) + TextBytes(title)
  {
    KeysAreAscii();
    QuotedMember("summary", snippet);
    QuotedMember("title", title);
    var b := Back(snippet, title);
    TotalOfTwo(b[0], b[1]);
  }

  function VersionText(i: Input): string { Decimal(if i.eventVersion.Some? && i.eventVersion.value > 0 then i.eventVersion.value else 1) }

  lemma EventLength(i: Input)
    ensures Total(EventMembers(i)) == if i.eventId.None? then 0 else
      44 + TextBytes(i.eventId.value) + |VersionText(i)| + TextBytes(i.subject)
  {
    if i.eventId.Some? {
      assert EventMembers(i) == Middle(i.eventId.value, VersionText(i), i.subject);
      MiddleLength(i.eventId.value, VersionText(i), i.subject);
      AsciiLength(VersionText(i));
    }
  }

  /** The payload bytes the limit is checked against are the UTF-8 length of the printed payload,
      an event's identity counting as the 69 characters of a prefixed SHA-256. */
  lemma PayloadBytesAreCounted(i: Input, identity: string)
    requires TextBytes(identity) == if OfAnEvent(i) then 69 else TextBytes(i.candidate)
    ensures PayloadBytes(i) == Length(Object(Members(i, identity)))
  {
    var front, back := Front(identity, CategoryText(i.category), DecisionText(i.decision)), Back(i.snippet, i.title);
    CategoryIsPlain(i.category);
    DecisionIsPlain(i.decision);
    FrontLength(identity, CategoryText(i.category), DecisionText(i.decision));
    EventLength(i);
    BackLength(i.snippet, i.title);
    TotalAdds(front, EventMembers(i));
    TotalAdds(front + EventMembers(i), back);
    assert Members(i, identity) == front + EventMembers(i) + back;
    ObjectLength(front + EventMembers(i) + back);
  }

  // ------------------------------------------------------------ identity

  /** An input that stands for a version of an event. */
  predicate OfAnEvent(i: Input) { i.eventId.Some? && !i.suppressed }

  lemma NoLineFeed(s: string)
    requires CleanId(s)
    ensures OneLine(s)
  {
    forall k | 0 <= k < |s| ensures s[k] != '\n' { assert !IdentityControl(s[k]); }
  }

  lemma PrefixedLine(s: string)
    requires OneLine(s)
    ensures OneLine("evv1:" + s) && ("evv1:" + s)[5..] == s
  {
  }

  lemma DecimalIsOneLine(n: nat)
    ensures OneLine(Decimal(n))
  {
  }

  lemma TripleLines(subject: string, event: string, version: nat)
    requires CleanId(subject) && CleanId(event)
    ensures Lines(EventVersionIdentity(subject, event, version)) == ["evv1:" + subject, event, Decimal(version)]
  {
    NoLineFeed(subject);
    NoLineFeed(event);
    PrefixedLine(subject);
    DecimalIsOneLine(version);
    LinesOfOne("evv1:" + subject);
    LinesOfOne(event);
    LinesOfOne(Decimal(version));
    LinesOfTwo("evv1:" + subject, event);
    LinesOfTwo("evv1:" + subject + "\n" + event, Decimal(version));
  }

  lemma TripleIsInjective(s: string, e: string, v: nat, s': string, e': string, v': nat)
    requires CleanId(s) && CleanId(e) && CleanId(s') && CleanId(e')
    requires EventVersionIdentity(s, e, v) == EventVersionIdentity(s', e', v')
    ensures s == s' && e == e' && v == v'
  {
    TripleLines(s, e, v);
    TripleLines(s', e', v');
    var a, b := ["evv1:" + s, e, Decimal(v)], ["evv1:" + s', e', Decimal(v')];
    assert a[0] == b[0] && a[1] == b[1] && a[2] == b[2];
    NoLineFeed(s);
    NoLineFeed(s');
    PrefixedLine(s);
    PrefixedLine(s');
    DigitValueOfDecimal(v);
    DigitValueOfDecimal(v');
  }

  function VersionOf(i: Input): nat { if i.eventVersion.Some? then i.eventVersion.value else 1 }

  /** Two inputs that stand for events share an identity exactly when subject, event and version
      agree, an absent version counting as the first; any other is known by its candidate id. */
  lemma IdentityIff(a: Input, b: Input)
    requires IdentityOk(a) && IdentityOk(b) && OfAnEvent(a)
    ensures OfAnEvent(b) ==>
      (Identity(a) == Identity(b) <==> a.subject == b.subject && a.eventId == b.eventId && VersionOf(a) == VersionOf(b))
    ensures !OfAnEvent(b) ==> Identity(b) == b.candidate
  {
    if OfAnEvent(b) && Identity(a) == Identity(b) {
      TripleIsInjective(a.subject, a.eventId.value, VersionOf(a), b.subject, b.eventId.value, VersionOf(b));
    }
  }

  // ------------------------------------------------------------ where it is printed

  /** The reason codes and fact kinds of an input are words of the program's own. */
  predicate CodesAreWords(i: Input) {
    && (forall k :: 0 <= k < |i.reasons| ==> OneLine(i.reasons[k]) && i.reasons[k] != "")
    && (forall k :: 0 <= k < |i.facts| ==> OneLine(i.facts[k].kind) && OneLine(i.facts[k].gate))
  }

  lemma CleanIsOneLine(s: string)
    requires Clean(s)
    ensures OneLine(s)
  {
    forall k | 0 <= k < |s| ensures s[k] != '\n' { assert !Forbidden(s[k]); }
  }

  lemma RecordIsDisplayable(kept: seq<Included>, k: nat)
    requires k < |kept| && RecordOk(kept[k]) && CodesAreWords(kept[k].input)
    ensures Displayable(Records(kept)[k])
  {
    RecordAt(kept, k);
    NormalizedIsOneLine(kept[k].input.title);
    NormalizedIsOneLine(kept[k].summary.text);
    if kept[k].input.url.Some? { CleanIsOneLine(kept[k].input.url.value); }
  }

  /** The chunk opens with the date and the subject, and holds the record's five lines in a row. */
  ghost predicate Prints(chunk: string, date: string, r: R.Record) {
    var lines := Lines(chunk);
    && |lines| >= 3 && lines[0] == "Morning briefing \U{2014} " + date
    && r.subject.Some? && NamesSubject(lines[2], r.subject.value)
    && exists place: nat :: FiveAt(lines, place, RecordLines(r))
  }

  predicate FiveAt(lines: seq<string>, place: nat, five: seq<string>) { place + 5 <= |lines| && lines[place..place + 5] == five }

  lemma ShownIsPrinted(chunk: string, date: string, subject: string, block: seq<R.Record>, k: nat)
    requires ReadsAsBriefing(chunk, date, Some(subject), block) && k < |block| && block[k].subject == Some(subject)
    ensures Prints(chunk, date, block[k])
  {
    var lines := Lines(chunk);
    var labels: seq<nat>, places: seq<nat> :| Layout(lines, 2, Shows(block), labels, places);
    assert Stands(lines, Shows(block)[k], labels[k], places[k]);
    assert FiveAt(lines, places[k], RecordLines(block[k]));
  }

  lemma {:induction false} FlattenedFrom(blocks: seq<seq<R.Record>>, r: R.Record) returns (i: nat, k: nat)
    requires r in Flatten(blocks)
    ensures i < |blocks| && k < |blocks[i]| && blocks[i][k] == r
  {
    var init, last := blocks[..|blocks| - 1], blocks[|blocks| - 1];
    if r in last {
      i := |init|;
      k :| 0 <= k < |last| && last[k] == r;
    } else {
      i, k := FlattenedFrom(init, r);
    }
  }

  /** On its page a record is printed. */
  lemma PrintedOnItsPage(records: seq<R.Record>, date: string, subject: string, page: Page, r: R.Record) returns (c: nat)
    requires OneLine(date) && SubjectLabel(subject).Some? && r in page.records && Mine(page.records, subject)
    requires forall k :: 0 <= k < |page.records| ==> Displayable(page.records[k])
    requires RenderedAs(Heading(date, Some(subject)), page.records, page.chunks, page.blocks)
    ensures c < |page.chunks| && Prints(page.chunks[c], date, r)
  {
    assert r in multiset(Flatten(page.blocks));
    var k;
    c, k := FlattenedFrom(page.blocks, r);
    BriefingReads(date, Some(subject), page.records, page.chunks, page.blocks, c);
    assert r.subject == Some(subject);
    ShownIsPrinted(page.chunks[c], date, subject, page.blocks[c], k);
  }

  lemma {:induction false} PageAt(records: seq<R.Record>, date: string, subjects: seq<string>, pages: seq<Page>, p: nat)
    requires PagesOf(records, date, subjects, pages) && p < |pages|
    ensures var page := pages[p];
      && page.subject in subjects && Mine(page.records, page.subject)
      && (forall x :: x in page.records ==> x in records)
      && RenderedAs(Heading(date, Some(page.subject)), page.records, page.chunks, page.blocks)
    decreases |subjects|
  {
    if subjects != [] {
      var init, subject := subjects[..|subjects| - 1], subjects[|subjects| - 1];
      FilterMembers(records, HasKey(RecordSubject(), subject));
      if Filter(records, HasKey(RecordSubject(), subject)) == [] {
        PageAt(records, date, init, pages, p);
      } else if p < |pages| - 1 {
        PageAt(records, date, init, pages[..|pages| - 1], p);
      }
    }
  }

  lemma {:induction false} PageWith(pages: seq<Page>, r: R.Record) returns (p: nat)
    requires r in PageRecords(pages)
    ensures p < |pages| && r in pages[p].records
  {
    if r in pages[|pages| - 1].records { p := |pages| - 1; } else { p := PageWith(pages[..|pages| - 1], r); }
  }

  lemma {:induction false} ChunkIsReported(pages: seq<Page>, p: nat, c: nat)
    requires p < |pages| && c < |pages[p].chunks|
    ensures pages[p].chunks[c] in AllChunks(pages)
  {
    if p < |pages| - 1 { ChunkIsReported(pages[..|pages| - 1], p, c); }
  }

  lemma KeptIsIncluded(included: seq<Included>, k: nat)
    requires k < |Recordable(included)|
    ensures Recordable(included)[k].input in Inputs(included)
  {
    FilterMembers(included, Renderable());
    assert Recordable(included)[k] in Recordable(included);
    var n :| 0 <= n < |included| && included[n] == Recordable(included)[k];
    assert Inputs(included)[n] == included[n].input;
  }

  lemma KeptAreDisplayable(kept: seq<Included>)
    requires RecordsOk(kept) && forall k :: 0 <= k < |kept| ==> CodesAreWords(kept[k].input)
    ensures forall k :: 0 <= k < |kept| ==> Displayable(Records(kept)[k])
  {
    EveryMember(kept, RecordAccepted());
    forall k | 0 <= k < |kept| ensures Displayable(Records(kept)[k]) {
      assert kept[k] in kept;
      RecordIsDisplayable(kept, k);
    }
  }

  lemma SubjectHasLabel(subject: string)
    requires subject in SUBJECTS
    ensures SubjectLabel(subject).Some? && subject != ""
  {
    SubjectsAreDistinct();
    var n :| 0 <= n < |SUBJECTS| && SUBJECTS[n] == subject;
  }

  /** A record that is on some page is printed in some chunk. */
  lemma PrintedSomewhere(records: seq<R.Record>, date: string, pages: seq<Page>, r: R.Record) returns (chunk: string)
    requires PagesOf(records, date, SUBJECTS, pages) && r in PageRecords(pages) && OneLine(date)
    requires forall k :: 0 <= k < |records| ==> Displayable(records[k])
    ensures chunk in AllChunks(pages) && Prints(chunk, date, r)
  {
    var p := PageWith(pages, r);
    var page := pages[p];
    PageAt(records, date, SUBJECTS, pages, p);
    SubjectHasLabel(page.subject);
    forall k | 0 <= k < |page.records| ensures Displayable(page.records[k]) { assert page.records[k] in records; }
    var c := PrintedOnItsPage(records, date, page.subject, page, r);
    ChunkIsReported(pages, p, c);
    chunk := page.chunks[c];
  }

  lemma KeptWords(seen: map<CandidateId, SeenRow>, lower: Moment, upper: Moment, call: Call, summarize: Summarizer, report: Report, pages: seq<Page>)
    requires Reports(seen, lower, upper, call, summarize, report, pages)
    requires forall i :: i in call.inputs ==> CodesAreWords(i)
    ensures forall k :: 0 <= k < |Recordable(report.included)| ==> CodesAreWords(Recordable(report.included)[k].input)
  {
    var kept := Recordable(report.included);
    forall k | 0 <= k < |kept| ensures CodesAreWords(kept[k].input) {
      KeptIsIncluded(report.included, k);
      IncludedIff(seen, lower, upper, call, summarize, report, pages, kept[k].input);
    }
  }

  /** Every rendered item of a report is printed: one of the report's chunks opens with its
      subject and holds its record's five lines in a row. */
  lemma ItemIsPrinted(seen: map<CandidateId, SeenRow>, lower: Moment, upper: Moment, call: Call, summarize: Summarizer, report: Report, pages: seq<Page>, k: nat)
    requires Reports(seen, lower, upper, call, summarize, report, pages) && k < |Recordable(report.included)|
    requires OneLine(call.date) && forall i :: i in call.inputs ==> CodesAreWords(i)
    ensures exists chunk :: chunk in report.chunks && Prints(chunk, call.date, Records(Recordable(report.included))[k])
  {
    var kept := Recordable(report.included);
    RenderedAreTheEvents(seen, lower, upper, call, summarize, report, pages);
    assert Records(kept)[k] in multiset(PageRecords(pages));
    KeptWords(seen, lower, upper, call, summarize, report, pages);
    KeptAreDisplayable(kept);
    var chunk := PrintedSomewhere(Records(kept), call.date, pages, Records(kept)[k]);
  }

  // ------------------------------------------------------------ runs that raise

  /** This record's own chunk is too long for a message. */
  predicate LongAt(records: seq<R.Record>, date: string, k: nat) {
    && k < |records| && records[k].subject.Some? && records[k].subject.value in SUBJECTS
    && R.Units(R.ChunkText(Heading(date, records[k].subject), [records[k]])) > 4000
  }

  ghost predicate TooLong(records: seq<R.Record>, date: string) { exists k: nat :: LongAt(records, date, k) }

  function SubjectGroup(records: seq<R.Record>, subject: string): seq<R.Record> {
    Sort(Filter(records, HasKey(RecordSubject(), subject)), R.ByKey())
  }

  lemma GroupMembers(records: seq<R.Record>, subject: string)
    requires subject != ""
    ensures forall r :: r in SubjectGroup(records, subject) <==> r in records && r.subject == Some(subject)
  {
    var group := Filter(records, HasKey(RecordSubject(), subject));
    FilterMembers(records, HasKey(RecordSubject(), subject));
    R.ByKeyIsPreorder();
    SortFacts(group, R.ByKey());
    forall r ensures r in SubjectGroup(records, subject) <==> r in group {
      assert r in group <==> r in multiset(group);
      assert r in SubjectGroup(records, subject) <==> r in multiset(SubjectGroup(records, subject));
    }
  }

  lemma EmptyGroupFits(records: seq<R.Record>, subject: string)
    requires SubjectGroup(records, subject) != []
    ensures Filter(records, HasKey(RecordSubject(), subject)) != []
  {
    assert Sort<R.Record>([], R.ByKey()) == [];
  }

  lemma LongRecordBreaksItsSubject(records: seq<R.Record>, date: string, k: nat)
    requires LongAt(records, date, k)
    ensures !SubjectFits(records, date, records[k].subject.value)
  {
    var subject := records[k].subject.value;
    SubjectHasLabel(subject);
    GroupMembers(records, subject);
    var sorted := SubjectGroup(records, subject);
    assert records[k] in sorted;
    EmptyGroupFits(records, subject);
    var n :| 0 <= n < |sorted| && sorted[n] == records[k];
    assert !R.Fitting(Heading(date, Some(subject)))([sorted[n]]);
  }

  lemma BrokenSubjectHasALongRecord(records: seq<R.Record>, date: string, subject: string)
    requires subject in SUBJECTS && !SubjectFits(records, date, subject)
    ensures TooLong(records, date)
  {
    SubjectHasLabel(subject);
    GroupMembers(records, subject);
    var sorted := SubjectGroup(records, subject);
    var n :| 0 <= n < |sorted| && !R.Fitting(Heading(date, Some(subject)))([sorted[n]]);
    assert sorted[n] in records;
    var k :| 0 <= k < |records| && records[k] == sorted[n];
    assert LongAt(records, date, k);
  }

  lemma AllFitIff(records: seq<R.Record>, date: string)
    ensures BriefingEngine.AllFit(records, date, SUBJECTS) == !TooLong(records, date)
  {
    if k: nat :| LongAt(records, date, k) {
      LongRecordBreaksItsSubject(records, date, k);
    }
    if !BriefingEngine.AllFit(records, date, SUBJECTS) {
      var subject :| subject in SUBJECTS && !SubjectFits(records, date, subject);
      BrokenSubjectHasALongRecord(records, date, subject);
    }
  }

  /** The note of a begun run that raises: overflow exactly when the records are sound and one of
      them cannot fit a message; a ledger failure exactly when the seen lookup failed, or when
      rendering went well and the ledger refused the events or the completion; and a
      programmer's error for everything else. */
  lemma FailureCodeSays(seen: map<CandidateId, SeenRow>, lower: Moment, upper: Moment, call: Call, summarize: Summarizer, f: Faults)
    ensures var code, included := RunCode(seen, lower, upper, call, summarize, f), Prepared(seen, lower, upper, call, summarize, f);
      && (code == "RENDERER_OVERFLOW" <==>
            included.Some? && RecordsOk(Recordable(included.value)) && TooLong(Records(Recordable(included.value)), call.date))
      && (code == "LEDGER_FAILURE" <==>
            || (f.seen && IdentitiesOk(call.inputs) && DistinctKeys(call.inputs, IdentityOf()))
            || (included.Some? && RecordsOk(Recordable(included.value)) && !TooLong(Records(Recordable(included.value)), call.date)
                && (f.complete || !EventsOk(Recordable(included.value)))))
      && (code == "RENDERER_OVERFLOW" || code == "LEDGER_FAILURE" || code == "PROGRAMMER_EXCEPTION")
  {
    var included := Prepared(seen, lower, upper, call, summarize, f);
    if included.Some? { AllFitIff(Records(Recordable(included.value)), call.date); }
  }

  /** The ledger took the begin of this run. */
  ghost predicate Took(l: Ledger, call: Call, w: Bounds, f: Faults)
    requires w.Bounds?
  {
    !f.begin && Step(l, BeginOp(call, w.lower, w.upper)).1 == Begun
  }

  lemma TookMeansRunning(l: Ledger, call: Call, w: Bounds, f: Faults)
    requires w.Bounds? && Took(l, call, w, f)
    ensures var after := Step(l, BeginOp(call, w.lower, w.upper)).0;
      after.seen == l.seen && call.run in after.runs && after.runs[call.run].status == Running
  {
  }

  lemma CompletionIsTaken(l: Ledger, call: Call, included: seq<Included>)
    requires call.run in l.runs && l.runs[call.run].status == Running && DistinctIncluded(Recordable(included))
    ensures var after := Step(l, CompletionOf(call, included)).0;
      call.run in after.runs && after.runs[call.run].status == Completed
  {
    EventsAreDistinct(Recordable(included), Seconds(call.asOf));
  }

  /** The ledger before the note. */
  ghost predicate LeftBy(l: Ledger, call: Call, w: Bounds, summarize: Summarizer, f: Faults, after: Ledger)
    requires w.Bounds?
  {
    if !Took(l, call, w, f) then after.seen == l.seen
    else
      && call.run in after.runs
      && (if Commits(l.seen, w.lower, w.upper, call, summarize, f) then after.runs[call.run].status == Completed
          else after.seen == l.seen && after.runs[call.run].status == Running)
  }

  lemma StartedLeaves(l: Ledger, call: Call, w: Bounds, summarize: Summarizer, f: Faults)
    requires w.Bounds?
    ensures var ops := Started(l, call, w, summarize, f); LeftBy(l, call, w, summarize, f, At(l, ops, |ops|))
  {
    var begin := BeginOp(call, w.lower, w.upper);
    if !f.begin { OneOp(l, begin); }
    if Took(l, call, w, f) {
      TookMeansRunning(l, call, w, f);
      var finished := Finished(l.seen, call, w, summarize, f);
      if Commits(l.seen, w.lower, w.upper, call, summarize, f) {
        PreparedFacts(l.seen, w.lower, w.upper, call, summarize, f);
        AtAppend(l, [begin], finished[0]);
        CompletionIsTaken(Step(l, begin).0, call, Prepared(l.seen, w.lower, w.upper, call, summarize, f).value);
        assert [begin] + finished == [begin] + [finished[0]];
      } else {
        assert [begin] + finished == [begin];
      }
    }
  }

  lemma NoteLeaves(l: Ledger, call: Call, code: string)
    ensures var after := Step(l, Op.FailRun(call.run, Seconds(call.asOf), code)).0;
      && after.seen == l.seen
      && (call.run in l.runs ==> (
            && call.run in after.runs
            && (if l.runs[call.run].status == Running
                then after.runs[call.run].status == Failed && after.runs[call.run].error == Some(code)
                else after.runs[call.run] == l.runs[call.run])))
  {
  }

  /** A run that raised marks nothing seen, unless its completion went through and only the answer
      was lost; a begun one that did not complete ends as failed under its code as soon as the
      ledger takes the note, and the lost one stays completed. */
  lemma RaisedRunsMarkNothing(l: Ledger, call: Call, w: Bounds, summarize: Summarizer, f: Faults, code: string, ops: seq<Op>)
    requires w.Bounds? && RaisedAs(l, call, w, summarize, f, code, ops)
    ensures var after, commits := At(l, ops, |ops|), Commits(l.seen, w.lower, w.upper, call, summarize, f);
      && (!(Took(l, call, w, f) && commits) ==> after.seen == l.seen)
      && (Took(l, call, w, f) && !commits && f.note ==>
            call.run in after.runs && after.runs[call.run].status == Failed && after.runs[call.run].error == Some(code))
      && (Took(l, call, w, f) && commits ==> call.run in after.runs && after.runs[call.run].status == Completed)
  {
    var started, note := Started(l, call, w, summarize, f), Op.FailRun(call.run, Seconds(call.asOf), code);
    StartedLeaves(l, call, w, summarize, f);
    if f.note {
      AtAppend(l, started, note);
      NoteLeaves(At(l, started, |started|), call, code);
    } else {
      assert ops == started;
    }
  }
}
