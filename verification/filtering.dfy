/** Batch filtering (filtering.py, evaluate_candidates): three dictionaries of first winners
    against the quadratic reading "is there an earlier candidate with the same key?".

    URL canonicalisation, text normalisation, the source rules and the history queries belong
    to other modules: a candidate carries their answers. */
module Filtering {
  import opened UtcText

  type Category = string
  type Reason = string

  datatype Tier = Blocked | Allowed | Trusted | Unknown
  /** Where the source rules list a URL's host; NoHost is a URL without one. */
  datatype Listing = BlockedExactly | BlockedBelow | AllowListed | TrustListed | Unlisted | NoHost

  datatype Date = NoDate | BadDate | At(micros: int)
  datatype Canonical = Malformed | Mismatched | NotArticle | Link(url: Option<string>)

  datatype Candidate = Candidate(
    category: Category, group: string, evaluatedAt: Option<int>, canonical: Canonical, title: string, snippet: string,
    listing: Listing, publishedEvidence: string, publishedAt: Date, observedAt: Date)

  datatype Policy = Policy(groups: set<string>, recency: int, missingDateFallback: bool, crossCategory: bool)

  type Policies = map<Category, Policy>

  /** What the history says about one candidate, should it be asked. */
  datatype Lookup =
    | Unavailable
    | UrlMatch(article: string, sameContent: bool)
    | TitleMatch(article: string, sameSnippet: bool, titleOnly: bool)
    | NoMatch

  datatype History = History(opens: bool, lookup: nat -> Lookup)

  datatype Decision =
    | Keep | SuppressBatchExact | SuppressExactUrl | SuppressRecentTitle | DropStale | DropBlockedSource
    | DropNonArticleUrl | PendingMissingEvidence | PendingInvalidEvidence | PendingPossibleUpdate | PendingHistoryUnavailable

  datatype Result = Result(
    ordinal: nat, decision: Decision, reasons: seq<Reason>, tier: Tier, published: Option<int>,
    evidence: string, recency: string, auditOnly: bool, matched: Option<string>)

  const FUTURE_TOLERANCE := 6 * 60 * MINUTE

  // ------------------------------------------------------------ up to the batch stage

  function UrlOf(c: Candidate): Option<string> { if c.canonical.Link? then c.canonical.url else None }

  /** `classify_source`: the tier and the reason of a candidate's source. */
  function SourceOf(c: Candidate): (Tier, Reason) {
    if UrlOf(c).None? then (Unknown, "missing_url")
    else match c.listing
      case BlockedExactly => (Blocked, "blocked_source_exact")
      case BlockedBelow => (Blocked, "blocked_source_subdomain")
      case AllowListed => (Allowed, "ok_keep")
      case TrustListed => (Trusted, "ok_trusted_source")
      case Unlisted => (Unknown, "ok_unknown_source")
      case NoHost => (Unknown, "malformed_canonical_url")
  }

  /** `_unique`: first occurrences, in order. */
  function Unique(rs: seq<Reason>): seq<Reason> {
    if rs == [] then [] else
      var before := Unique(rs[..|rs| - 1]);
      if rs[|rs| - 1] in before then before else before + [rs[|rs| - 1]]
  }

  datatype Recency = Recency(verdict: Option<Decision>, reasons: seq<Reason>, published: Option<int>, evidence: string, status: string)

  function JudgeRecency(c: Candidate, now: int, policy: Policy): Recency {
    if c.publishedEvidence == "unparseable" || (c.publishedEvidence == "missing" && c.publishedAt != NoDate)
       || c.publishedAt == BadDate || c.observedAt == BadDate then
      Recency(Some(PendingInvalidEvidence), ["invalid_date"], None, "unparseable", "invalid")
    else if c.publishedAt == NoDate && (c.observedAt == NoDate || !policy.missingDateFallback) then
      Recency(Some(PendingMissingEvidence), ["missing_date"], None, "missing", "missing")
    else
      var fallback := c.publishedAt == NoDate;
      var chosen := if fallback then c.observedAt.micros else c.publishedAt.micros;
      var evidence := if fallback then "observed_fallback" else if c.publishedEvidence == "source" then "source" else "metadata";
      var reasons := if fallback then ["ok_observed_fallback"] else [];
      var printed := Some(chosen / SECOND);
      if chosen - now > FUTURE_TOLERANCE then
        Recency(Some(PendingInvalidEvidence), ["future_date", "invalid_date"], printed, evidence, "invalid")
      else
        var clamped := chosen > now;
        var all := reasons + (if clamped then ["future_date_clamped"] else []);
        var compared := if clamped then now else chosen;
        if now - compared > policy.recency then
          Recency(Some(DropStale), Unique(all + ["stale"]), printed, evidence, "stale")
        else
          Recency(None, all, printed, evidence, if clamped then "future_clamped" else "fresh")
  }

  /** The date a candidate is judged by: its publication date, else, where the policy allows,
      the date it was observed. */
  function JudgedDate(c: Candidate, policy: Policy): Option<int> {
    if c.publishedAt.At? then Some(c.publishedAt.micros)
    else if c.publishedAt.NoDate? && policy.missingDateFallback && c.observedAt.At? then Some(c.observedAt.micros)
    else None
  }

  predicate DatesReadable(c: Candidate) {
    c.publishedEvidence != "unparseable" && c.publishedAt != BadDate && c.observedAt != BadDate
    && (c.publishedEvidence == "missing" ==> c.publishedAt == NoDate)
  }

  /** A candidate passes the recency stage exactly when its dates are readable and the judged
      one lies between `recency` in the past and six hours in the future, both included. */
  lemma PassesRecencyIff(c: Candidate, now: int, policy: Policy)
    requires policy.recency >= 0
    ensures var date := JudgedDate(c, policy);
      JudgeRecency(c, now, policy).verdict.None? <==>
        DatesReadable(c) && date.Some? && now - policy.recency <= date.value <= now + FUTURE_TOLERANCE
    ensures JudgeRecency(c, now, policy).verdict == Some(DropStale) <==>
      DatesReadable(c) && JudgedDate(c, policy).Some? && JudgedDate(c, policy).value < now - policy.recency
  {
  }

  datatype Stage = Short(result: Result) | Reached(base: seq<Reason>, published: Option<int>, evidence: string, recency: string)

  function Early(n: nat, d: Decision, rs: seq<Reason>, t: Tier): Stage {
    Short(Result(n + 1, d, rs, t, None, "unknown", "unknown", false, None))
  }

  /** Everything before the batch comparison; it looks at this candidate alone. */
  function PreStage(c: Candidate, n: nat, policies: Policies): Stage {
    if c.category !in policies then Early(n, PendingInvalidEvidence, ["unknown_query_group"], Unknown)
    else
      var policy := policies[c.category];
      if c.evaluatedAt.None? then Early(n, PendingInvalidEvidence, ["invalid_date"], Unknown)
      else if c.canonical.Malformed? then Early(n, PendingInvalidEvidence, ["malformed_canonical_url"], Unknown)
      else if c.canonical.Mismatched? then Early(n, PendingInvalidEvidence, ["canonical_mismatch"], Unknown)
      else if c.canonical.NotArticle? then Early(n, DropNonArticleUrl, ["non_article_url"], Unknown)
      else if c.group !in policy.groups then Early(n, PendingInvalidEvidence, ["unknown_query_group"], Unknown)
      else if SourceOf(c).0 == Blocked then Early(n, DropBlockedSource, Unique([SourceOf(c).1, "ok_blocked_source"]), Blocked)
      else
        var r := JudgeRecency(c, c.evaluatedAt.value, policy);
        var base := Unique([SourceOf(c).1] + r.reasons);
        if r.verdict.Some? then
          Short(Result(n + 1, r.verdict.value, base, SourceOf(c).0, r.published, r.evidence, r.status, UrlOf(c).None?, None))
        else Reached(base, r.published, r.evidence, r.status)
  }

  function Conclude(c: Candidate, n: nat, s: Stage, d: Decision, extra: seq<Reason>, audit: bool, matched: Option<string>): Result
    requires s.Reached?
  {
    Result(n + 1, d, Unique(s.base + extra), SourceOf(c).0, s.published, s.evidence, s.recency, audit, matched)
  }

  // ------------------------------------------------------------ the quadratic reading

  predicate ReachedAt(cs: seq<Candidate>, policies: Policies, n: nat)
    requires n < |cs|
  {
    PreStage(cs[n], n, policies).Reached?
  }

  /** Does candidate j carry candidate n's key?  URLs compare across categories when n's policy
      says so, within the category otherwise; without a URL it is category and title. */
  predicate SameKey(cs: seq<Candidate>, policies: Policies, n: nat, j: nat)
    requires n < |cs| && j < |cs| && ReachedAt(cs, policies, n)
  {
    if UrlOf(cs[n]).Some? then
      UrlOf(cs[j]) == UrlOf(cs[n]) && (policies[cs[n].category].crossCategory || cs[j].category == cs[n].category)
    else
      UrlOf(cs[j]).None? && cs[j].category == cs[n].category && cs[j].title == cs[n].title
  }

  predicate Rival(cs: seq<Candidate>, policies: Policies, n: nat, j: nat)
    requires n < |cs| && j < |cs| && ReachedAt(cs, policies, n)
  {
    ReachedAt(cs, policies, j) && SameKey(cs, policies, n, j)
  }

  /** The first earlier candidate that reached this stage with the same key. */
  function Winner(cs: seq<Candidate>, policies: Policies, n: nat, from: nat): (w: Option<nat>)
    requires from <= n < |cs| && ReachedAt(cs, policies, n)
    ensures w.Some? ==> from <= w.value < n && Rival(cs, policies, n, w.value)
    ensures forall j :: from <= j < n && Rival(cs, policies, n, j) ==> w.Some? && w.value <= j
    decreases n - from
  {
    if from == n then None
    else if Rival(cs, policies, n, from) then Some(from)
    else Winner(cs, policies, n, from + 1)
  }

  function SignatureOf(c: Candidate): (string, string) { (c.title, c.snippet) }

  /** Candidates the history is, or would be, asked about. */
  predicate AsksHistory(cs: seq<Candidate>, policies: Policies, n: nat)
    requires n < |cs|
  {
    ReachedAt(cs, policies, n) && Winner(cs, policies, n, 0).None? && UrlOf(cs[n]).Some?
  }

  /** The history has failed for this candidate or an earlier one. */
  predicate HistoryLost(cs: seq<Candidate>, policies: Policies, h: History, n: nat)
    requires n <= |cs|
  {
    exists j :: 0 <= j < n && AsksHistory(cs, policies, j) && (!h.opens || h.lookup(j).Unavailable?)
  }

  function AfterHistory(c: Candidate, n: nat, s: Stage, l: Lookup): Result
    requires s.Reached?
  {
    match l
    case Unavailable => Conclude(c, n, s, PendingHistoryUnavailable, ["history_unavailable"], false, None)
    case UrlMatch(article, same) =>
      if same then Conclude(c, n, s, SuppressExactUrl, ["history_exact_url"], false, Some(article))
      else Conclude(c, n, s, PendingPossibleUpdate, ["history_url_changed_content"], false, Some(article))
    case TitleMatch(article, same, titleOnly) =>
      if same then Conclude(c, n, s, SuppressRecentTitle, ["history_recent_title"], false, Some(article))
      else Conclude(c, n, s, PendingPossibleUpdate,
        (if titleOnly then ["ok_title_only_low_confidence"] else []) + ["history_title_changed_snippet"], false, Some(article))
    case NoMatch => Conclude(c, n, s, Keep, [], false, None)
  }

  /** The result for candidate n, read off the candidates up to n. */
  function ResultOf(cs: seq<Candidate>, policies: Policies, h: History, n: nat): Result
    requires n < |cs|
  {
    var c, s := cs[n], PreStage(cs[n], n, policies);
    if s.Short? then s.result
    else
      var w := Winner(cs, policies, n, 0);
      if w.Some? then
        Conclude(c, n, s, if SignatureOf(cs[w.value]) == SignatureOf(c) then SuppressBatchExact else PendingPossibleUpdate,
          ["within_batch_exact"], UrlOf(c).None?, None)
      else if UrlOf(c).None? then Conclude(c, n, s, PendingMissingEvidence, ["missing_url"], true, None)
      else if HistoryLost(cs, policies, h, n) || !h.opens then AfterHistory(c, n, s, Unavailable)
      else AfterHistory(c, n, s, h.lookup(n))
  }

  // ------------------------------------------------------------ the dictionaries

  datatype Entry = Entry(index: nat, signature: (string, string))

  /** Candidate j reached the stage with this URL, in this category when one is given. */
  predicate UrlHit(cs: seq<Candidate>, policies: Policies, category: Option<Category>, url: string, j: nat)
    requires j < |cs|
  {
    ReachedAt(cs, policies, j) && UrlOf(cs[j]) == Some(url) && (category.Some? ==> cs[j].category == category.value)
  }

  predicate TitleHit(cs: seq<Candidate>, policies: Policies, category: Category, title: string, j: nat)
    requires j < |cs|
  {
    ReachedAt(cs, policies, j) && UrlOf(cs[j]).None? && cs[j].category == category && cs[j].title == title
  }

  /** The entry is the first hit among the first n candidates, with its signature. */
  ghost predicate FirstUrl(cs: seq<Candidate>, policies: Policies, category: Option<Category>, url: string, n: nat, e: Option<Entry>)
    requires n <= |cs|
  {
    && (e.Some? ==> e.value.index < n && UrlHit(cs, policies, category, url, e.value.index)
                    && e.value.signature == SignatureOf(cs[e.value.index]))
    && forall j :: 0 <= j < n && UrlHit(cs, policies, category, url, j) ==> e.Some? && e.value.index <= j
  }

  ghost predicate FirstTitle(cs: seq<Candidate>, policies: Policies, category: Category, title: string, n: nat, e: Option<Entry>)
    requires n <= |cs|
  {
    && (e.Some? ==> e.value.index < n && TitleHit(cs, policies, category, title, e.value.index)
                    && e.value.signature == SignatureOf(cs[e.value.index]))
    && forall j :: 0 <= j < n && TitleHit(cs, policies, category, title, j) ==> e.Some? && e.value.index <= j
  }

  function Get<K>(m: map<K, Entry>, k: K): Option<Entry> { if k in m then Some(m[k]) else None }

  datatype Dicts = Dicts(globalUrls: map<string, Entry>, categoryUrls: map<(Category, string), Entry>, categoryTitles: map<(Category, string), Entry>)

  ghost predicate GlobalOk(cs: seq<Candidate>, policies: Policies, d: Dicts, n: nat)
    requires n <= |cs|
  {
    forall url :: FirstUrl(cs, policies, None, url, n, Get(d.globalUrls, url))
  }

  ghost predicate CategoryOk(cs: seq<Candidate>, policies: Policies, d: Dicts, n: nat)
    requires n <= |cs|
  {
    forall c, url :: c in policies && !policies[c].crossCategory ==> FirstUrl(cs, policies, Some(c), url, n, Get(d.categoryUrls, (c, url)))
  }

  ghost predicate TitlesOk(cs: seq<Candidate>, policies: Policies, d: Dicts, n: nat)
    requires n <= |cs|
  {
    forall c, title :: FirstTitle(cs, policies, c, title, n, Get(d.categoryTitles, (c, title)))
  }

  ghost predicate DictsOk(cs: seq<Candidate>, policies: Policies, d: Dicts, n: nat)
    requires n <= |cs|
  {
    GlobalOk(cs, policies, d, n) && CategoryOk(cs, policies, d, n) && TitlesOk(cs, policies, d, n)
  }

  function Consult(policies: Policies, d: Dicts, c: Candidate): Option<Entry>
    requires c.category in policies
  {
    if UrlOf(c).Some? then
      if policies[c.category].crossCategory then Get(d.globalUrls, UrlOf(c).value)
      else Get(d.categoryUrls, (c.category, UrlOf(c).value))
    else Get(d.categoryTitles, (c.category, c.title))
  }

  function SetDefault<K>(m: map<K, Entry>, k: K, e: Entry): map<K, Entry> { if k in m then m else m[k := e] }

  function Remember(d: Dicts, c: Candidate, e: Entry): Dicts {
    if UrlOf(c).Some? then
      d.(globalUrls := SetDefault(d.globalUrls, UrlOf(c).value, e),
         categoryUrls := SetDefault(d.categoryUrls, (c.category, UrlOf(c).value), e))
    else d.(categoryTitles := SetDefault(d.categoryTitles, (c.category, c.title), e))
  }

  /** One dictionary lookup finds the quadratic winner. */
  lemma ConsultFindsWinner(cs: seq<Candidate>, policies: Policies, d: Dicts, n: nat)
    requires n < |cs| && DictsOk(cs, policies, d, n) && ReachedAt(cs, policies, n)
    ensures var e, w := Consult(policies, d, cs[n]), Winner(cs, policies, n, 0);
      && (e.Some? <==> w.Some?)
      && (e.Some? ==> e.value.index == w.value && e.value.signature == SignatureOf(cs[w.value]))
  {
    var c, w := cs[n], Winner(cs, policies, n, 0);
    if UrlOf(c).Some? {
      var scope := if policies[c.category].crossCategory then None else Some(c.category);
      assert FirstUrl(cs, policies, scope, UrlOf(c).value, n, Consult(policies, d, c));
      forall j | 0 <= j < n ensures UrlHit(cs, policies, scope, UrlOf(c).value, j) <==> Rival(cs, policies, n, j) {
      }
    } else {
      assert FirstTitle(cs, policies, c.category, c.title, n, Consult(policies, d, c));
      forall j | 0 <= j < n ensures TitleHit(cs, policies, c.category, c.title, j) <==> Rival(cs, policies, n, j) {
      }
    }
  }

  /** A candidate that stopped early changes no dictionary and hits none. */
  lemma ShortKeepsDicts(cs: seq<Candidate>, policies: Policies, d: Dicts, n: nat)
    requires n < |cs| && DictsOk(cs, policies, d, n) && !ReachedAt(cs, policies, n)
    ensures DictsOk(cs, policies, d, n + 1)
  {
    forall url ensures FirstUrl(cs, policies, None, url, n + 1, Get(d.globalUrls, url)) {
      FirstUrlStep(cs, policies, None, url, n, Get(d.globalUrls, url));
    }
    forall c, url | c in policies && !policies[c].crossCategory
      ensures FirstUrl(cs, policies, Some(c), url, n + 1, Get(d.categoryUrls, (c, url)))
    {
      FirstUrlStep(cs, policies, Some(c), url, n, Get(d.categoryUrls, (c, url)));
    }
    forall c, title ensures FirstTitle(cs, policies, c, title, n + 1, Get(d.categoryTitles, (c, title))) {
      FirstTitleStep(cs, policies, c, title, n, Get(d.categoryTitles, (c, title)));
    }
  }

  lemma FirstUrlStep(cs: seq<Candidate>, policies: Policies, category: Option<Category>, url: string, n: nat, e: Option<Entry>)
    requires n < |cs| && FirstUrl(cs, policies, category, url, n, e)
    ensures FirstUrl(cs, policies, category, url, n + 1,
      if e.Some? then e else if UrlHit(cs, policies, category, url, n) then Some(Entry(n, SignatureOf(cs[n]))) else None)
  {
  }

  lemma FirstTitleStep(cs: seq<Candidate>, policies: Policies, category: Category, title: string, n: nat, e: Option<Entry>)
    requires n < |cs| && FirstTitle(cs, policies, category, title, n, e)
    ensures FirstTitle(cs, policies, category, title, n + 1,
      if e.Some? then e else if TitleHit(cs, policies, category, title, n) then Some(Entry(n, SignatureOf(cs[n]))) else None)
  {
  }

  /** A matched candidate's URL already has a global entry. */
  lemma MatchedUrlStands(cs: seq<Candidate>, policies: Policies, d: Dicts, n: nat, url: string)
    requires n < |cs| && GlobalOk(cs, policies, d, n) && CategoryOk(cs, policies, d, n)
    requires ReachedAt(cs, policies, n) && Consult(policies, d, cs[n]).Some? && UrlOf(cs[n]) == Some(url)
    ensures Get(d.globalUrls, url).Some?
  {
    var me := cs[n];
    assert FirstUrl(cs, policies, None, url, n, Get(d.globalUrls, url));
    if !policies[me.category].crossCategory {
      assert FirstUrl(cs, policies, Some(me.category), url, n, Get(d.categoryUrls, (me.category, url)));
      assert UrlHit(cs, policies, None, url, d.categoryUrls[(me.category, url)].index);
    }
  }

  /** A batch match is not recorded, and need not be: an earlier entry already stands. */
  lemma MatchKeepsDicts(cs: seq<Candidate>, policies: Policies, d: Dicts, n: nat)
    requires n < |cs| && DictsOk(cs, policies, d, n) && ReachedAt(cs, policies, n) && Consult(policies, d, cs[n]).Some?
    ensures DictsOk(cs, policies, d, n + 1)
  {
    forall url ensures FirstUrl(cs, policies, None, url, n + 1, Get(d.globalUrls, url)) {
      FirstUrlStep(cs, policies, None, url, n, Get(d.globalUrls, url));
      if UrlOf(cs[n]) == Some(url) { MatchedUrlStands(cs, policies, d, n, url); }
    }
    forall c, url | c in policies && !policies[c].crossCategory
      ensures FirstUrl(cs, policies, Some(c), url, n + 1, Get(d.categoryUrls, (c, url)))
    {
      FirstUrlStep(cs, policies, Some(c), url, n, Get(d.categoryUrls, (c, url)));
    }
    forall c, title ensures FirstTitle(cs, policies, c, title, n + 1, Get(d.categoryTitles, (c, title))) {
      FirstTitleStep(cs, policies, c, title, n, Get(d.categoryTitles, (c, title)));
    }
  }

  /** A candidate that matched nothing becomes the first with its key, where no entry stands. */
  lemma RememberKeepsDicts(cs: seq<Candidate>, policies: Policies, d: Dicts, n: nat)
    requires n < |cs| && DictsOk(cs, policies, d, n) && ReachedAt(cs, policies, n)
    ensures DictsOk(cs, policies, Remember(d, cs[n], Entry(n, SignatureOf(cs[n]))), n + 1)
  {
    var d' := Remember(d, cs[n], Entry(n, SignatureOf(cs[n])));
    assert GlobalOk(cs, policies, d', n + 1) by { RememberGlobal(cs, policies, d, n); }
    assert CategoryOk(cs, policies, d', n + 1) by { RememberCategory(cs, policies, d, n); }
    assert TitlesOk(cs, policies, d', n + 1) by { RememberTitle(cs, policies, d, n); }
  }

  lemma RememberGlobal(cs: seq<Candidate>, policies: Policies, d: Dicts, n: nat)
    requires n < |cs| && GlobalOk(cs, policies, d, n) && ReachedAt(cs, policies, n)
    ensures GlobalOk(cs, policies, Remember(d, cs[n], Entry(n, SignatureOf(cs[n]))), n + 1)
  {
    var d' := Remember(d, cs[n], Entry(n, SignatureOf(cs[n])));
    forall url ensures FirstUrl(cs, policies, None, url, n + 1, Get(d'.globalUrls, url)) {
      FirstUrlStep(cs, policies, None, url, n, Get(d.globalUrls, url));
    }
  }

  lemma RememberCategory(cs: seq<Candidate>, policies: Policies, d: Dicts, n: nat)
    requires n < |cs| && CategoryOk(cs, policies, d, n) && ReachedAt(cs, policies, n)
    ensures CategoryOk(cs, policies, Remember(d, cs[n], Entry(n, SignatureOf(cs[n]))), n + 1)
  {
    var d' := Remember(d, cs[n], Entry(n, SignatureOf(cs[n])));
    forall c, url | c in policies && !policies[c].crossCategory
      ensures FirstUrl(cs, policies, Some(c), url, n + 1, Get(d'.categoryUrls, (c, url)))
    {
      FirstUrlStep(cs, policies, Some(c), url, n, Get(d.categoryUrls, (c, url)));
    }
  }

  lemma RememberTitle(cs: seq<Candidate>, policies: Policies, d: Dicts, n: nat)
    requires n < |cs| && TitlesOk(cs, policies, d, n) && ReachedAt(cs, policies, n)
    ensures TitlesOk(cs, policies, Remember(d, cs[n], Entry(n, SignatureOf(cs[n]))), n + 1)
  {
    var d' := Remember(d, cs[n], Entry(n, SignatureOf(cs[n])));
    forall c, title ensures FirstTitle(cs, policies, c, title, n + 1, Get(d'.categoryTitles, (c, title))) {
      FirstTitleStep(cs, policies, c, title, n, Get(d.categoryTitles, (c, title)));
    }
  }

  // ------------------------------------------------------------ the loop

  /** The history stage for a candidate that matched nothing: open once, remember a failure. */
  method AskHistory(cs: seq<Candidate>, policies: Policies, h: History, n: nat, open: bool, failed: bool)
    returns (r: Result, nowOpen: bool, nowFailed: bool)
    requires n < |cs| && AsksHistory(cs, policies, n)
    requires (failed <==> HistoryLost(cs, policies, h, n)) && (open ==> h.opens)
    ensures r == ResultOf(cs, policies, h, n)
    ensures (nowFailed <==> HistoryLost(cs, policies, h, n + 1)) && (nowOpen ==> h.opens)
  {
    LostStep(cs, policies, h, n);
    nowOpen, nowFailed := open, failed;
    if !nowOpen && !nowFailed {
      if h.opens { nowOpen := true; } else { nowFailed := true; }
    }
    var s := PreStage(cs[n], n, policies);
    if nowFailed || !nowOpen {
      return AfterHistory(cs[n], n, s, Unavailable), nowOpen, nowFailed;
    }
    var l := h.lookup(n);
    if l.Unavailable? { nowFailed := true; }
    r := AfterHistory(cs[n], n, s, l);
  }

  /** The loop's state after n candidates: dictionaries, open history, sticky failure. */
  ghost predicate StateOk(cs: seq<Candidate>, policies: Policies, h: History, d: Dicts, open: bool, failed: bool, n: nat)
    requires n <= |cs|
  {
    DictsOk(cs, policies, d, n) && (failed <==> HistoryLost(cs, policies, h, n)) && (open ==> h.opens)
  }

  /** One turn of the loop. */
  method EvaluateOne(cs: seq<Candidate>, policies: Policies, h: History, n: nat, d: Dicts, open: bool, failed: bool)
    returns (r: Result, d': Dicts, nowOpen: bool, nowFailed: bool)
    requires n < |cs| && StateOk(cs, policies, h, d, open, failed, n)
    ensures r == ResultOf(cs, policies, h, n)
    ensures StateOk(cs, policies, h, d', nowOpen, nowFailed, n + 1)
  {
    d', nowOpen, nowFailed := d, open, failed;
    var c := cs[n];
    var s := PreStage(c, n, policies);
    LostStep(cs, policies, h, n);
    if s.Short? {
      ShortKeepsDicts(cs, policies, d, n);
      r := s.result;
      return;
    }
    var found := Consult(policies, d, c);
    ConsultFindsWinner(cs, policies, d, n);
    if found.Some? {
      MatchKeepsDicts(cs, policies, d, n);
      var verdict := if found.value.signature == SignatureOf(c) then SuppressBatchExact else PendingPossibleUpdate;
      r := Conclude(c, n, s, verdict, [MATCH], UrlOf(c).None?, None);
      return;
    }
    RememberKeepsDicts(cs, policies, d, n);
    d' := Remember(d, c, Entry(n, SignatureOf(c)));
    if UrlOf(c).None? {
      r := Conclude(c, n, s, PendingMissingEvidence, ["missing_url"], true, None);
      return;
    }
    r, nowOpen, nowFailed := AskHistory(cs, policies, h, n, open, failed);
  }

  method EvaluateCandidates(cs: seq<Candidate>, policies: Policies, h: History) returns (results: seq<Result>)
    ensures |results| == |cs|
    ensures forall n :: 0 <= n < |cs| ==> results[n] == ResultOf(cs, policies, h, n)
  {
    results := [];
    var d := Dicts(map[], map[], map[]);
    var historyOpen, historyFailed := false, false;
    for n := 0 to |cs|
      invariant |results| == n && forall k :: 0 <= k < n ==> results[k] == ResultOf(cs, policies, h, k)
      invariant StateOk(cs, policies, h, d, historyOpen, historyFailed, n)
    {
      var r;
      r, d, historyOpen, historyFailed := EvaluateOne(cs, policies, h, n, d, historyOpen, historyFailed);
      results := results + [r];
    }
  }

  lemma LostStep(cs: seq<Candidate>, policies: Policies, h: History, n: nat)
    requires n < |cs|
    ensures HistoryLost(cs, policies, h, n + 1) <==>
      HistoryLost(cs, policies, h, n) || (AsksHistory(cs, policies, n) && (!h.opens || h.lookup(n).Unavailable?))
  {
    if j :| 0 <= j < n + 1 && AsksHistory(cs, policies, j) && (!h.opens || h.lookup(j).Unavailable?) {
      if j < n { assert HistoryLost(cs, policies, h, n); }
    }
  }

  // ------------------------------------------------------------ consequences

  lemma ReachedOfPrefix(cs: seq<Candidate>, more: seq<Candidate>, policies: Policies, n: nat)
    requires n < |cs| && cs <= more
    ensures ReachedAt(more, policies, n) <==> ReachedAt(cs, policies, n)
  {
    assert more[n] == cs[n];
  }

  lemma NoLaterWinner(a: seq<Candidate>, b: seq<Candidate>, policies: Policies, n: nat)
    requires n < |a| && n < |b| && ReachedAt(a, policies, n) && ReachedAt(b, policies, n)
    requires forall j :: 0 <= j < n && Rival(a, policies, n, j) ==> Rival(b, policies, n, j)
    ensures var w, v := Winner(a, policies, n, 0), Winner(b, policies, n, 0); w.Some? ==> v.Some? && v.value <= w.value
  {
    var w := Winner(a, policies, n, 0);
    if w.Some? { assert Rival(b, policies, n, w.value); }
  }

  lemma WinnerOfPrefix(cs: seq<Candidate>, more: seq<Candidate>, policies: Policies, n: nat)
    requires n < |cs| && cs <= more && ReachedAt(cs, policies, n) && ReachedAt(more, policies, n)
    ensures Winner(more, policies, n, 0) == Winner(cs, policies, n, 0)
  {
    forall j | 0 <= j < n ensures Rival(more, policies, n, j) <==> Rival(cs, policies, n, j) {
      RivalOfPrefix(cs, more, policies, n, j);
    }
    NoLaterWinner(cs, more, policies, n);
    NoLaterWinner(more, cs, policies, n);
  }

  lemma RivalOfPrefix(cs: seq<Candidate>, more: seq<Candidate>, policies: Policies, n: nat, j: nat)
    requires j < n < |cs| && cs <= more && ReachedAt(cs, policies, n) && ReachedAt(more, policies, n)
    ensures Rival(more, policies, n, j) <==> Rival(cs, policies, n, j)
  {
    assert more[n] == cs[n] && more[j] == cs[j];
  }

  lemma AsksHistoryOfPrefix(cs: seq<Candidate>, more: seq<Candidate>, policies: Policies, n: nat)
    requires n < |cs| && cs <= more
    ensures AsksHistory(more, policies, n) <==> AsksHistory(cs, policies, n)
  {
    assert more[n] == cs[n];
    ReachedOfPrefix(cs, more, policies, n);
    if ReachedAt(cs, policies, n) { WinnerOfPrefix(cs, more, policies, n); }
  }

  /** No result depends on a later candidate. */
  lemma ResultsIgnoreTheFuture(cs: seq<Candidate>, more: seq<Candidate>, policies: Policies, h: History, n: nat)
    requires n < |cs| && cs <= more
    ensures ResultOf(more, policies, h, n) == ResultOf(cs, policies, h, n)
  {
    assert more[n] == cs[n];
    ReachedOfPrefix(cs, more, policies, n);
    if ReachedAt(cs, policies, n) {
      WinnerOfPrefix(cs, more, policies, n);
      var w := Winner(cs, policies, n, 0);
      if w.Some? { assert more[w.value] == cs[w.value]; }
      forall j | 0 <= j < n ensures AsksHistory(more, policies, j) <==> AsksHistory(cs, policies, j) {
        AsksHistoryOfPrefix(cs, more, policies, j);
      }
      assert HistoryLost(more, policies, h, n) <==> HistoryLost(cs, policies, h, n);
    }
  }

  lemma {:induction false} UniqueMembers(rs: seq<Reason>)
    ensures forall r :: r in Unique(rs) <==> r in rs
  {
    if rs != [] {
      UniqueMembers(rs[..|rs| - 1]);
      assert rs == rs[..|rs| - 1] + [rs[|rs| - 1]];
    }
  }

  const MATCH := "within_batch_exact"

  lemma RecencyGivesNoMatch(c: Candidate, now: int, policy: Policy)
    ensures MATCH !in JudgeRecency(c, now, policy).reasons
  {
    UniqueMembers(["ok_observed_fallback"] + [] + ["stale"]);
    UniqueMembers([] + [] + ["stale"]);
    UniqueMembers(["ok_observed_fallback"] + ["future_date_clamped"] + ["stale"]);
    UniqueMembers([] + ["future_date_clamped"] + ["stale"]);
  }

  /** No stage before the batch comparison gives the batch-match reason. */
  lemma PreStageGivesNoMatch(c: Candidate, n: nat, policies: Policies)
    ensures match PreStage(c, n, policies)
      case Short(result) => MATCH !in result.reasons
      case Reached(base, _, _, _) => MATCH !in base
  {
    UniqueMembers([SourceOf(c).1, "ok_blocked_source"]);
    if c.category in policies && c.evaluatedAt.Some? {
      var r := JudgeRecency(c, c.evaluatedAt.value, policies[c.category]);
      RecencyGivesNoMatch(c, c.evaluatedAt.value, policies[c.category]);
      UniqueMembers([SourceOf(c).1] + r.reasons);
    }
  }

  lemma NoMatchReason(s: Stage, extra: seq<Reason>)
    requires s.Reached? && MATCH !in s.base && MATCH !in extra
    ensures MATCH !in Unique(s.base + extra)
  {
    UniqueMembers(s.base + extra);
  }

  lemma AfterHistoryIsNoMatch(c: Candidate, n: nat, s: Stage, l: Lookup)
    requires s.Reached? && MATCH !in s.base
    ensures MATCH !in AfterHistory(c, n, s, l).reasons
  {
    match l
    case Unavailable => NoMatchReason(s, ["history_unavailable"]);
    case UrlMatch(article, same) =>
      NoMatchReason(s, ["history_exact_url"]);
      NoMatchReason(s, ["history_url_changed_content"]);
    case TitleMatch(article, same, titleOnly) =>
      NoMatchReason(s, ["history_recent_title"]);
      NoMatchReason(s, (if titleOnly then ["ok_title_only_low_confidence"] else []) + ["history_title_changed_snippet"]);
    case NoMatch => NoMatchReason(s, []);
  }

  /** A candidate is a batch match exactly when it reached the batch stage and an earlier one
      had reached it with its key. */
  lemma BatchMatchIffRival(cs: seq<Candidate>, policies: Policies, h: History, n: nat)
    requires n < |cs|
    ensures MATCH in ResultOf(cs, policies, h, n).reasons <==>
      ReachedAt(cs, policies, n) && exists j :: 0 <= j < n && Rival(cs, policies, n, j)
  {
    PreStageGivesNoMatch(cs[n], n, policies);
    if ReachedAt(cs, policies, n) { ReachedMatchIffRival(cs, policies, h, n); }
  }

  lemma ReachedMatchIffRival(cs: seq<Candidate>, policies: Policies, h: History, n: nat)
    requires n < |cs| && ReachedAt(cs, policies, n) && MATCH !in PreStage(cs[n], n, policies).base
    ensures MATCH in ResultOf(cs, policies, h, n).reasons <==> exists j :: 0 <= j < n && Rival(cs, policies, n, j)
  {
    var s, w := PreStage(cs[n], n, policies), Winner(cs, policies, n, 0);
    if w.Some? {
      assert Rival(cs, policies, n, w.value);
      UniqueMembers(s.base + [MATCH]);
      assert MATCH in s.base + [MATCH];
    } else if UrlOf(cs[n]).None? {
      NoMatchReason(s, ["missing_url"]);
    } else {
      AfterHistoryIsNoMatch(cs[n], n, s, Unavailable);
      AfterHistoryIsNoMatch(cs[n], n, s, h.lookup(n));
    }
  }

  /** And it is judged against the first of them. */
  lemma JudgedAgainstTheFirst(cs: seq<Candidate>, policies: Policies, h: History, n: nat, j: nat)
    requires j < n < |cs| && ReachedAt(cs, policies, n) && Rival(cs, policies, n, j)
    requires forall i :: 0 <= i < j ==> !Rival(cs, policies, n, i)
    ensures ResultOf(cs, policies, h, n).decision
      == if cs[j].title == cs[n].title && cs[j].snippet == cs[n].snippet then SuppressBatchExact else PendingPossibleUpdate
  {
  }

  /** Once the history has failed it stays failed: every later candidate that asks is pending. */
  lemma HistoryFailureIsSticky(cs: seq<Candidate>, policies: Policies, h: History, j: nat, n: nat)
    requires j <= n < |cs| && AsksHistory(cs, policies, j) && AsksHistory(cs, policies, n)
    requires ResultOf(cs, policies, h, j).decision == PendingHistoryUnavailable
    ensures ResultOf(cs, policies, h, n).decision == PendingHistoryUnavailable
  {
    if j < n {
      if h.opens && !h.lookup(j).Unavailable? {
        var i :| 0 <= i < j && AsksHistory(cs, policies, i) && (!h.opens || h.lookup(i).Unavailable?);
        assert HistoryLost(cs, policies, h, n);
      } else {
        assert HistoryLost(cs, policies, h, n);
      }
    }
  }

  // ------------------------------------------------------------ which decision

  /** The history fails for candidate n: it did for an earlier one, or does now. */
  ghost predicate HistoryFails(cs: seq<Candidate>, policies: Policies, h: History, n: nat)
    requires n < |cs|
  {
    !h.opens || h.lookup(n).Unavailable? || exists j :: 0 <= j < n && AsksHistory(cs, policies, j) && h.lookup(j).Unavailable?
  }

  /** The decision, the reason and the match each answer of the history gives to a candidate
      that asks: the same content suppresses, other content leaves a possible update. */
  lemma HistoryDecides(cs: seq<Candidate>, policies: Policies, h: History, n: nat)
    requires n < |cs| && AsksHistory(cs, policies, n)
    ensures var r := ResultOf(cs, policies, h, n);
      if HistoryFails(cs, policies, h, n) then r.decision == PendingHistoryUnavailable && "history_unavailable" in r.reasons && r.matched == None
      else match h.lookup(n)
        case UrlMatch(article, same) =>
          && r.matched == Some(article)
          && (same ==> r.decision == SuppressExactUrl && "history_exact_url" in r.reasons)
          && (!same ==> r.decision == PendingPossibleUpdate && "history_url_changed_content" in r.reasons)
        case TitleMatch(article, same, titleOnly) =>
          && r.matched == Some(article)
          && (same ==> r.decision == SuppressRecentTitle && "history_recent_title" in r.reasons)
          && (!same ==> r.decision == PendingPossibleUpdate && "history_title_changed_snippet" in r.reasons
                        && (titleOnly ==> "ok_title_only_low_confidence" in r.reasons))
        case NoMatch => r.decision == Keep && r.matched == None
        case Unavailable => false
  {
    var c, s := cs[n], PreStage(cs[n], n, policies);
    LostOrNot(cs, policies, h, n);
    AnswerDecides(c, n, s, Unavailable);
    AnswerDecides(c, n, s, h.lookup(n));
  }

  lemma LostOrNot(cs: seq<Candidate>, policies: Policies, h: History, n: nat)
    requires n < |cs| && AsksHistory(cs, policies, n)
    ensures HistoryFails(cs, policies, h, n) <==> HistoryLost(cs, policies, h, n) || !h.opens || h.lookup(n).Unavailable?
  {
    if j :| 0 <= j < n && AsksHistory(cs, policies, j) && (!h.opens || h.lookup(j).Unavailable?) {
      if h.opens { assert HistoryFails(cs, policies, h, n); }
    }
    if j :| 0 <= j < n && AsksHistory(cs, policies, j) && h.lookup(j).Unavailable? {
      assert HistoryLost(cs, policies, h, n);
    }
  }

  lemma LastReasonStays(base: seq<Reason>, extra: seq<Reason>)
    ensures forall r :: r in extra ==> r in Unique(base + extra)
  {
    UniqueMembers(base + extra);
    forall r | r in extra ensures r in base + extra {
      var k :| 0 <= k < |extra| && extra[k] == r;
      assert (base + extra)[|base| + k] == r;
    }
  }

  lemma AnswerDecides(c: Candidate, n: nat, s: Stage, l: Lookup)
    requires s.Reached?
    ensures var r := AfterHistory(c, n, s, l);
      match l
      case Unavailable => r.decision == PendingHistoryUnavailable && "history_unavailable" in r.reasons && r.matched == None
      case UrlMatch(article, same) =>
        && r.matched == Some(article)
        && (same ==> r.decision == SuppressExactUrl && "history_exact_url" in r.reasons)
        && (!same ==> r.decision == PendingPossibleUpdate && "history_url_changed_content" in r.reasons)
      case TitleMatch(article, same, titleOnly) =>
        && r.matched == Some(article)
        && (same ==> r.decision == SuppressRecentTitle && "history_recent_title" in r.reasons)
        && (!same ==> r.decision == PendingPossibleUpdate && "history_title_changed_snippet" in r.reasons)
        && (!same && titleOnly ==> "ok_title_only_low_confidence" in r.reasons)
      case NoMatch => r.decision == Keep && r.matched == None
  {
    match l
    case Unavailable => LastReasonStays(s.base, ["history_unavailable"]);
    case UrlMatch(_, _) =>
      LastReasonStays(s.base, ["history_exact_url"]);
      LastReasonStays(s.base, ["history_url_changed_content"]);
    case TitleMatch(_, _, titleOnly) =>
      LastReasonStays(s.base, ["history_recent_title"]);
      var extra := (if titleOnly then ["ok_title_only_low_confidence"] else []) + ["history_title_changed_snippet"];
      LastReasonStays(s.base, extra);
      assert extra[|extra| - 1] == "history_title_changed_snippet" && (titleOnly ==> extra[0] == "ok_title_only_low_confidence");
    case NoMatch =>
  }

  /** What the code asks of a candidate before its date and its batch, first failure first:
      a known category, a readable evaluation time, a usable URL, an allowed query group, and a
      source that is not blocked. */
  function Obstacle(c: Candidate, policies: Policies): Option<(Decision, Reason)> {
    if c.category !in policies then Some((PendingInvalidEvidence, "unknown_query_group"))
    else if c.evaluatedAt == None then Some((PendingInvalidEvidence, "invalid_date"))
    else match c.canonical
      case Malformed => Some((PendingInvalidEvidence, "malformed_canonical_url"))
      case Mismatched => Some((PendingInvalidEvidence, "canonical_mismatch"))
      case NotArticle => Some((DropNonArticleUrl, "non_article_url"))
      case Link(url) =>
        if c.group !in policies[c.category].groups then Some((PendingInvalidEvidence, "unknown_query_group"))
        else if url.Some? && (c.listing == BlockedExactly || c.listing == BlockedBelow) then Some((DropBlockedSource, "ok_blocked_source"))
        else None
  }

  /** A candidate with an obstacle gets its decision, whatever the others are; one without is
      stopped by its date alone; and one that passes both is compared with the batch. */
  lemma EarlyDecides(cs: seq<Candidate>, policies: Policies, h: History, n: nat)
    requires n < |cs|
    ensures var c, r := cs[n], ResultOf(cs, policies, h, n);
      match Obstacle(c, policies)
      case Some(o) => r.decision == o.0 && o.1 in r.reasons && !ReachedAt(cs, policies, n)
      case None =>
        && c.category in policies && c.evaluatedAt.Some?
        && (ReachedAt(cs, policies, n) <==> JudgeRecency(c, c.evaluatedAt.value, policies[c.category]).verdict.None?)
        && (!ReachedAt(cs, policies, n) ==> Some(r.decision) == JudgeRecency(c, c.evaluatedAt.value, policies[c.category]).verdict)
  {
    UniqueMembers([SourceOf(cs[n]).1, "ok_blocked_source"]);
    assert [SourceOf(cs[n]).1, "ok_blocked_source"][1] == "ok_blocked_source";
  }

  /** And which verdict its date gives: unreadable or too far ahead, missing, stale, or none. */
  lemma RecencyDecides(c: Candidate, now: int, policy: Policy)
    requires policy.recency >= 0
    ensures var date, verdict := JudgedDate(c, policy), JudgeRecency(c, now, policy).verdict;
      if !DatesReadable(c) then verdict == Some(PendingInvalidEvidence)
      else match date
        case None => verdict == Some(PendingMissingEvidence)
        case Some(d) =>
          verdict == if d > now + 6 * 60 * 60_000_000 then Some(PendingInvalidEvidence)
                     else if d < now - policy.recency then Some(DropStale) else None
  {
  }

  /** A candidate that reaches the batch stage first with its key and has no URL lacks evidence. */
  lemma UrlLessIsPending(cs: seq<Candidate>, policies: Policies, h: History, n: nat)
    requires n < |cs| && ReachedAt(cs, policies, n) && UrlOf(cs[n]).None?
    requires forall j :: 0 <= j < n ==> !Rival(cs, policies, n, j)
    ensures var r := ResultOf(cs, policies, h, n); r.decision == PendingMissingEvidence && r.auditOnly && "missing_url" in r.reasons
  {
    LastReasonStays(PreStage(cs[n], n, policies).base, ["missing_url"]);
  }
}
