/** What every result of the batch filter reports of its own candidate, whatever is decided:
    its place, the standing of its source, and its date. */
module FilterTerms {
  import opened UtcText
  import opened Filtering

  /** The standing of a source and the reason it leaves. */
  function Standing(c: Candidate): (Tier, Reason) {
    if c.canonical == Link(None) then (Unknown, "missing_url")
    else match c.listing
      case Unlisted => (Unknown, "ok_unknown_source")
      case NoHost => (Unknown, "malformed_canonical_url")
      case TrustListed => (Trusted, "ok_trusted_source")
      case AllowListed => (Allowed, "ok_keep")
      case BlockedExactly => (Blocked, "blocked_source_exact")
      case BlockedBelow => (Blocked, "blocked_source_subdomain")
  }

  /** The date a result shows, where it is from, how it stands, and the reasons it leaves. */
  predicate ShowsDate(c: Candidate, now: int, policy: Policy, published: Option<int>, evidence: string, status: string, reasons: seq<Reason>) {
    if !DatesReadable(c) then
      published == None && evidence == "unparseable" && status == "invalid" && "invalid_date" in reasons
    else match JudgedDate(c, policy)
      case None => published == None && evidence == "missing" && status == "missing" && "missing_date" in reasons
      case Some(d) =>
        && published == Some(d / 1_000_000)
        && evidence == (if c.publishedAt == NoDate then "observed_fallback" else if c.publishedEvidence == "source" then "source" else "metadata")
        && ShowsStanding(c, d, now, policy.recency, status, reasons)
  }

  predicate ShowsStanding(c: Candidate, d: int, now: int, recency: int, status: string, reasons: seq<Reason>) {
    if d > now + 21_600_000_000 then status == "invalid" && "future_date" in reasons && "invalid_date" in reasons
    else
      && (c.publishedAt == NoDate ==> "ok_observed_fallback" in reasons)
      && (if d > now then status == "future_clamped" && "future_date_clamped" in reasons
          else if d < now - recency then status == "stale" && "stale" in reasons
          else status == "fresh")
  }

  lemma LastIsThere(reasons: seq<Reason>, last: Reason)
    ensures last in Unique(reasons + [last]) && forall x :: x in reasons ==> x in Unique(reasons + [last])
  {
    UniqueMembers(reasons + [last]);
    assert (reasons + [last])[|reasons|] == last;
  }

  lemma StandingShows(c: Candidate, now: int, policy: Policy, d: int)
    requires policy.recency >= 0 && DatesReadable(c) && JudgedDate(c, policy) == Some(d)
    ensures var r := JudgeRecency(c, now, policy); ShowsStanding(c, d, now, policy.recency, r.status, r.reasons)
  {
    var reasons: seq<Reason> := if c.publishedAt == NoDate then ["ok_observed_fallback"] else [];
    LastIsThere(reasons, "stale");
    assert reasons + [] == reasons;
    if now < d <= now + FUTURE_TOLERANCE {
      assert (reasons + ["future_date_clamped"])[|reasons|] == "future_date_clamped";
      if c.publishedAt == NoDate { assert (reasons + ["future_date_clamped"])[0] == "ok_observed_fallback"; }
    }
  }

  lemma RecencyShows(c: Candidate, now: int, policy: Policy)
    requires policy.recency >= 0
    ensures var r := JudgeRecency(c, now, policy); ShowsDate(c, now, policy, r.published, r.evidence, r.status, r.reasons)
  {
    if DatesReadable(c) && JudgedDate(c, policy).Some? { StandingShows(c, now, policy, JudgedDate(c, policy).value); }
  }

  lemma ShownWithMore(c: Candidate, now: int, policy: Policy, published: Option<int>, evidence: string, status: string, reasons: seq<Reason>, more: seq<Reason>)
    requires ShowsDate(c, now, policy, published, evidence, status, reasons) && forall x :: x in reasons ==> x in more
    ensures ShowsDate(c, now, policy, published, evidence, status, more)
  {
  }

  /** The fields of a result that come from the candidate alone. */
  predicate Carries(r: Result, published: Option<int>, evidence: string, status: string, tier: Tier, base: seq<Reason>) {
    r.published == published && r.evidence == evidence && r.recency == status && r.tier == tier && forall x :: x in base ==> x in r.reasons
  }

  lemma ConcludeCarries(c: Candidate, n: nat, s: Stage, d: Decision, extra: seq<Reason>, audit: bool, matched: Option<string>)
    requires s.Reached?
    ensures Carries(Conclude(c, n, s, d, extra, audit, matched), s.published, s.evidence, s.recency, SourceOf(c).0, s.base)
  {
    UniqueMembers(s.base + extra);
  }

  lemma AnswerCarries(c: Candidate, n: nat, s: Stage, l: Lookup)
    requires s.Reached?
    ensures Carries(AfterHistory(c, n, s, l), s.published, s.evidence, s.recency, SourceOf(c).0, s.base)
  {
    match l
    case Unavailable => ConcludeCarries(c, n, s, PendingHistoryUnavailable, ["history_unavailable"], false, None);
    case UrlMatch(article, same) =>
      if same { ConcludeCarries(c, n, s, SuppressExactUrl, ["history_exact_url"], false, Some(article)); }
      else { ConcludeCarries(c, n, s, PendingPossibleUpdate, ["history_url_changed_content"], false, Some(article)); }
    case TitleMatch(article, same, titleOnly) =>
      if same { ConcludeCarries(c, n, s, SuppressRecentTitle, ["history_recent_title"], false, Some(article)); }
      else {
        ConcludeCarries(c, n, s, PendingPossibleUpdate,
          (if titleOnly then ["ok_title_only_low_confidence"] else []) + ["history_title_changed_snippet"], false, Some(article));
      }
    case NoMatch => ConcludeCarries(c, n, s, Keep, [], false, None);
  }

  lemma ReachedCarries(cs: seq<Candidate>, policies: Policies, h: History, n: nat)
    requires n < |cs| && ReachedAt(cs, policies, n)
    ensures var s := PreStage(cs[n], n, policies);
      Carries(ResultOf(cs, policies, h, n), s.published, s.evidence, s.recency, SourceOf(cs[n]).0, s.base)
  {
    var c, s := cs[n], PreStage(cs[n], n, policies);
    AnswerCarries(c, n, s, Unavailable);
    AnswerCarries(c, n, s, h.lookup(n));
    ConcludeCarries(c, n, s, PendingMissingEvidence, ["missing_url"], true, None);
    ConcludeCarries(c, n, s, SuppressBatchExact, [MATCH], UrlOf(c).None?, None);
    ConcludeCarries(c, n, s, PendingPossibleUpdate, [MATCH], UrlOf(c).None?, None);
  }

  /** Every candidate judged by its date carries what its source and its date gave. */
  lemma JudgedCarries(cs: seq<Candidate>, policies: Policies, h: History, n: nat)
    requires n < |cs| && Obstacle(cs[n], policies).None?
    ensures var c, r := cs[n], ResultOf(cs, policies, h, n);
      var judged := JudgeRecency(c, c.evaluatedAt.value, policies[c.category]);
      r.ordinal == n + 1 && Carries(r, judged.published, judged.evidence, judged.status, SourceOf(c).0, [SourceOf(c).1] + judged.reasons)
  {
    var c := cs[n];
    UniqueMembers([SourceOf(c).1] + JudgeRecency(c, c.evaluatedAt.value, policies[c.category]).reasons);
    if ReachedAt(cs, policies, n) { ReachedCarries(cs, policies, h, n); }
  }

  lemma SourceReads(c: Candidate)
    requires c.canonical.Link?
    ensures SourceOf(c) == Standing(c)
  {
  }

  /** So it reports its place in the batch, the standing of its source, and its date, whatever is
      decided. */
  lemma ResultReports(cs: seq<Candidate>, policies: Policies, h: History, n: nat)
    requires n < |cs| && Obstacle(cs[n], policies).None? && policies[cs[n].category].recency >= 0
    ensures var c, r := cs[n], ResultOf(cs, policies, h, n);
      && r.ordinal == n + 1 && r.tier == Standing(c).0 && Standing(c).1 in r.reasons
      && ShowsDate(c, c.evaluatedAt.value, policies[c.category], r.published, r.evidence, r.recency, r.reasons)
  {
    var c, r, policy := cs[n], ResultOf(cs, policies, h, n), policies[cs[n].category];
    var judged := JudgeRecency(c, c.evaluatedAt.value, policy);
    var all := [SourceOf(c).1] + judged.reasons;
    JudgedCarries(cs, policies, h, n);
    SourceReads(c);
    assert all[0] == Standing(c).1;
    RecencyShows(c, c.evaluatedAt.value, policy);
    ShownWithMore(c, c.evaluatedAt.value, policy, judged.published, judged.evidence, judged.status, judged.reasons, all);
    ShownWithMore(c, c.evaluatedAt.value, policy, r.published, r.evidence, r.recency, all, r.reasons);
  }

  /** The articles of two candidates are the same: by URL, across categories where the later one's
      policy says so; without URLs, by category and title. */
  predicate SameArticle(a: Candidate, b: Candidate, across: bool) {
    match (a.canonical, b.canonical)
    case (Link(Some(url)), Link(Some(other))) => url == other && (across || a.category == b.category)
    case (Link(None), _) => UrlOf(b) == None && a.category == b.category && a.title == b.title
    case _ => false
  }

  /** A candidate is a batch match exactly when it reached the batch stage and an earlier one that
      also did is the same article. */
  lemma BatchMatchReads(cs: seq<Candidate>, policies: Policies, h: History, n: nat)
    requires n < |cs|
    ensures "within_batch_exact" in ResultOf(cs, policies, h, n).reasons <==>
      ReachedAt(cs, policies, n) && cs[n].category in policies
      && exists j :: 0 <= j < n && ReachedAt(cs, policies, j) && SameArticle(cs[n], cs[j], policies[cs[n].category].crossCategory)
  {
    BatchMatchIffRival(cs, policies, h, n);
    if ReachedAt(cs, policies, n) {
      forall j | 0 <= j < n
        ensures Rival(cs, policies, n, j) <==>
          ReachedAt(cs, policies, j) && SameArticle(cs[n], cs[j], policies[cs[n].category].crossCategory)
      {
        RivalReads(cs, policies, n, j);
      }
    }
  }

  lemma RivalReads(cs: seq<Candidate>, policies: Policies, n: nat, j: nat)
    requires n < |cs| && j < |cs| && ReachedAt(cs, policies, n)
    ensures Rival(cs, policies, n, j) <==>
      ReachedAt(cs, policies, j) && SameArticle(cs[n], cs[j], policies[cs[n].category].crossCategory)
  {
  }
}
