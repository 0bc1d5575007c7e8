/** Lead qualification: the engagement score with its Hot/Warm/Cold tier and contact
    window, the spam and nonsense heuristics, keyword-based intent detection and the
    priority and actions of the routing payload (backend/python/lead_scoring.py). */
module LeadScoring {
  import opened Wrappers
  import opened Text

  // ---------------------------------------------------------------------------
  // Configuration and lead data
  // ---------------------------------------------------------------------------

  /** The tunable constants of the scorer (the `LeadScoringConfig` dataclass). */
  datatype Config = Config(
    baseScore: int,
    pagesThreshold: int,
    pagesBonus: int,
    timeThresholdSeconds: int,
    timeBonus: int,
    urgencyHighBonus: int,
    urgencyMediumBonus: int,
    spamPenalty: int,
    hotThreshold: int,
    warmThreshold: int)

  /** The dataclass defaults. */
  const DefaultConfig := Config(50, 5, 15, 300, 10, 10, 5, 20, 75, 50)

  /** The fields of a lead dictionary the scorer and router read; `None` is a missing key.
      Identity fields (name, email, phone, business type) only feed the free-text
      context block and are not modelled. */
  datatype Lead = Lead(
    pagesVisited: Option<seq<string>>,
    timeOnSiteSeconds: Option<int>,
    urgency: Option<string>,
    messageCount: Option<int>,
    messageFrequency: Option<real>,
    requirement: Option<string>)

  // The values read with `dict.get` and their defaults.
  function PagesCount(lead: Lead): nat { |lead.pagesVisited.GetOr([])| }
  function TimeOnSite(lead: Lead): int { lead.timeOnSiteSeconds.GetOr(0) }
  function UrgencyOf(lead: Lead): string { lead.urgency.GetOr("Low") }
  function MessageCount(lead: Lead): int { lead.messageCount.GetOr(0) }
  function MessageFrequency(lead: Lead): real { lead.messageFrequency.GetOr(0.0) }
  function Requirement(lead: Lead): string { lead.requirement.GetOr("") }

  datatype Tier = Hot | Warm | Cold

  /** The dictionary returned by `calculate_score`. */
  datatype ScoreResult = ScoreResult(
    score: int,
    qualification: Tier,
    breakdown: map<string, int>,
    contactWithinHours: int,
    pagesCount: int,
    timeOnSiteSeconds: int)

  // ---------------------------------------------------------------------------
  // Nonsense and spam heuristics
  // ---------------------------------------------------------------------------

  /** One of the characters `!@#$%^&*`. */
  predicate IsSpecial(c: char) {
    c == '!' || c == '@' || c == '#' || c == '$' || c == '%' || c == '^' || c == '&' || c == '*'
  }

  /** The number of special characters in `s`. */
  function SpecialCount(s: string): nat {
    if s == [] then 0 else (if IsSpecial(s[0]) then 1 else 0) + SpecialCount(s[1..])
  }

  /** `s.count(c)` for a single character `c`. */
  function Occurrences(c: char, s: string): nat {
    if s == [] then 0 else (if s[0] == c then 1 else 0) + Occurrences(c, s[1..])
  }

  predicate HasUpper(s: string) { s != [] && (IsAsciiUpper(s[0]) || HasUpper(s[1..])) }
  predicate HasLower(s: string) { s != [] && (IsAsciiLower(s[0]) || HasLower(s[1..])) }

  /** Python's `str.isupper()` on ASCII text: some upper-case letter and no lower-case one. */
  predicate IsUpper(s: string) { HasUpper(s) && !HasLower(s) }

  /** Some character fills more than 70% of the positions of `text`. */
  predicate Dominated(text: string) {
    exists i :: 0 <= i < |text| && 10 * Occurrences(text[i], text) > 7 * |text|
  }

  /** When a requirement text counts as nonsense: shorter than three characters;
      more than half special characters while upper case; or one character in more
      than 70% of the positions. The ratios are stated as integer cross-products. */
  predicate Nonsense(text: string) {
    |text| < 3
    || (2 * SpecialCount(text) > |text| && IsUpper(text))
    || Dominated(text)
  }

  /** `_is_nonsense`: the length test, the special-character count loop and the
      per-character dominance loop. */
  method IsNonsense(text: string) returns (nonsense: bool)
    ensures nonsense == Nonsense(text)
  {
    if |text| < 3 {
      return true;
    }
    var special := 0;
    var i := 0;
    while i < |text|
      invariant 0 <= i <= |text|
      invariant special + SpecialCount(text[i..]) == SpecialCount(text)
    {
      assert text[i..][1..] == text[i + 1..];
      if IsSpecial(text[i]) {
        special := special + 1;
      }
      i := i + 1;
    }
    if 2 * special > |text| && IsUpper(text) {
      return true;
    }
    i := 0;
    while i < |text|
      invariant 0 <= i <= |text|
      invariant forall j :: 0 <= j < i ==> 10 * Occurrences(text[j], text) <= 7 * |text|
    {
      if 10 * Occurrences(text[i], text) > 7 * |text| {
        return true;
      }
      i := i + 1;
    }
    return false;
  }

  /** The spam verdict: too fast, too many messages, or a nonsense requirement,
      each read with its default (0, 0 and the empty text). */
  predicate Spam(lead: Lead) {
    MessageFrequency(lead) > 0.5 || MessageCount(lead) > 20 || Nonsense(Requirement(lead))
  }

  /** `_is_spam`, checking the three signals in the source's order. */
  method IsSpam(lead: Lead) returns (spam: bool)
    ensures spam == Spam(lead)
  {
    if lead.messageFrequency.GetOr(0.0) > 0.5 {
      return true;
    }
    if lead.messageCount.GetOr(0) > 20 {
      return true;
    }
    spam := IsNonsense(lead.requirement.GetOr(""));
  }

  // ---------------------------------------------------------------------------
  // Score, tier and contact window
  // ---------------------------------------------------------------------------

  function PagesBonus(config: Config, lead: Lead): int {
    if PagesCount(lead) >= config.pagesThreshold then config.pagesBonus else 0
  }

  function TimeBonus(config: Config, lead: Lead): int {
    if TimeOnSite(lead) >= config.timeThresholdSeconds then config.timeBonus else 0
  }

  function UrgencyBonus(config: Config, lead: Lead): int {
    if UrgencyOf(lead) == "High" then config.urgencyHighBonus
    else if UrgencyOf(lead) == "Medium" then config.urgencyMediumBonus
    else 0
  }

  function SpamDeduction(config: Config, lead: Lead): int {
    if Spam(lead) then config.spamPenalty else 0
  }

  /** The score before clamping: the base plus every bonus whose condition holds,
      minus the penalty when the lead is spam. */
  function RawScore(config: Config, lead: Lead): int {
    config.baseScore + PagesBonus(config, lead) + TimeBonus(config, lead)
      + UrgencyBonus(config, lead) - SpamDeduction(config, lead)
  }

  /** `max(0, min(100, x))`. */
  function Clamp(x: int): (r: int)
    ensures 0 <= r <= 100
    ensures 0 <= x <= 100 ==> r == x
    ensures x < 0 ==> r == 0
    ensures x > 100 ==> r == 100
  {
    if x < 0 then 0 else if x > 100 then 100 else x
  }

  const AdjustmentKeys: set<string> := {"pages_bonus", "time_bonus", "urgency_bonus", "spam_penalty"}

  function Entry(breakdown: map<string, int>, key: string): int {
    if key in breakdown then breakdown[key] else 0
  }

  /** The sum of the adjustments recorded in a breakdown. */
  function BreakdownTotal(breakdown: map<string, int>): int {
    Entry(breakdown, "pages_bonus") + Entry(breakdown, "time_bonus")
      + Entry(breakdown, "urgency_bonus") + Entry(breakdown, "spam_penalty")
  }

  /** `_get_qualification`. */
  function Qualification(config: Config, score: int): (t: Tier)
    ensures t == Hot <==> score >= config.hotThreshold
    ensures t == Warm <==> config.warmThreshold <= score < config.hotThreshold
    ensures t == Cold <==> score < config.warmThreshold && score < config.hotThreshold
  {
    if score >= config.hotThreshold then Hot
    else if score >= config.warmThreshold then Warm
    else Cold
  }

  /** The contact window that belongs to each tier. */
  function TierHours(t: Tier): int {
    match t
    case Hot => 2
    case Warm => 24
    case Cold => 48
  }

  /** `_get_contact_window`: it uses the same thresholds as `_get_qualification`, so
      the window is always the one of the lead's tier. */
  function ContactWindow(config: Config, score: int): (hours: int)
    ensures hours == TierHours(Qualification(config, score))
  {
    if score >= config.hotThreshold then 2
    else if score >= config.warmThreshold then 24
    else 48
  }

  /** `calculate_score`: the running score and the breakdown dictionary are updated
      one adjustment at a time, then the score is clamped. */
  method CalculateScore(config: Config, lead: Lead) returns (r: ScoreResult)
    ensures 0 <= r.score <= 100
    ensures r.score == Clamp(RawScore(config, lead))
    ensures r.score == Clamp(config.baseScore + BreakdownTotal(r.breakdown))
    ensures r.breakdown.Keys <= AdjustmentKeys
    ensures ("pages_bonus" in r.breakdown) == (PagesCount(lead) >= config.pagesThreshold)
    ensures "pages_bonus" in r.breakdown ==> r.breakdown["pages_bonus"] == config.pagesBonus
    ensures ("time_bonus" in r.breakdown) == (TimeOnSite(lead) >= config.timeThresholdSeconds)
    ensures "time_bonus" in r.breakdown ==> r.breakdown["time_bonus"] == config.timeBonus
    ensures ("urgency_bonus" in r.breakdown) == (UrgencyOf(lead) == "High" || UrgencyOf(lead) == "Medium")
    ensures "urgency_bonus" in r.breakdown ==>
              r.breakdown["urgency_bonus"]
              == if UrgencyOf(lead) == "High" then config.urgencyHighBonus else config.urgencyMediumBonus
    ensures ("spam_penalty" in r.breakdown) == Spam(lead)
    ensures "spam_penalty" in r.breakdown ==> r.breakdown["spam_penalty"] == -config.spamPenalty
    ensures r.qualification == Qualification(config, r.score)
    ensures r.contactWithinHours == ContactWindow(config, r.score)
    ensures r.pagesCount == PagesCount(lead) && r.timeOnSiteSeconds == TimeOnSite(lead)
  {
    var score := config.baseScore;
    var breakdown: map<string, int> := map[];

    var pagesVisited := |lead.pagesVisited.GetOr([])|;
    if pagesVisited >= config.pagesThreshold {
      score := score + config.pagesBonus;
      breakdown := breakdown["pages_bonus" := config.pagesBonus];
    }

    var timeOnSite := lead.timeOnSiteSeconds.GetOr(0);
    if timeOnSite >= config.timeThresholdSeconds {
      score := score + config.timeBonus;
      breakdown := breakdown["time_bonus" := config.timeBonus];
    }

    var urgency := lead.urgency.GetOr("Low");
    if urgency == "High" {
      score := score + config.urgencyHighBonus;
      breakdown := breakdown["urgency_bonus" := config.urgencyHighBonus];
    } else if urgency == "Medium" {
      score := score + config.urgencyMediumBonus;
      breakdown := breakdown["urgency_bonus" := config.urgencyMediumBonus];
    }

    var spam := IsSpam(lead);
    if spam {
      score := score - config.spamPenalty;
      breakdown := breakdown["spam_penalty" := -config.spamPenalty];
    }

    score := if score < 0 then 0 else if score > 100 then 100 else score;

    r := ScoreResult(score, Qualification(config, score), breakdown,
                     ContactWindow(config, score), pagesVisited, timeOnSite);
  }

  // ---------------------------------------------------------------------------
  // Properties of the score
  // ---------------------------------------------------------------------------

  function Rank(t: Tier): nat {
    match t
    case Cold => 0
    case Warm => 1
    case Hot => 2
  }

  /** A higher score never gets a lower tier. */
  lemma QualificationMonotone(config: Config, low: int, high: int)
    requires low <= high
    ensures Rank(Qualification(config, low)) <= Rank(Qualification(config, high))
  {
  }

  /** More pages or more time on site, everything else equal, never lowers the tier,
      as long as the configured bonuses are not negative. */
  lemma MoreEngagementNeverLowersTier(config: Config, lead: Lead, more: Lead)
    requires config.pagesBonus >= 0 && config.timeBonus >= 0
    requires PagesCount(lead) <= PagesCount(more) && TimeOnSite(lead) <= TimeOnSite(more)
    requires more.urgency == lead.urgency && more.messageCount == lead.messageCount
    requires more.messageFrequency == lead.messageFrequency && more.requirement == lead.requirement
    ensures RawScore(config, lead) <= RawScore(config, more)
    ensures Rank(Qualification(config, Clamp(RawScore(config, lead))))
            <= Rank(Qualification(config, Clamp(RawScore(config, more))))
  {
    QualificationMonotone(config, Clamp(RawScore(config, lead)), Clamp(RawScore(config, more)));
  }

  /** The order of the urgency levels: High above Medium above anything else, a
      missing urgency (read as "Low") included. */
  function UrgencyLevel(urgency: string): nat {
    if urgency == "High" then 2 else if urgency == "Medium" then 1 else 0
  }

  /** A more urgent lead, everything else equal, never scores lower nor gets a lower
      tier, as long as the Medium bonus lies between zero and the High bonus. */
  lemma MoreUrgencyNeverLowersTier(config: Config, lead: Lead, more: Lead)
    requires 0 <= config.urgencyMediumBonus <= config.urgencyHighBonus
    requires UrgencyLevel(UrgencyOf(lead)) <= UrgencyLevel(UrgencyOf(more))
    requires more.pagesVisited == lead.pagesVisited
    requires more.timeOnSiteSeconds == lead.timeOnSiteSeconds && more.messageCount == lead.messageCount
    requires more.messageFrequency == lead.messageFrequency && more.requirement == lead.requirement
    ensures RawScore(config, lead) <= RawScore(config, more)
    ensures Rank(Qualification(config, Clamp(RawScore(config, lead))))
            <= Rank(Qualification(config, Clamp(RawScore(config, more))))
  {
    assert UrgencyBonus(config, lead) <= UrgencyBonus(config, more);
    QualificationMonotone(config, Clamp(RawScore(config, lead)), Clamp(RawScore(config, more)));
  }

  /** A missing requirement reads as the empty text, which is nonsense, so the lead is spam. */
  lemma MissingRequirementIsSpam(lead: Lead)
    requires lead.requirement == None
    ensures Spam(lead)
  {
  }

  /** A lead is spam only through one of the three signals. */
  lemma SpamNeedsASignal(lead: Lead)
    requires MessageFrequency(lead) <= 0.5 && MessageCount(lead) <= 20
    ensures Spam(lead) == Nonsense(Requirement(lead))
  {
  }

  /** Adjacent pairs `s[0],s[1]`, `s[2],s[3]`, ... hold two different characters. */
  predicate PairsDiffer(s: string) {
    |s| < 2 || (s[0] != s[1] && PairsDiffer(s[2..]))
  }

  lemma {:induction false} PairsDifferAppend(a: string, b: string)
    requires |a| % 2 == 0 && PairsDiffer(a) && PairsDiffer(b)
    ensures PairsDiffer(a + b)
  {
    if |a| >= 2 {
      assert (a + b)[2..] == a[2..] + b;
      PairsDifferAppend(a[2..], b);
    } else {
      assert a + b == b;
    }
  }

  /** When the adjacent pairs differ, no character fills more than half the text
      (rounded up), so the text is not dominated by one character. */
  lemma {:induction false} PairsDifferBound(c: char, s: string)
    requires PairsDiffer(s)
    ensures 2 * Occurrences(c, s) <= |s| + 1
  {
    if |s| >= 2 {
      assert s[1..][1..] == s[2..];
      PairsDifferBound(c, s[2..]);
    }
  }

  /** The requirement text of the worked example. */
  const SampleRequirement := "Need WhatsApp bot for customer support"

  /** The worked example: 5 pages, 420 seconds, High urgency, 3 messages at 0.01 per second. */
  const SampleLead := Lead(
    Some(["/pricing", "/features/whatsapp", "/case-studies", "/faq", "/integration"]),
    Some(420), Some("High"), Some(3), Some(0.01), Some(SampleRequirement))

  /** The example requirement, spelled as chunks of even length. */
  const SampleRequirementChunks := "Need Wha" + ("tsApp bo" + ("t for cu" + ("stomer s" + "upport")))

  lemma SampleRequirementPairsDiffer()
    ensures PairsDiffer(SampleRequirementChunks)
  {
    var d := "upport";
    var c := "stomer s" + d;
    var b := "t for cu" + c;
    var a := "tsApp bo" + b;
    PairsDifferAppend("stomer s", d);
    PairsDifferAppend("t for cu", c);
    PairsDifferAppend("tsApp bo", b);
    PairsDifferAppend("Need Wha", a);
  }

  /** A text of three or more characters whose adjacent pairs differ is not
      dominated by one character. */
  lemma PairsDifferNotDominated(s: string)
    requires |s| >= 3 && PairsDiffer(s)
    ensures !Dominated(s)
  {
    forall i | 0 <= i < |s|
      ensures 10 * Occurrences(s[i], s) <= 7 * |s|
    {
      PairsDifferBound(s[i], s);
    }
  }

  /** No character dominates the example requirement. */
  lemma SampleRequirementNotDominated()
    ensures !Dominated("Need WhatsApp bot for customer support")
  {
    assert "Need WhatsApp bot for customer support" == SampleRequirementChunks;
    SampleRequirementPairsDiffer();
    PairsDifferNotDominated(SampleRequirementChunks);
  }

  /** The example requirement is a sensible text. */
  lemma SampleRequirementIsNotNonsense()
    ensures !Nonsense(SampleRequirement)
  {
    assert SampleRequirement == "Need WhatsApp bot for customer support";
    assert HasLower(SampleRequirement);
    SampleRequirementNotDominated();
  }

  /** The worked example scores 50 + 15 + 10 + 10 = 85: Hot, contact within 2 hours. */
  lemma SampleLeadIsHot()
    ensures PagesCount(SampleLead) == 5 && TimeOnSite(SampleLead) == 420 && UrgencyOf(SampleLead) == "High"
    ensures !Spam(SampleLead)
    ensures RawScore(DefaultConfig, SampleLead) == 85
    ensures Clamp(RawScore(DefaultConfig, SampleLead)) == 85
    ensures Qualification(DefaultConfig, 85) == Hot
    ensures ContactWindow(DefaultConfig, 85) == 2
  {
    SampleRequirementIsNotNonsense();
  }

  /** "HELP!!!!!!" is upper case with six special characters out of ten: nonsense. */
  lemma ShoutedHelpIsNonsense()
    ensures Nonsense("HELP!!!!!!")
  {
    assert SpecialCount("HELP!!!!!!") == 6;
    assert IsUpper("HELP!!!!!!");
  }

  /** The same lead shouting "HELP!!!!!!" is spam and loses the 20-point penalty. */
  lemma ShoutedRequirementCostsPenalty()
    ensures var shouting := SampleLead.(requirement := Some("HELP!!!!!!"));
            Spam(shouting)
            && RawScore(DefaultConfig, shouting) == RawScore(DefaultConfig, SampleLead) - 20
            && Qualification(DefaultConfig, Clamp(RawScore(DefaultConfig, shouting))) == Warm
  {
    ShoutedHelpIsNonsense();
    SampleLeadIsHot();
    NonsenseRequirementCostsPenalty(DefaultConfig, SampleLead, "HELP!!!!!!");
    assert Clamp(65) == 65;
  }

  /** Replacing the requirement of a lead that is not spam by a nonsense text makes it
      spam and costs exactly the spam penalty; no bonus changes. */
  lemma NonsenseRequirementCostsPenalty(config: Config, lead: Lead, text: string)
    requires !Spam(lead) && Nonsense(text)
    ensures Spam(lead.(requirement := Some(text)))
    ensures RawScore(config, lead.(requirement := Some(text))) == RawScore(config, lead) - config.spamPenalty
  {
  }

  // ---------------------------------------------------------------------------
  // Intent detection
  // ---------------------------------------------------------------------------

  datatype Team = Sales | Billing | Support | Technical | FAQ

  /** The teams in the insertion order of the `KEYWORDS` dictionary. */
  const TeamOrder: seq<Team> := [Sales, Billing, Support, Technical, FAQ]

  /** A team's position in `TeamOrder`. */
  function Index(t: Team): (i: nat)
    ensures i < |TeamOrder| && TeamOrder[i] == t
  {
    match t
    case Sales => 0
    case Billing => 1
    case Support => 2
    case Technical => 3
    case FAQ => 4
  }

  /** The `KEYWORDS` table, duplicates included ('issue' twice for Support). */
  function Keywords(t: Team): seq<string> {
    match t
    case Sales => ["need", "pricing", "quote", "demo", "features", "interested",
                   "cost", "price", "buy", "purchase", "subscription", "plan",
                   "solution", "help me set up"]
    case Billing => ["invoice", "payment", "refund", "charge", "subscription",
                     "bill", "credit card", "transaction", "receipt", "pricing"]
    case Support => ["error", "bug", "not working", "issue", "problem", "help",
                     "broken", "crash", "failing", "stopped", "down", "issue"]
    case Technical => ["integration", "api", "setup", "deploy", "crash", "timeout",
                       "database", "server", "logs", "webhook", "authentication",
                       "ssl", "certificate", "connection"]
    case FAQ => ["how", "where", "what", "can i", "do you", "why", "when"]
  }

  /** Every keyword starts with a lower-case letter. */
  lemma KeywordsStartWithLetter(t: Team, k: nat)
    requires k < |Keywords(t)|
    ensures |Keywords(t)[k]| > 0 && IsAsciiLower(Keywords(t)[k][0])
  {
  }

  /** How many entries of `keywords` (each entry counted) occur in `text`. */
  function MatchCount(keywords: seq<string>, text: string): nat {
    if keywords == [] then 0
    else MatchCount(keywords[..|keywords| - 1], text)
         + (if Contains(text, keywords[|keywords| - 1]) then 1 else 0)
  }

  /** The entries of `keywords` that occur in `text`, in order. */
  function Matching(keywords: seq<string>, text: string): seq<string> {
    if keywords == [] then []
    else Matching(keywords[..|keywords| - 1], text)
         + (if Contains(text, keywords[|keywords| - 1]) then [keywords[|keywords| - 1]] else [])
  }

  /** The matched keywords are exactly as many as the match count, each one an entry
      of the list that occurs in the text. */
  lemma {:induction false} MatchingAgreesWithCount(keywords: seq<string>, text: string)
    ensures |Matching(keywords, text)| == MatchCount(keywords, text)
    ensures forall k :: k in Matching(keywords, text) ==> k in keywords && Contains(text, k)
  {
    if keywords != [] {
      var init := keywords[..|keywords| - 1];
      MatchingAgreesWithCount(init, text);
      assert forall k :: k in init ==> k in keywords;
    }
  }

  /** A positive count means some entry of the list occurs in the text. */
  lemma {:induction false} PositiveCountHasWitness(keywords: seq<string>, text: string) returns (k: nat)
    requires MatchCount(keywords, text) > 0
    ensures k < |keywords| && Contains(text, keywords[k])
  {
    var init := keywords[..|keywords| - 1];
    if Contains(text, keywords[|keywords| - 1]) {
      k := |keywords| - 1;
    } else {
      k := PositiveCountHasWitness(init, text);
    }
  }

  /** A list none of whose entries occurs in the text has no match. */
  lemma {:induction false} MatchCountAllAbsent(keywords: seq<string>, text: string)
    requires forall q :: 0 <= q < |keywords| ==> !Contains(text, keywords[q])
    ensures MatchCount(keywords, text) == 0
  {
    if keywords != [] {
      MatchCountAllAbsent(keywords[..|keywords| - 1], text);
    }
  }

  /** A list with exactly one entry occurring in the text has one match. */
  lemma {:induction false} MatchCountOnlyOne(keywords: seq<string>, text: string, m: nat)
    requires m < |keywords| && Contains(text, keywords[m])
    requires forall q :: 0 <= q < |keywords| && q != m ==> !Contains(text, keywords[q])
    ensures MatchCount(keywords, text) == 1
  {
    var init := keywords[..|keywords| - 1];
    if m == |keywords| - 1 {
      MatchCountAllAbsent(init, text);
    } else {
      MatchCountOnlyOne(init, text, m);
    }
  }

  function TeamScore(t: Team, lower: string): nat {
    MatchCount(Keywords(t), lower)
  }

  /** Each team's count, in `TeamOrder` order. */
  function TeamScores(lower: string): (c: seq<nat>)
    ensures |c| == |TeamOrder|
    ensures forall i :: 0 <= i < |TeamOrder| ==> c[i] == TeamScore(TeamOrder[i], lower)
  {
    seq(|TeamOrder|, i requires 0 <= i < |TeamOrder| => TeamScore(TeamOrder[i], lower))
  }

  /** `sum(1 for keyword in keywords if keyword in message_lower)`. */
  method CountMatches(keywords: seq<string>, lower: string) returns (matches: nat)
    ensures matches == MatchCount(keywords, lower)
  {
    matches := 0;
    for k := 0 to |keywords|
      invariant matches == MatchCount(keywords[..k], lower)
    {
      assert keywords[..k + 1][..k] == keywords[..k];
      if Contains(lower, keywords[k]) {
        matches := matches + 1;
      }
    }
    assert keywords[..|keywords|] == keywords;
  }

  /** The `intent_scores` dictionary after the first `n` teams, given each team's
      count: the teams with a positive count, in insertion order. */
  function PositiveScores(counts: seq<nat>, n: nat): seq<(Team, nat)>
    requires n <= |counts| == |TeamOrder|
  {
    if n == 0 then []
    else if counts[n - 1] > 0 then PositiveScores(counts, n - 1) + [(TeamOrder[n - 1], counts[n - 1])]
    else PositiveScores(counts, n - 1)
  }

  /** Every entry of the dictionary after `n` teams is one of those teams with its
      own, positive, count. */
  lemma {:induction false} PositiveScoresEntries(counts: seq<nat>, n: nat)
    requires n <= |counts| == |TeamOrder|
    ensures forall a :: 0 <= a < |PositiveScores(counts, n)| ==>
              Index(PositiveScores(counts, n)[a].0) < n
              && PositiveScores(counts, n)[a].1 == counts[Index(PositiveScores(counts, n)[a].0)] > 0
  {
    if n > 0 {
      PositiveScoresEntries(counts, n - 1);
      assert Index(TeamOrder[n - 1]) == n - 1;
    }
  }

  /** The dictionary keeps the teams in `TeamOrder` order. */
  lemma {:induction false} PositiveScoresOrdered(counts: seq<nat>, n: nat)
    requires n <= |counts| == |TeamOrder|
    ensures forall a, b :: 0 <= a < b < |PositiveScores(counts, n)| ==>
              Index(PositiveScores(counts, n)[a].0) < Index(PositiveScores(counts, n)[b].0)
  {
    if n > 0 {
      PositiveScoresOrdered(counts, n - 1);
      PositiveScoresEntries(counts, n - 1);
      assert Index(TeamOrder[n - 1]) == n - 1;
    }
  }

  /** Every team among the first `n` with a positive count has an entry. */
  lemma {:induction false} PositiveScoresComplete(counts: seq<nat>, i: nat, n: nat) returns (a: nat)
    requires n <= |counts| == |TeamOrder| && i < n && counts[i] > 0
    ensures a < |PositiveScores(counts, n)| && PositiveScores(counts, n)[a].0 == TeamOrder[i]
  {
    var rest := PositiveScores(counts, n - 1);
    if i < n - 1 {
      a := PositiveScoresComplete(counts, i, n - 1);
      assert PositiveScores(counts, n)[a] == rest[a];
    } else {
      a := |rest|;
    }
  }

  /** One entry of the dictionary after `n` teams: a team among them with its own count. */
  lemma PositiveScoresEntryAt(counts: seq<nat>, n: nat, a: nat)
    requires n <= |counts| == |TeamOrder| && a < |PositiveScores(counts, n)|
    ensures Index(PositiveScores(counts, n)[a].0) < n
    ensures PositiveScores(counts, n)[a].1 == counts[Index(PositiveScores(counts, n)[a].0)]
  {
    PositiveScoresEntries(counts, n);
  }

  /** Two entries of the dictionary come in `TeamOrder` order. */
  lemma PositiveScoresOrderedAt(counts: seq<nat>, n: nat, a: nat, b: nat)
    requires n <= |counts| == |TeamOrder| && a < b < |PositiveScores(counts, n)|
    ensures Index(PositiveScores(counts, n)[a].0) < Index(PositiveScores(counts, n)[b].0)
  {
    PositiveScoresOrdered(counts, n);
  }

  /** Python's `max(d, key=d.get)` over an insertion-ordered dictionary: the position
      of the first entry with the largest value. */
  function FirstMaxPos(s: seq<(Team, nat)>): (p: nat)
    requires |s| > 0
    ensures p < |s|
    ensures forall a :: 0 <= a < |s| ==> s[a].1 <= s[p].1
    ensures forall a :: 0 <= a < p ==> s[a].1 < s[p].1
  {
    if |s| == 1 then 0
    else
      var q := FirstMaxPos(s[..|s| - 1]);
      if s[|s| - 1].1 > s[q].1 then |s| - 1 else q
  }

  /** `max(intent_scores, key=intent_scores.get)` over the full dictionary. */
  function Winner(counts: seq<nat>): Team
    requires |counts| == |TeamOrder| && |PositiveScores(counts, |TeamOrder|)| > 0
  {
    var s := PositiveScores(counts, |TeamOrder|);
    s[FirstMaxPos(s)].0
  }

  /** No team among the first `n` has a larger count than the team `max` picks from
      their dictionary. */
  lemma WinnerAtLeast(counts: seq<nat>, n: nat, i: nat)
    requires n <= |counts| == |TeamOrder| && |PositiveScores(counts, n)| > 0 && i < n
    ensures var s := PositiveScores(counts, n);
            counts[i] <= counts[Index(s[FirstMaxPos(s)].0)]
  {
    var s := PositiveScores(counts, n);
    var p := FirstMaxPos(s);
    PositiveScoresEntryAt(counts, n, p);
    if counts[i] > 0 {
      var a := PositiveScoresComplete(counts, i, n);
      assert Index(s[a].0) == i by { assert Index(TeamOrder[i]) == i; }
      PositiveScoresEntryAt(counts, n, a);
    }
  }

  /** No team among the first `n` that comes before the team `max` picks has a count
      as large as its count. */
  lemma WinnerBeatsEarlier(counts: seq<nat>, n: nat, i: nat)
    requires n <= |counts| == |TeamOrder| && |PositiveScores(counts, n)| > 0 && i < n
    ensures var s := PositiveScores(counts, n);
            var w := Index(s[FirstMaxPos(s)].0);
            i < w ==> counts[i] < counts[w]
  {
    var s := PositiveScores(counts, n);
    var p := FirstMaxPos(s);
    var w := Index(s[p].0);
    PositiveScoresEntryAt(counts, n, p);
    if counts[i] > 0 && i < w {
      var a := PositiveScoresComplete(counts, i, n);
      assert Index(s[a].0) == i by { assert Index(TeamOrder[i]) == i; }
      PositiveScoresEntryAt(counts, n, a);
      if p < a {
        PositiveScoresOrderedAt(counts, n, p, a);
      }
    }
  }

  /** No team among the first `n` has a larger count than the team `max` picks from
      their dictionary, and none before it has an equal one. */
  lemma WinnerBeats(counts: seq<nat>, n: nat, i: nat)
    requires n <= |counts| == |TeamOrder| && |PositiveScores(counts, n)| > 0 && i < n
    ensures var s := PositiveScores(counts, n);
            var w := Index(s[FirstMaxPos(s)].0);
            counts[i] <= counts[w] && (i < w ==> counts[i] < counts[w])
  {
    WinnerAtLeast(counts, n, i);
    WinnerBeatsEarlier(counts, n, i);
  }

  /** The team `max` picks has a positive count, the largest count, and a strictly
      larger count than every team before it in `TeamOrder`: ties go to the earliest
      of Sales, Billing, Support, Technical, FAQ. */
  lemma WinnerIsFirstMaximal(counts: seq<nat>)
    requires |counts| == |TeamOrder| && |PositiveScores(counts, |TeamOrder|)| > 0
    ensures counts[Index(Winner(counts))] > 0
    ensures forall i :: 0 <= i < |counts| ==> counts[i] <= counts[Index(Winner(counts))]
    ensures forall i :: 0 <= i < Index(Winner(counts)) ==> counts[i] < counts[Index(Winner(counts))]
  {
    PositiveScoresEntries(counts, |TeamOrder|);
    forall i | 0 <= i < |counts| {
      WinnerBeats(counts, |TeamOrder|, i);
    }
  }

  /** The dictionary stays empty exactly when no team has a positive count. */
  lemma NoScoresMeansNoMatch(counts: seq<nat>)
    requires |counts| == |TeamOrder|
    ensures (|PositiveScores(counts, |TeamOrder|)| == 0)
            == (forall i :: 0 <= i < |counts| ==> counts[i] == 0)
  {
    var s := PositiveScores(counts, |TeamOrder|);
    PositiveScoresEntries(counts, |TeamOrder|);
    if |s| == 0 {
      forall i | 0 <= i < |counts| && counts[i] > 0
        ensures false
      {
        var a := PositiveScoresComplete(counts, i, |TeamOrder|);
      }
    } else {
      assert counts[Index(s[0].0)] > 0;
    }
  }

  /** The keywords matched by the teams of a dictionary, team by team. */
  function MatchedOver(s: seq<(Team, nat)>, lower: string): seq<string> {
    if s == [] then []
    else MatchedOver(s[..|s| - 1], lower) + Matching(Keywords(s[|s| - 1].0), lower)
  }

  /** The keywords of all teams that occur in the text, in table order. */
  function MatchedKeywords(lower: string, n: nat): seq<string>
    requires n <= |TeamOrder|
  {
    if n == 0 then []
    else MatchedKeywords(lower, n - 1) + Matching(Keywords(TeamOrder[n - 1]), lower)
  }

  /** Walking only the teams with a positive count collects the same keywords as
      walking every team: a team with no match contributes none. */
  lemma {:induction false} MatchedOverPositiveIsAll(counts: seq<nat>, lower: string, n: nat)
    requires n <= |counts| == |TeamOrder|
    requires forall i :: 0 <= i < |counts| ==> counts[i] == TeamScore(TeamOrder[i], lower)
    ensures MatchedOver(PositiveScores(counts, n), lower) == MatchedKeywords(lower, n)
  {
    if n > 0 {
      MatchedOverPositiveIsAll(counts, lower, n - 1);
      var t := TeamOrder[n - 1];
      var rest := PositiveScores(counts, n - 1);
      if counts[n - 1] > 0 {
        assert (rest + [(t, counts[n - 1])])[..|rest|] == rest;
      } else {
        MatchingAgreesWithCount(Keywords(t), lower);
        assert MatchedKeywords(lower, n) == MatchedKeywords(lower, n - 1) + [];
      }
    }
  }

  /** The dictionary returned by `detect`; `allScores` is absent when nothing matched. */
  datatype Intent = Intent(
    team: Team,
    confidence: real,
    allScores: Option<seq<(Team, nat)>>,
    matchedKeywords: seq<string>)

  function MinReal(a: real, b: real): real { if a <= b then a else b }

  /** What `detect` promises for a message. With no keyword of any team in the
      lower-cased message: Support with confidence 0.5 and no keywords. Otherwise the
      team with the most matches, ties to the earliest team, with confidence
      min(1, matches / words). */
  predicate IsDetection(message: string, r: Intent) {
    var lower := Lower(message);
    if forall t :: TeamScore(t, lower) == 0 then
      r == Intent(Support, 0.5, None, [])
    else
      TeamScore(r.team, lower) > 0
      && (forall t :: TeamScore(t, lower) <= TeamScore(r.team, lower))
      && (forall t :: Index(t) < Index(r.team) ==> TeamScore(t, lower) < TeamScore(r.team, lower))
      && WordCount(lower) > 0
      && r.confidence == MinReal(1.0, TeamScore(r.team, lower) as real / WordCount(lower) as real)
      && r.allScores == Some(PositiveScores(TeamScores(lower), |TeamOrder|))
      && r.matchedKeywords == MatchedKeywords(lower, |TeamOrder|)
  }

  /** The dictionary stays empty exactly when no team has a keyword in the text. */
  lemma EmptyIffNoMatch(lower: string)
    ensures (|PositiveScores(TeamScores(lower), |TeamOrder|)| == 0)
            == (forall t :: TeamScore(t, lower) == 0)
  {
    var counts := TeamScores(lower);
    NoScoresMeansNoMatch(counts);
    if forall t :: TeamScore(t, lower) == 0 {
      forall i | 0 <= i < |counts|
        ensures counts[i] == 0
      {
        assert counts[i] == TeamScore(TeamOrder[i], lower);
      }
    } else {
      var t :| TeamScore(t, lower) > 0;
      assert counts[Index(t)] > 0;
    }
  }

  /** Team by team: the team `max` picks matches, matches most, and beats every
      team before it; and the message has at least one word, since a matched keyword
      starts one. */
  lemma WinnerMatchesMost(lower: string)
    requires |PositiveScores(TeamScores(lower), |TeamOrder|)| > 0
    ensures TeamScore(Winner(TeamScores(lower)), lower) > 0
    ensures forall t :: TeamScore(t, lower) <= TeamScore(Winner(TeamScores(lower)), lower)
    ensures forall t :: Index(t) < Index(Winner(TeamScores(lower))) ==>
              TeamScore(t, lower) < TeamScore(Winner(TeamScores(lower)), lower)
    ensures WordCount(lower) > 0
  {
    var counts := TeamScores(lower);
    WinnerIsFirstMaximal(counts);
    var w := Winner(counts);
    assert counts[Index(w)] == TeamScore(w, lower);
    forall t
      ensures TeamScore(t, lower) <= TeamScore(w, lower)
      ensures Index(t) < Index(w) ==> TeamScore(t, lower) < TeamScore(w, lower)
    {
      assert counts[Index(t)] == TeamScore(t, lower);
    }
    var hit := PositiveCountHasWitness(Keywords(w), lower);
    KeywordsStartWithLetter(w, hit);
    ContainsWordStartsWord(lower, Keywords(w)[hit]);
  }

  /** The loop over `KEYWORDS.items()` that fills `intent_scores`. */
  method ScoreTeams(lower: string) returns (intentScores: seq<(Team, nat)>)
    ensures intentScores == PositiveScores(TeamScores(lower), |TeamOrder|)
  {
    ghost var counts := TeamScores(lower);
    intentScores := [];
    for i := 0 to |TeamOrder|
      invariant intentScores == PositiveScores(counts, i)
    {
      var team := TeamOrder[i];
      var matches := CountMatches(Keywords(team), lower);
      assert matches == counts[i];
      if matches > 0 {
        intentScores := intentScores + [(team, matches)];
      }
    }
  }

  /** The `matched_keywords` comprehension: each dictionary team's keywords that occur
      in the text, team by team. */
  method CollectMatched(intentScores: seq<(Team, nat)>, lower: string) returns (matched: seq<string>)
    ensures matched == MatchedOver(intentScores, lower)
  {
    matched := [];
    for a := 0 to |intentScores|
      invariant matched == MatchedOver(intentScores[..a], lower)
    {
      assert intentScores[..a + 1][..a] == intentScores[..a];
      matched := AppendMatching(matched, Keywords(intentScores[a].0), lower);
    }
    assert intentScores[..|intentScores|] == intentScores;
  }

  /** The inner loop of the keyword collection: append, in list order, the keywords
      of one team that occur in the text. */
  method AppendMatching(matched: seq<string>, keywords: seq<string>, lower: string)
    returns (r: seq<string>)
    ensures r == matched + Matching(keywords, lower)
  {
    r := matched;
    for k := 0 to |keywords|
      invariant r == matched + Matching(keywords[..k], lower)
    {
      assert keywords[..k + 1][..k] == keywords[..k];
      if Contains(lower, keywords[k]) {
        r := r + [keywords[k]];
      }
    }
    assert keywords[..|keywords|] == keywords;
  }

  /** `IntentDetector.detect`: count each team's keyword hits into the dictionary,
      pick the first maximal team and list the matched keywords. */
  method Detect(message: string) returns (r: Intent)
    ensures IsDetection(message, r)
  {
    var lower := Lower(message);
    var intentScores := ScoreTeams(lower);
    EmptyIffNoMatch(lower);
    if intentScores == [] {
      return Intent(Support, 0.5, None, []);
    }
    WinnerMatchesMost(lower);

    var top := intentScores[FirstMaxPos(intentScores)];
    assert top.0 == Winner(TeamScores(lower));
    PositiveScoresEntries(TeamScores(lower), |TeamOrder|);
    var confidence := top.1 as real / WordCount(lower) as real;
    confidence := MinReal(1.0, confidence);

    var matched := CollectMatched(intentScores, lower);
    MatchedOverPositiveIsAll(TeamScores(lower), lower, |TeamOrder|);

    r := Intent(top.0, confidence, Some(intentScores), matched);
  }

  // ---------------------------------------------------------------------------
  // Routing
  // ---------------------------------------------------------------------------

  datatype Priority = High | Medium | Low

  /** The priority of a tier. */
  function PriorityFor(q: Tier): Priority {
    match q
    case Hot => High
    case Warm => Medium
    case Cold => Low
  }

  /** Priority follows the score through the tier: High from the hot threshold up,
      Medium from the warm threshold up, Low below both. */
  lemma PriorityFollowsScore(config: Config, score: int)
    ensures PriorityFor(Qualification(config, score)) == High <==> score >= config.hotThreshold
    ensures PriorityFor(Qualification(config, score)) == Medium
            <==> config.warmThreshold <= score < config.hotThreshold
    ensures PriorityFor(Qualification(config, score)) == Low
            <==> score < config.warmThreshold && score < config.hotThreshold
  {
  }

  /** The routing payload, without the free-text context block. */
  datatype RoutingPayload = RoutingPayload(
    team: Team,
    priority: Priority,
    actions: seq<string>,
    leadData: Lead,
    leadScore: ScoreResult,
    intent: Intent)

  /** The last suggested action names the contact window in hours. */
  function ContactAction(hours: int): string {
    "Contact within " + IntToString(hours) + " hours"
  }

  /** `create_routing_payload`: detect the intent of the requirement, derive the
      priority from the tier and list three actions, the last naming the window. */
  method CreateRoutingPayload(lead: Lead, leadScore: ScoreResult) returns (p: RoutingPayload)
    ensures IsDetection(Requirement(lead), p.intent) && p.team == p.intent.team
    ensures p.priority == PriorityFor(leadScore.qualification)
    ensures p.actions == ["Create ticket", "Notify agent", ContactAction(leadScore.contactWithinHours)]
    ensures p.leadData == lead && p.leadScore == leadScore
  {
    var intent := Detect(lead.requirement.GetOr(""));
    var priority: Priority;
    if leadScore.qualification == Hot {
      priority := High;
    } else if leadScore.qualification == Warm {
      priority := Medium;
    } else {
      priority := Low;
    }
    p := RoutingPayload(
      intent.team, priority,
      ["Create ticket", "Notify agent", ContactAction(leadScore.contactWithinHours)],
      lead, leadScore, intent);
  }

  /** The contact action reads back the number of hours it was built from. */
  lemma ContactActionNamesHours(hours: nat)
    ensures var a := ContactAction(hours);
            a[..15] == "Contact within " && a[|a| - 6..] == " hours"
            && DigitsValue(a[15..|a| - 6]) == hours
  {
    var a := ContactAction(hours);
    var digits := NatToString(hours);
    assert a == "Contact within " + digits + " hours";
    assert a[15..|a| - 6] == digits;
    NatToStringRoundTrip(hours);
  }

  /** A lead that is not spam, visited at least five pages, stayed at least five
      minutes and has High urgency (the worked example is one, by `SampleLeadIsHot`)
      scores 85 under the default configuration: Hot, contact within 2 hours, the
      three bonuses in the breakdown, High priority and "Contact within 2 hours" as
      the last action. */
  method RouteEngagedUrgentLead(lead: Lead) returns (score: ScoreResult, routing: RoutingPayload)
    requires PagesCount(lead) >= 5 && TimeOnSite(lead) >= 300 && UrgencyOf(lead) == "High"
    requires !Spam(lead)
    ensures score.score == 85 && score.qualification == Hot && score.contactWithinHours == 2
    ensures score.breakdown == map["pages_bonus" := 15, "time_bonus" := 10, "urgency_bonus" := 10]
    ensures routing.priority == High
    ensures routing.actions == ["Create ticket", "Notify agent", "Contact within 2 hours"]
  {
    score := CalculateScore(DefaultConfig, lead);
    assert score.breakdown.Keys == {"pages_bonus", "time_bonus", "urgency_bonus"};
    assert IntToString(2) == "2";
    assert ContactAction(2) == "Contact within 2 hours";
    routing := CreateRoutingPayload(lead, score);
  }

  // ---------------------------------------------------------------------------
  // The worked example's team
  // ---------------------------------------------------------------------------

  /** The adjacent character pairs of the example requirement, lower-cased. */
  const ExamplePairs: set<(char, char)> := {
    ('n', 'e'), ('e', 'e'), ('e', 'd'), ('d', ' '), (' ', 'w'), ('w', 'h'), ('h', 'a'),
    ('a', 't'), ('t', 's'), ('s', 'a'), ('a', 'p'), ('p', 'p'), ('p', ' '), (' ', 'b'),
    ('b', 'o'), ('o', 't'), ('t', ' '), (' ', 'f'), ('f', 'o'), ('o', 'r'), ('r', ' '),
    (' ', 'c'), ('c', 'u'), ('u', 's'), ('s', 't'), ('t', 'o'), ('o', 'm'), ('m', 'e'),
    ('e', 'r'), (' ', 's'), ('s', 'u'), ('u', 'p'), ('p', 'o'), ('r', 't')}

  /** A text built from the example's character pairs that holds "need" and "what". */
  predicate ExampleLike(s: string) {
    PairsWithin(s, ExamplePairs) && Contains(s, "need") && Contains(s, "what")
  }

  /** Sales matches only "need": every other Sales keyword has a pair the text lacks. */
  lemma SalesScoresOne(s: string)
    requires ExampleLike(s)
    ensures TeamScore(Sales, s) == 1
  {
    var ks := Keywords(Sales);
    forall q | 0 <= q < |ks| && q != 0
      ensures !Contains(s, ks[q])
    {
      NotContainsPair(s, ExamplePairs, ks[q], if q == 10 then 1 else 0);
    }
    MatchCountOnlyOne(ks, s, 0);
  }

  /** No Billing keyword occurs. */
  lemma BillingScoresNothing(s: string)
    requires ExampleLike(s)
    ensures TeamScore(Billing, s) == 0
  {
    var ks := Keywords(Billing);
    forall q | 0 <= q < |ks|
      ensures !Contains(s, ks[q])
    {
      NotContainsPair(s, ExamplePairs, ks[q], if q == 4 then 1 else 0);
    }
    MatchCountAllAbsent(ks, s);
  }

  /** No Support keyword occurs. */
  lemma SupportScoresNothing(s: string)
    requires ExampleLike(s)
    ensures TeamScore(Support, s) == 0
  {
    var ks := Keywords(Support);
    forall q | 0 <= q < |ks|
      ensures !Contains(s, ks[q])
    {
      NotContainsPair(s, ExamplePairs, ks[q], if q == 0 then 1 else if q == 9 then 2 else 0);
    }
    MatchCountAllAbsent(ks, s);
  }

  /** No Technical keyword occurs. */
  lemma TechnicalScoresNothing(s: string)
    requires ExampleLike(s)
    ensures TeamScore(Technical, s) == 0
  {
    var ks := Keywords(Technical);
    forall q | 0 <= q < |ks|
      ensures !Contains(s, ks[q])
    {
      NotContainsPair(s, ExamplePairs, ks[q], if q == 1 then 1 else 0);
    }
    MatchCountAllAbsent(ks, s);
  }

  /** FAQ matches only "what", the start of "whatsapp". */
  lemma FaqScoresOne(s: string)
    requires ExampleLike(s)
    ensures TeamScore(FAQ, s) == 1
  {
    var ks := Keywords(FAQ);
    forall q | 0 <= q < |ks| && q != 2
      ensures !Contains(s, ks[q])
    {
      NotContainsPair(s, ExamplePairs, ks[q], if q == 1 || q >= 5 then 1 else 0);
    }
    MatchCountOnlyOne(ks, s, 2);
  }

  /** Every text like the example's ties Sales and FAQ at one match each; `max` keeps
      the earlier team, Sales. */
  lemma ExampleLikeGoesToSales(message: string, r: Intent)
    requires ExampleLike(Lower(message)) && IsDetection(message, r)
    ensures TeamScore(Sales, Lower(message)) == TeamScore(FAQ, Lower(message)) == 1
    ensures r.team == Sales
    ensures r.confidence == MinReal(1.0, 1.0 / WordCount(Lower(message)) as real)
  {
    var lower := Lower(message);
    SalesScoresOne(lower);
    BillingScoresNothing(lower);
    SupportScoresNothing(lower);
    TechnicalScoresNothing(lower);
    FaqScoresOne(lower);
    assert TeamScore(Sales, lower) != 0;
  }

  /** The example requirement, lower-cased. */
  const ExampleText := "need whatsapp bot for customer support"

  lemma ExampleTextPairs()
    ensures PairsWithin(ExampleText, ExamplePairs)
  {
  }

  lemma ExampleTextHoldsNeed()
    ensures Contains(ExampleText, "need")
  {
    assert ExampleText[0] == 'n' && ExampleText[1] == 'e' && ExampleText[2] == 'e' && ExampleText[3] == 'd';
    assert ExampleText[0..4] == "need";
    ContainsComplete(ExampleText, "need", 0);
  }

  lemma ExampleTextHoldsWhat()
    ensures Contains(ExampleText, "what")
  {
    assert ExampleText[5] == 'w' && ExampleText[6] == 'h' && ExampleText[7] == 'a' && ExampleText[8] == 't';
    assert ExampleText[5..9] == "what";
    ContainsComplete(ExampleText, "what", 5);
  }

  lemma ExampleTextIsExampleLike()
    ensures ExampleLike(ExampleText)
  {
    ExampleTextPairs();
    ExampleTextHoldsNeed();
    ExampleTextHoldsWhat();
  }

  /** The characters of `s` from `lo` to `hi` are lower-case ASCII letters. */
  predicate LettersBetween(s: string, lo: nat, hi: nat)
    requires lo <= hi <= |s|
  {
    forall i :: lo <= i < hi ==> IsAsciiLower(s[i])
  }

  lemma LetterIsNoSpace(c: char)
    requires IsAsciiLower(c)
    ensures !IsSpace(c)
  {
  }

  /** Appending a space and the next run of letters to a prefix of `s` adds one word. */
  lemma WordCountNextWord(s: string, space: nat, end: nat)
    requires space + 1 < end <= |s| && s[space] == ' ' && LettersBetween(s, space + 1, end)
    ensures WordCount(s[..end]) == WordCount(s[..space]) + 1
  {
    assert s[..space + 1] == s[..space] + [s[space]];
    WordCountAppendSpace(s[..space], s[space]);
    var w := s[space + 1..end];
    assert s[..end] == s[..space + 1] + w;
    assert s[..space + 1][space] == ' ';
    forall i | 0 <= i < |w|
      ensures !IsSpace(w[i])
    {
      assert w[i] == s[space + 1 + i];
      LetterIsNoSpace(w[i]);
    }
    WordCountAppendWord(s[..space + 1], w);
  }

  /** Runs of 4, 8, 3, 3, 8 and 7 letters separated by single spaces. */
  predicate ExampleWordShape(s: string) {
    |s| == 38
    && forall i :: 0 <= i < 38 ==>
         if i == 4 || i == 13 || i == 17 || i == 21 || i == 30 then s[i] == ' ' else IsAsciiLower(s[i])
  }

  /** A text of that shape has six words. */
  lemma ExampleWordShapeHasSixWords(s: string)
    requires ExampleWordShape(s)
    ensures WordCount(s) == 6
  {
    assert LettersBetween(s, 0, 4) && LettersBetween(s, 5, 13) && LettersBetween(s, 14, 17);
    assert LettersBetween(s, 18, 21) && LettersBetween(s, 22, 30) && LettersBetween(s, 31, 38);
    forall i | 0 <= i < 4
      ensures !IsSpace(s[..4][i])
    {
      LetterIsNoSpace(s[i]);
    }
    assert s[..4] == [] + s[..4];
    WordCountAppendWord([], s[..4]);
    WordCountNextWord(s, 4, 13);
    WordCountNextWord(s, 13, 17);
    WordCountNextWord(s, 17, 21);
    WordCountNextWord(s, 21, 30);
    WordCountNextWord(s, 30, 38);
    assert s[..38] == s;
  }

  lemma ExampleTextWordShape()
    ensures ExampleWordShape(ExampleText)
  {
  }

  /** "need whatsapp bot for customer support" has six words. */
  lemma ExampleTextHasSixWords()
    ensures WordCount(ExampleText) == 6
  {
    ExampleTextWordShape();
    ExampleWordShapeHasSixWords(ExampleText);
  }

  /** A message that lower-cases, character by character, to the example text. */
  predicate LowersToExample(message: string) {
    |message| == |ExampleText|
    && forall i :: 0 <= i < |message| ==> LowerChar(message[i]) == ExampleText[i]
  }

  lemma LowersToExampleLowers(message: string)
    requires LowersToExample(message)
    ensures Lower(message) == ExampleText
  {
  }

  lemma SampleRequirementLowersToExample()
    ensures LowersToExample(SampleRequirement)
  {
    assert forall i :: 0 <= i < 19 ==> LowerChar(SampleRequirement[i]) == ExampleText[i];
    assert forall i :: 19 <= i < 38 ==> LowerChar(SampleRequirement[i]) == ExampleText[i];
  }

  /** A six-word message like the example goes to Sales with confidence 1/6. */
  lemma SixWordsExampleGoesToSales(message: string, r: Intent)
    requires ExampleLike(Lower(message)) && WordCount(Lower(message)) == 6
    requires IsDetection(message, r)
    ensures r.team == Sales && r.confidence == 1.0 / 6.0
  {
    ExampleLikeGoesToSales(message, r);
    OneMatchInSixWords(r.confidence, WordCount(Lower(message)));
  }

  /** One match among six words gives confidence one sixth. */
  lemma OneMatchInSixWords(confidence: real, words: nat)
    requires words == 6 && confidence == MinReal(1.0, 1.0 / words as real)
    ensures confidence == 1.0 / 6.0
  {
  }

  /** The worked example's requirement lower-cases to a text like the example's. */
  lemma SampleRequirementIsExampleLike()
    ensures ExampleLike(Lower(SampleRequirement))
  {
    SampleRequirementLowersToExample();
    LowersToExampleLowers(SampleRequirement);
    ExampleTextIsExampleLike();
  }

  /** The worked example's requirement has six words. */
  lemma SampleRequirementHasSixWords()
    ensures WordCount(Lower(SampleRequirement)) == 6
  {
    SampleRequirementLowersToExample();
    LowersToExampleLowers(SampleRequirement);
    ExampleTextHasSixWords();
  }

  /** The worked example's requirement, "Need WhatsApp bot for customer support", ties
      Sales ("need") with FAQ ("what" inside "whatsapp"); Sales, the earlier team, wins
      with one match among six words. */
  lemma SampleRequirementGoesToSales(r: Intent)
    requires IsDetection(SampleRequirement, r)
    ensures r.team == Sales && r.confidence == 1.0 / 6.0
  {
    SampleRequirementIsExampleLike();
    SampleRequirementHasSixWords();
    SixWordsExampleGoesToSales(SampleRequirement, r);
  }
}
