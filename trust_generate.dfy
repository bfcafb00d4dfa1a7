// `TrustReportGenerator.generate` and `generate_drilldown`: assembling the trust-and-safety
// report and the dashboard drill-down from one normalized intelligence input.

module TrustGenerate {
  import opened Common
  import opened Text
  import opened Collections
  import opened Numerals
  import opened XIntelPosts
  import opened XIntelCluster
  import opened XIntelScores
  import opened XIntelClaims
  import opened TrustTimeline
  import opened TrustReport

  /** The parts of an `XIntelInput` the report reads. */
  datatype ReportInput = ReportInput(
    target: string,
    window: string,
    posts: seq<Post>,
    clusters: seq<Cluster>,
    botScores: seq<BotScore>,
    aiScores: seq<AiContentScore>,
    claimClusters: seq<ClaimCluster>,
    goal: string,
    riskTolerance: string)

  // ---------------------------------------------------------------- why now

  const NoPostsWhy := "No posts were collected in the selected window."
  const SpikePrefix := "Volume spike centered on "
  const SpikeSuffix := " based on collected in-window activity."

  function SpikeMessage(date: string): string { SpikePrefix + date + SpikeSuffix }

  /** `int(item["events"][0].split(" ")[0])`, or None where that raises. */
  function RowCount(row: TimelineRow): Option<int>
  {
    if row.events == [] then None else ParseInt(Split(row.events[0], ' ')[0])
  }

  function CountKey(row: TimelineRow): int
  {
    match RowCount(row)
    case Some(v) => v
    case None => 0
  }

  predicate Readable(rows: seq<TimelineRow>)
  {
    forall k :: 0 <= k < |rows| ==> RowCount(rows[k]).Some?
  }

  /**
   * `_why_now`: the date of the first row with the largest count read back from its first
   * event, or None when reading some row's count raises.
   */
  function WhyNow(rows: seq<TimelineRow>): Option<string>
  {
    if rows == [] then Some(NoPostsWhy)
    else if !Readable(rows) then None
    else Some(SpikeMessage(rows[FirstMax(rows, CountKey)].date))
  }

  /** The count written into a timeline row's event reads back. */
  lemma RowCountOfRow(e: (string, nat))
    ensures RowCount(RowOf(e)) == Some(e.1)
  {
    var n := NatToString(e.1);
    var event := RowOf(e).events[0];
    assert event == n + [' '] + ObservedWords;
    assert ' ' !in n by {
      forall j | 0 <= j < |n| ensures n[j] != ' ' { assert IsAsciiDigit(n[j]); }
    }
    SplitAtFirst(n, ObservedWords, ' ');
    IntRoundTrip(e.1);
  }

  /** On rows read back from their counts, `_why_now` names the first row with the largest count. */
  lemma WhyNowOfRows(es: seq<(string, nat)>)
    requires es != []
    ensures exists b :: (0 <= b < |es|
      && WhyNow(MapSeq(es, RowOf)) == Some(SpikeMessage(es[b].0))
      && (forall k :: 0 <= k < |es| ==> es[k].1 <= es[b].1)
      && (forall k :: 0 <= k < b ==> es[k].1 < es[b].1))
  {
    var rows := MapSeq(es, RowOf);
    forall k | 0 <= k < |rows| ensures CountKey(rows[k]) == es[k].1 && RowCount(rows[k]).Some? {
      RowCountOfRow(es[k]);
    }
    var b := FirstMax(rows, CountKey);
    FirstMaxShape(rows, CountKey);
    assert WhyNow(rows) == Some(SpikeMessage(es[b].0));
  }

  /**
   * On the report's own timeline `_why_now` never raises: with posts it names the first day
   * whose post count is the largest.
   */
  lemma WhyNowOfTimeline(posts: seq<Post>)
    ensures posts == [] ==> WhyNow(Timeline(posts)) == Some(NoPostsWhy)
    ensures var es := DayCounts(posts);
      posts != [] ==>
        (exists b :: 0 <= b < |es|
          && WhyNow(Timeline(posts)) == Some(SpikeMessage(es[b].0))
          && (forall k :: 0 <= k < |es| ==> es[k].1 <= es[b].1)
          && (forall k :: 0 <= k < b ==> es[k].1 < es[b].1))
  {
    if posts != [] {
      TimelineShape(posts);
      WhyNowOfRows(DayCounts(posts));
    }
  }

  // ---------------------------------------------------------------- strategy

  const ReputationLine := "Protect brand trust with fast clarifications and source-backed updates."
  const CrisisLine := "Prioritize speed and narrative containment in high-velocity cycles."
  const BrandSafetyLine := "Reduce adjacency risk by filtering high-risk narratives early."
  const MisinfoLine := "Focus on evidence-led debunks and recurring claim tracking."
  const DefaultGoalLine := "Maintain evidence-based monitoring and calibrated responses."

  /** The reason given for the first 24-hour action, by the user's goal. */
  function GoalLine(goal: string): string
  {
    if goal == "reputation_protection" then ReputationLine
    else if goal == "crisis_response" then CrisisLine
    else if goal == "brand_safety" then BrandSafetyLine
    else if goal == "misinfo_mitigation" then MisinfoLine
    else DefaultGoalLine
  }

  /** The parts of `_build_strategy` that depend on the input. */
  datatype Strategy = Strategy(next24hWhy: string, provenanceCost: string)

  function StrategyFor(goal: string, riskTolerance: string): Strategy
  {
    var intensity := if riskTolerance == "low" then High else Medium;
    Strategy(GoalLine(goal), if intensity == High then "high" else "med")
  }

  /**
   * Each of the four known goals has its own line and every other goal gets the default;
   * provenance checks cost "high" exactly for a low risk tolerance.
   */
  lemma StrategyShape(goal: string, riskTolerance: string)
    ensures var s := StrategyFor(goal, riskTolerance);
      (goal !in {"reputation_protection", "crisis_response", "brand_safety", "misinfo_mitigation"} ==>
         s.next24hWhy == DefaultGoalLine)
      && (s.provenanceCost == "high" <==> riskTolerance == "low")
      && (s.provenanceCost == "med" <==> riskTolerance != "low")
  {
  }

  // ---------------------------------------------------------------- the report

  /**
   * `len({post.author.handle.lower() for post in posts})`: the distinct lower-cased handles,
   * counted once each.
   */
  function UniqueAccounts(posts: seq<Post>): nat
  {
    |Dedup(MapSeq(posts, HandleKey))|
  }

  /** At most one account per post, and at least one when there are posts. */
  lemma UniqueAccountsBounds(posts: seq<Post>)
    ensures UniqueAccounts(posts) <= |posts|
    ensures posts != [] ==> UniqueAccounts(posts) >= 1
  {
    var hs := MapSeq(posts, HandleKey);
    if posts != [] {
      assert hs[0] in Dedup(hs);
    }
  }

  /** The largest of some probabilities. */
  function TopProbability(scores: seq<BotScore>): real
    requires scores != []
  {
    if |scores| == 1 then scores[0].botProbability
    else MaxReal(TopProbability(scores[..|scores| - 1]), scores[|scores| - 1].botProbability)
  }

  /** `max((score.bot_probability for score in bot_scores), default=0.0)` */
  function MaxBotProbability(scores: seq<BotScore>): real
  {
    if scores == [] then 0.0 else TopProbability(scores)
  }

  /** The default without scores; otherwise the probability of some score and at least every other. */
  lemma {:induction false} MaxBotShape(scores: seq<BotScore>)
    ensures scores == [] ==> MaxBotProbability(scores) == 0.0
    ensures scores != [] ==>
      (forall k :: 0 <= k < |scores| ==> scores[k].botProbability <= MaxBotProbability(scores))
      && exists k :: 0 <= k < |scores| && scores[k].botProbability == MaxBotProbability(scores)
    decreases |scores|
  {
    if |scores| > 1 {
      var init := scores[..|scores| - 1];
      var last := |scores| - 1;
      MaxBotShape(init);
      forall k | 0 <= k < |init| ensures init[k] == scores[k] { }
      if MaxBotProbability(scores) != scores[last].botProbability {
        var k :| 0 <= k < |init| && init[k].botProbability == MaxBotProbability(init);
        assert scores[k].botProbability == MaxBotProbability(scores);
      }
    }
  }

  datatype Summary = Summary(
    riskLevel: RiskLevel,
    whatIsHappening: string,
    whyNow: Option<string>,
    findings: seq<string>,
    maxBotProbability: real)

  datatype Report = Report(
    executiveSummary: Summary,
    timeline: seq<TimelineRow>,
    botActivity: (string, seq<SuspectedCluster>),
    aiGeneratedContent: (string, seq<NotableItem>),
    claimsAndNarratives: seq<ReportClaim>,
    recommendedStrategy: Strategy,
    dataGaps: seq<string>,
    confidenceOverall: Level)

  function WhatIsHappening(postCount: nat, target: string): string
  {
    "Collected " + NatToString(postCount) + " posts for " + target + ". "
      + "Observed narrative-driven discussion with probabilistic bot/AI signals."
  }

  /** The counting findings; the third one shows the rounded top bot probability. */
  function Findings(postCount: nat, uniqueAccounts: nat, clusterCount: nat): seq<string>
  {
    ["post_count=" + NatToString(postCount) + "; unique_accounts=" + NatToString(uniqueAccounts),
     "coordinated_clusters=" + NatToString(clusterCount)]
  }

  /** The report built from the parts `generate` computes. */
  function ReportFrom(input: ReportInput, timeline: seq<TimelineRow>, suspected: seq<SuspectedCluster>,
                      items: seq<NotableItem>, claims: seq<ReportClaim>): Report
  {
    var postCount := |input.posts|;
    var unique := UniqueAccounts(input.posts);
    var maxBot := MaxBotProbability(input.botScores);
    var risk := InferRiskLevel(suspected, claims, maxBot, postCount);
    Report(
      Summary(risk, WhatIsHappening(postCount, input.target), WhyNow(timeline),
              Findings(postCount, unique, |input.clusters|), Round(maxBot, Digits3)),
      timeline,
      (OverallBotActivity(suspected), suspected),
      (OverallAiContent(items), items),
      claims,
      StrategyFor(input.goal, input.riskTolerance),
      DataGaps(postCount),
      OverallConfidence(postCount, |input.clusters|, unique))
  }

  /** What `generate` returns. */
  function ReportOf(input: ReportInput): Report
  {
    ReportFrom(input, Timeline(input.posts), SuspectedClusters(BotMap(input.botScores), input.clusters),
               NotableItems(input.aiScores, input.posts), ReportClaims(input.claimClusters))
  }

  /** `generate` */
  method Generate(input: ReportInput) returns (report: Report)
    ensures report == ReportOf(input)
  {
    var timeline := BuildTimeline(input.posts);
    var overallBots, suspected := BuildBotActivity(input.clusters, input.botScores);
    var overallAi, items := BuildAiContent(input.aiScores, input.posts);
    var claims := BuildClaims(input.claimClusters);
    report := ReportFrom(input, timeline, suspected, items, claims);
  }

  /**
   * The parts of the report `generate` writes from the posts and the clusters alone: the
   * summary never fails to say why now; the accounts it counts are at most the posts, and at
   * least one with posts; high overall confidence needs 100 posts, 50 accounts and at least
   * one cluster; the timeline has a row per day with posts; and the fourth data gap is there
   * exactly below 100 posts.
   */
  lemma ReportShape(posts: seq<Post>, clusters: seq<Cluster>)
    ensures var u := UniqueAccounts(posts);
      WhyNow(Timeline(posts)).Some?
      && u <= |posts|
      && (posts != [] ==> u >= 1)
      && (OverallConfidence(|posts|, |clusters|, u) == High ==> |posts| >= 100 && u >= 50 && clusters != [])
      && |Timeline(posts)| == (if posts == [] then 0 else |DayCounts(posts)|)
      && (|DataGaps(|posts|)| == 4 <==> |posts| < 100)
  {
    WhyNowOfTimeline(posts);
    UniqueAccountsBounds(posts);
    TimelineShape(posts);
    DataGapsShape(|posts|);
    var u := UniqueAccounts(posts);
    ConfidenceLevels(|posts|, |clusters|, u, |posts|, |clusters|, u);
  }

  // ---------------------------------------------------------------- the drill-down

  datatype DrilldownCluster = DrilldownCluster(
    clusterId: string,
    size: nat,
    timeBurstScore: real,
    textSimilarityScore: real,
    sharedHashtags: seq<string>,
    sharedUrls: seq<string>,
    topAccounts: seq<TopAccount>,
    topPosts: seq<TopPost>,
    likelyObjective: Objective)

  /** A drill-down cluster's `objective_rationale`: the three lines of its objective. */
  function DrilldownRationale(d: DrilldownCluster): seq<string>
  {
    Rationale(d.likelyObjective)
  }

  datatype Drilldown = Drilldown(
    target: string,
    window: string,
    clusters: seq<DrilldownCluster>,
    claimTimeline: seq<ClaimDay>,
    alerts: seq<Alert>)

  function DrilldownOf(c: Cluster): DrilldownCluster
  {
    DrilldownCluster(c.clusterId, c.size, c.timeBurstScore, c.textSimilarityScore,
                     c.sharedHashtags, c.sharedUrls, c.topAccounts, c.topPosts, ObjectiveOf(c))
  }

  function DrilldownClusters(cs: seq<Cluster>): (r: seq<DrilldownCluster>)
    ensures |r| == |cs|
    ensures forall k :: 0 <= k < |cs| ==> r[k] == DrilldownOf(cs[k])
  {
    if cs == [] then [] else DrilldownClusters(cs[..|cs| - 1]) + [DrilldownOf(cs[|cs| - 1])]
  }

  /** What `generate_drilldown` returns. */
  function DrilldownFor(input: ReportInput): Drilldown
  {
    Drilldown(input.target, input.window, DrilldownClusters(input.clusters),
              ClaimTimeline(input.posts, input.claimClusters),
              Alerts(input.clusters, input.botScores, input.claimClusters))
  }

  /** The drill-down clusters of one more cluster are those so far and its own. */
  lemma DrilldownClustersSnoc(cs: seq<Cluster>, i: nat)
    requires i < |cs|
    ensures DrilldownClusters(cs[..i + 1]) == DrilldownClusters(cs[..i]) + [DrilldownOf(cs[i])]
  {
    assert cs[..i + 1][..i] == cs[..i];
  }

  /** The cluster loop of `generate_drilldown`. */
  method BuildDrilldownClusters(cs: seq<Cluster>) returns (clusters: seq<DrilldownCluster>)
    ensures clusters == DrilldownClusters(cs)
  {
    clusters := [];
    var i := 0;
    while i < |cs|
      invariant 0 <= i <= |cs|
      invariant clusters == DrilldownClusters(cs[..i])
    {
      DrilldownClustersSnoc(cs, i);
      clusters := clusters + [DrilldownOf(cs[i])];
      i := i + 1;
    }
    assert cs[..i] == cs;
  }

  /** `generate_drilldown` */
  method GenerateDrilldown(input: ReportInput) returns (d: Drilldown)
    ensures d == DrilldownFor(input)
  {
    var claimsTimeline := BuildClaimTimeline(input.posts, input.claimClusters);
    var alerts := IntelAlerts(input.clusters, input.botScores, input.claimClusters);
    var clusters := BuildDrilldownClusters(input.clusters);
    d := Drilldown(input.target, input.window, clusters, claimsTimeline, alerts);
  }

  /**
   * The drill-down's clusters and the report's suspected clusters, built from the same
   * clusters, give every cluster the same id and objective, in the same order.
   */
  lemma DrilldownAgreesWithReport(m: map<string, real>, cs: seq<Cluster>)
    ensures var d := DrilldownClusters(cs);
      var s := SuspectedClusters(m, cs);
      |d| == |s| == |cs|
      && forall k :: 0 <= k < |cs| ==>
           d[k].clusterId == s[k].clusterId && d[k].likelyObjective == s[k].likelyObjective
           && DrilldownRationale(d[k]) == ObjectiveRationale(s[k])
  {
  }
}
