// The decision helpers of `TrustReportGenerator`: likely objective of a cluster, bot
// activity, notable AI content, claims and narratives, risk level, overall confidence,
// data gaps and dashboard alerts.

module TrustReport {
  import opened Common
  import opened Text
  import opened Collections
  import opened XIntelPosts
  import opened XIntelCluster
  import opened XIntelScores
  import opened XIntelClaims
  import opened TrustSpread

  // ---------------------------------------------------------------- objective

  const ScamHints: seq<string> := ["airdrop", "telegram", "whatsapp", "dm ", "dm me", "wallet", "seed phrase"]
  const SmearHints: seq<string> := ["fraud", "scam", "liar", "fake", "corrupt", "blackmail", "kill"]
  const PoliticalHints: seq<string> := ["election", "party", "ideology", "president", "parliament", "government"]
  const EngagementHints: seq<string> := ["follow", "retweet", "like", "share", "giveaway"]

  /** `any(hint in text for hint in hints)` */
  predicate AnyHint(hints: seq<string>, text: string)
  {
    exists k :: 0 <= k < |hints| && ContainsStr(text, hints[k])
  }

  datatype Objective = Scam | Political | Astroturf | Smear | EngagementFarm | OtherObjective

  function LowerText(p: TopPost): string { Lower(p.text) }

  /** The lower-cased texts of the cluster's top posts joined by spaces. */
  function TextBlob(c: Cluster): string
  {
    Join(MapSeq(c.topPosts, LowerText), " ")
  }

  /** The shared URLs joined by spaces, lower-cased. */
  function UrlBlob(c: Cluster): string
  {
    Lower(Join(c.sharedUrls, " "))
  }

  predicate ScamSignal(c: Cluster)
  {
    AnyHint(ScamHints, TextBlob(c)) || AnyHint(ScamHints, UrlBlob(c))
  }

  predicate AstroturfSignal(c: Cluster)
  {
    c.textSimilarityScore >= 0.7 && |c.sharedHashtags| >= 2
  }

  /** Which objective triggers a cluster shows. */
  datatype Signals = Signals(scam: bool, political: bool, astroturf: bool, smear: bool, engagement: bool)

  function SignalsOf(c: Cluster): Signals
  {
    var blob := TextBlob(c);
    Signals(ScamSignal(c), AnyHint(PoliticalHints, blob), AstroturfSignal(c),
            AnyHint(SmearHints, blob), AnyHint(EngagementHints, blob))
  }

  /** The first objective whose trigger is shown, in the fixed priority order. */
  function ObjectiveFor(s: Signals): Objective
  {
    if s.scam then Scam
    else if s.political then Political
    else if s.astroturf then Astroturf
    else if s.smear then Smear
    else if s.engagement then EngagementFarm
    else OtherObjective
  }

  function ObjectiveOf(c: Cluster): Objective
  {
    ObjectiveFor(SignalsOf(c))
  }

  const ScamLine1 := "Contains scam-like redirect terms or messaging app pivots."
  const ScamLine2 := "URL reuse and burst timing increase campaign risk."
  const ScamLine3 := "Classification is probabilistic, not definitive attribution."
  const PoliticalLine1 := "Political entities/keywords appear in representative content."
  const PoliticalLine2 := "Cluster structure indicates synchronized amplification signals."
  const PoliticalLine3 := "Requires cross-platform corroboration for high-confidence labeling."
  const AstroturfLine1 := "High text similarity with repeated slogans/hashtags."
  const AstroturfLine2 := "Content appears coordinated while mimicking organic spread."
  const AstroturfLine3 := "No direct scam trigger words observed."
  const SmearLine1 := "Contains reputation-damaging accusation language."
  const SmearLine2 := "Repeated claim framing can indicate coordinated pressure."
  const SmearLine3 := "Further validation needed for intent attribution."
  const EngagementFarmLine1 := "Engagement-boost prompts appear in cluster text."
  const EngagementFarmLine2 := "Shared hashtags/URLs can indicate metric-seeking behavior."
  const EngagementFarmLine3 := "Heuristic-based classification with medium confidence."
  const OtherLine1 := "Cluster does not cleanly match predefined objective classes."
  const OtherLine2 := "Evidence is retained for analyst review."
  const OtherLine3 := "Treat as watchlist candidate rather than confirmed campaign."

  /** The three rationale lines of each objective. */
  function Rationale(o: Objective): (lines: seq<string>)
    ensures |lines| == 3
  {
    match o
    case Scam => [ScamLine1, ScamLine2, ScamLine3]
    case Political => [PoliticalLine1, PoliticalLine2, PoliticalLine3]
    case Astroturf => [AstroturfLine1, AstroturfLine2, AstroturfLine3]
    case Smear => [SmearLine1, SmearLine2, SmearLine3]
    case EngagementFarm => [EngagementFarmLine1, EngagementFarmLine2, EngagementFarmLine3]
    case OtherObjective => [OtherLine1, OtherLine2, OtherLine3]
  }

  /** `_infer_objective` */
  function InferObjective(c: Cluster): (Objective, seq<string>)
  {
    var o := ObjectiveOf(c);
    (o, Rationale(o))
  }

  /**
   * Each objective is chosen exactly when its trigger is shown and no trigger ranked above
   * it is, and every objective comes with three rationale lines.
   */
  lemma ObjectivePriority(s: Signals)
    ensures var o := ObjectiveFor(s);
      |Rationale(o)| == 3
      && (o == Scam <==> s.scam)
      && (o == Political <==> !s.scam && s.political)
      && (o == Astroturf <==> !s.scam && !s.political && s.astroturf)
      && (o == Smear <==> !s.scam && !s.political && !s.astroturf && s.smear)
      && (o == EngagementFarm <==> !s.scam && !s.political && !s.astroturf && !s.smear && s.engagement)
      && (o == OtherObjective <==> !s.scam && !s.political && !s.astroturf && !s.smear && !s.engagement)
  {
  }

  /** A hint found in one top post's lower-cased text is found in the cluster's text blob. */
  lemma PostHintInBlob(c: Cluster, i: nat, hints: seq<string>, h: nat)
    requires i < |c.topPosts| && h < |hints|
    requires Contains(Lower(c.topPosts[i].text), hints[h])
    ensures AnyHint(hints, TextBlob(c))
  {
    var texts := MapSeq(c.topPosts, LowerText);
    assert texts[i] == Lower(c.topPosts[i].text);
    JoinContains(texts, " ", i, hints[h]);
    assert ContainsStr(TextBlob(c), hints[h]);
  }

  /** One top post with a scam hint makes the whole cluster a scam. */
  lemma ScamPostMakesScam(c: Cluster, i: nat, h: nat)
    requires i < |c.topPosts| && h < |ScamHints|
    requires Contains(Lower(c.topPosts[i].text), ScamHints[h])
    ensures ObjectiveOf(c) == Scam
  {
    PostHintInBlob(c, i, ScamHints, h);
  }

  /** One top post with a political hint makes the cluster political, unless it is a scam. */
  lemma PoliticalPostMakesPolitical(c: Cluster, i: nat, h: nat)
    requires i < |c.topPosts| && h < |PoliticalHints|
    requires Contains(Lower(c.topPosts[i].text), PoliticalHints[h])
    ensures ObjectiveOf(c) in {Scam, Political}
  {
    PostHintInBlob(c, i, PoliticalHints, h);
  }

  // ---------------------------------------------------------------- bot activity

  /** `{score.handle.lower(): score.bot_probability for score in bot_scores}`: last one wins. */
  function BotMap(scores: seq<BotScore>): map<string, real>
  {
    if scores == [] then map[]
    else
      var last := scores[|scores| - 1];
      BotMap(scores[..|scores| - 1])[Lower(last.handle) := last.botProbability]
  }

  /** `bot_map.get(key, 0.0)` */
  function BotProbOf(m: map<string, real>, key: string): real
  {
    if key in m then m[key] else 0.0
  }

  /**
   * A handle is in the map exactly when some score has it (ignoring case), and then it maps
   * to the probability of the last such score.
   */
  lemma BotMapLookup(scores: seq<BotScore>, key: string)
    ensures key in BotMap(scores) <==> exists i :: 0 <= i < |scores| && Lower(scores[i].handle) == key
    ensures forall i :: 0 <= i < |scores| && Lower(scores[i].handle) == key
              && (forall j :: i < j < |scores| ==> Lower(scores[j].handle) != key)
              ==> key in BotMap(scores) && BotMap(scores)[key] == scores[i].botProbability
  {
    BotMapHas(scores, key);
    forall i | 0 <= i < |scores| && Lower(scores[i].handle) == key
      && (forall j :: i < j < |scores| ==> Lower(scores[j].handle) != key)
      ensures key in BotMap(scores) && BotMap(scores)[key] == scores[i].botProbability
    {
      BotMapLast(scores, key, i);
    }
  }

  /** A handle is in the map exactly when some score has it, ignoring case. */
  lemma {:induction false} BotMapHas(scores: seq<BotScore>, key: string)
    ensures key in BotMap(scores) <==> exists i :: 0 <= i < |scores| && Lower(scores[i].handle) == key
    decreases |scores|
  {
    if scores != [] {
      var init := scores[..|scores| - 1];
      BotMapHas(init, key);
      if key in BotMap(init) {
        var i :| 0 <= i < |init| && Lower(init[i].handle) == key;
        assert scores[i] == init[i];
      }
      if exists i :: 0 <= i < |scores| && Lower(scores[i].handle) == key {
        var i :| 0 <= i < |scores| && Lower(scores[i].handle) == key;
        if i < |init| {
          assert init[i] == scores[i];
        }
      }
    }
  }

  /** The last score with the handle gives its probability. */
  lemma {:induction false} BotMapLast(scores: seq<BotScore>, key: string, i: nat)
    requires i < |scores| && Lower(scores[i].handle) == key
    requires forall j :: i < j < |scores| ==> Lower(scores[j].handle) != key
    ensures key in BotMap(scores) && BotMap(scores)[key] == scores[i].botProbability
    decreases |scores|
  {
    var init := scores[..|scores| - 1];
    if i < |init| {
      forall j | i < j < |init| ensures Lower(init[j].handle) != key {
        assert init[j] == scores[j];
      }
      assert init[i] == scores[i];
      BotMapLast(init, key, i);
    }
  }

  /** Every value of the map is the probability of some score. */
  lemma {:induction false} BotMapValues(scores: seq<BotScore>, lo: real, hi: real)
    requires forall i :: 0 <= i < |scores| ==> lo <= scores[i].botProbability <= hi
    ensures forall k :: k in BotMap(scores) ==> lo <= BotMap(scores)[k] <= hi
    decreases |scores|
  {
    if scores != [] {
      var init := scores[..|scores| - 1];
      forall i | 0 <= i < |init| ensures init[i] == scores[i] { }
      BotMapValues(init, lo, hi);
    }
  }

  datatype AccountView = AccountView(handle: string, botProbability: real, role: Role)

  /** The numbers behind a cluster's evidence lines. */
  datatype Evidence = Evidence(timeBurstScore: real, textSimilarityScore: real, sharedHashtags: nat, sharedUrls: nat)

  datatype SuspectedCluster = SuspectedCluster(
    clusterId: string,
    size: nat,
    botLikelihood: real,
    evidence: Evidence,
    topAccounts: seq<AccountView>,
    likelyObjective: Objective,
    confidence: Level)

  /** An entry's `objective_rationale`: the three lines of its objective. */
  function ObjectiveRationale(s: SuspectedCluster): seq<string>
  {
    Rationale(s.likelyObjective)
  }

  const NoBotActivity := "No strong coordinated bot activity detected in this sample."
  const SomeBotActivity := "Potential coordinated activity exists; review clusters with highest bot_likelihood first."

  /** The looked-up probability of each top account, 0.0 for handles without a score. */
  function AccountProbs(m: map<string, real>, accounts: seq<TopAccount>): (probs: seq<real>)
    ensures |probs| == |accounts|
  {
    seq(|accounts|, k requires 0 <= k < |accounts| => BotProbOf(m, Lower(accounts[k].handle)))
  }

  function ViewOf(m: map<string, real>, a: TopAccount): AccountView
  {
    AccountView(a.handle, Round(BotProbOf(m, Lower(a.handle)), Digits3), a.role)
  }

  function AccountViews(m: map<string, real>, accounts: seq<TopAccount>): (views: seq<AccountView>)
    ensures |views| == |accounts|
  {
    seq(|accounts|, k requires 0 <= k < |accounts| => ViewOf(m, accounts[k]))
  }

  /** `round(sum(probs) / len(probs), 3) if probs else 0.0` */
  function BotLikelihood(probs: seq<real>): real
  {
    if probs == [] then 0.0 else Round(SumReal(probs) / |probs| as real, Digits3)
  }

  function ClusterConfidence(c: Cluster): Level
  {
    if c.size >= 50 && c.textSimilarityScore >= 0.7 then High
    else if c.size >= 15 then Medium
    else Low
  }

  /** A cluster's entry, given its account views and their probabilities. */
  function SuspectedFrom(c: Cluster, views: seq<AccountView>, probs: seq<real>): SuspectedCluster
  {
    SuspectedCluster(
      c.clusterId, c.size, BotLikelihood(probs),
      Evidence(c.timeBurstScore, c.textSimilarityScore, |c.sharedHashtags|, |c.sharedUrls|),
      views, ObjectiveOf(c), ClusterConfidence(c))
  }

  function SuspectedOf(m: map<string, real>, c: Cluster): SuspectedCluster
  {
    SuspectedFrom(c, AccountViews(m, c.topAccounts), AccountProbs(m, c.topAccounts))
  }

  /** The `suspected_clusters` list: one entry per cluster, in order. */
  function SuspectedClusters(m: map<string, real>, clusters: seq<Cluster>): (r: seq<SuspectedCluster>)
    ensures |r| == |clusters|
  {
    seq(|clusters|, k requires 0 <= k < |clusters| => SuspectedOf(m, clusters[k]))
  }

  function OverallBotActivity(suspected: seq<SuspectedCluster>): string
  {
    if suspected == [] then NoBotActivity else SomeBotActivity
  }

  /** The inner loop of `_build_bot_activity`: look up and show each top account. */
  method ViewAccounts(m: map<string, real>, accounts: seq<TopAccount>)
    returns (views: seq<AccountView>, probs: seq<real>)
    ensures views == AccountViews(m, accounts)
    ensures probs == AccountProbs(m, accounts)
  {
    views := [];
    probs := [];
    var i := 0;
    while i < |accounts|
      invariant 0 <= i <= |accounts|
      invariant views == AccountViews(m, accounts[..i])
      invariant probs == AccountProbs(m, accounts[..i])
    {
      var probability := BotProbOf(m, Lower(accounts[i].handle));
      probs := probs + [probability];
      views := views + [AccountView(accounts[i].handle, Round(probability, Digits3), accounts[i].role)];
      i := i + 1;
    }
    assert accounts[..i] == accounts;
  }

  /** `_build_bot_activity` */
  method BuildBotActivity(clusters: seq<Cluster>, botScores: seq<BotScore>)
    returns (overall: string, suspected: seq<SuspectedCluster>)
    ensures suspected == SuspectedClusters(BotMap(botScores), clusters)
    ensures overall == OverallBotActivity(suspected)
  {
    var m := BotMap(botScores);
    suspected := [];
    var i := 0;
    while i < |clusters|
      invariant 0 <= i <= |clusters|
      invariant suspected == SuspectedClusters(m, clusters[..i])
    {
      var views, probs := ViewAccounts(m, clusters[i].topAccounts);
      suspected := suspected + [SuspectedFrom(clusters[i], views, probs)];
      assert clusters[..i + 1] == clusters[..i] + [clusters[i]];
      i := i + 1;
    }
    assert clusters[..i] == clusters;
    overall := if suspected == [] then NoBotActivity else SomeBotActivity;
  }

  /**
   * A cluster's bot likelihood is 0.0 without top accounts; with scores in [0, 1] it stays
   * in [0, 1], and it is 0.0 when no top account has a score.
   */
  lemma BotLikelihoodBounds(scores: seq<BotScore>, c: Cluster)
    requires forall i :: 0 <= i < |scores| ==> 0.0 <= scores[i].botProbability <= 1.0
    ensures var r := BotLikelihood(AccountProbs(BotMap(scores), c.topAccounts));
      0.0 <= r <= 1.0
      && (c.topAccounts == [] ==> r == 0.0)
  {
    BotMapValues(scores, 0.0, 1.0);
    ProbsWithin(BotMap(scores), c.topAccounts);
    LikelihoodWithin(AccountProbs(BotMap(scores), c.topAccounts));
  }

  lemma ProbsWithin(m: map<string, real>, accounts: seq<TopAccount>)
    requires forall k :: k in m ==> 0.0 <= m[k] <= 1.0
    ensures forall j :: 0 <= j < |accounts| ==> 0.0 <= AccountProbs(m, accounts)[j] <= 1.0
  {
  }

  /** The rounded mean of probabilities is a probability. */
  lemma LikelihoodWithin(probs: seq<real>)
    requires forall k :: 0 <= k < |probs| ==> 0.0 <= probs[k] <= 1.0
    ensures 0.0 <= BotLikelihood(probs) <= 1.0
  {
    if probs != [] {
      MeanBounds(probs, 0.0, 1.0);
      RoundWithin(SumReal(probs) / |probs| as real, 0, 1, Digits3);
    }
  }

  /** The handles of the map are the lower-cased handles of the scores. */
  lemma {:induction false} BotMapKeys(scores: seq<BotScore>)
    ensures BotMap(scores).Keys == set s | s in scores :: Lower(s.handle)
    decreases |scores|
  {
    if scores != [] {
      var init := scores[..|scores| - 1];
      BotMapKeys(init);
      assert scores == init + [scores[|scores| - 1]];
    }
  }

  /** Handles without a score count as 0.0, so a cluster none of whose accounts is scored scores 0.0. */
  lemma UnscoredClusterIsZero(scores: seq<BotScore>, c: Cluster)
    requires forall k, i :: 0 <= k < |c.topAccounts| && 0 <= i < |scores| ==>
               Lower(scores[i].handle) != Lower(c.topAccounts[k].handle)
    ensures BotLikelihood(AccountProbs(BotMap(scores), c.topAccounts)) == 0.0
  {
    UnscoredProbsZero(scores, c.topAccounts);
    ZeroMean(AccountProbs(BotMap(scores), c.topAccounts));
  }

  lemma UnscoredProbsZero(scores: seq<BotScore>, accounts: seq<TopAccount>)
    requires forall k, i :: 0 <= k < |accounts| && 0 <= i < |scores| ==>
               Lower(scores[i].handle) != Lower(accounts[k].handle)
    ensures forall k :: 0 <= k < |accounts| ==> AccountProbs(BotMap(scores), accounts)[k] == 0.0
  {
    BotMapKeys(scores);
  }

  /** The likelihood of probabilities that are all zero is zero. */
  lemma ZeroMean(probs: seq<real>)
    requires forall k :: 0 <= k < |probs| ==> probs[k] == 0.0
    ensures BotLikelihood(probs) == 0.0
  {
    if probs != [] {
      ZeroSum(probs);
      RoundOfInt(0, Digits3);
    }
  }

  lemma {:induction false} ZeroSum(s: seq<real>)
    requires forall k :: 0 <= k < |s| ==> s[k] == 0.0
    ensures SumReal(s) == 0.0
    decreases |s|
  {
    if s != [] {
      ZeroSum(s[1..]);
    }
  }

  /**
   * One entry per cluster, in order, keeping its id and size, with one view per top account
   * carrying its handle and role; confidence is high exactly for large, similar clusters.
   */
  lemma BotActivityShape(scores: seq<BotScore>, clusters: seq<Cluster>)
    ensures var s := SuspectedClusters(BotMap(scores), clusters);
      |s| == |clusters|
      && (OverallBotActivity(s) == NoBotActivity <==> clusters == [])
      && forall k :: 0 <= k < |s| ==> SuspectedFits(s[k], BotMap(scores), clusters[k])
  {
    var s := SuspectedClusters(BotMap(scores), clusters);
    forall k | 0 <= k < |s| ensures SuspectedFits(s[k], BotMap(scores), clusters[k]) {
      assert s[k] == SuspectedOf(BotMap(scores), clusters[k]);
    }
  }

  /**
   * An entry keeps its cluster's id and size, scores it by the mean probability of its top
   * accounts, and shows each top account with its rounded probability and role.
   */
  predicate SuspectedFits(s: SuspectedCluster, m: map<string, real>, c: Cluster)
  {
    s.clusterId == c.clusterId && s.size == c.size
    && s.botLikelihood == BotLikelihood(AccountProbs(m, c.topAccounts))
    && |s.topAccounts| == |c.topAccounts|
    && (forall j :: 0 <= j < |c.topAccounts| ==>
          s.topAccounts[j].handle == c.topAccounts[j].handle && s.topAccounts[j].role == c.topAccounts[j].role
          && s.topAccounts[j].botProbability == Round(BotProbOf(m, Lower(c.topAccounts[j].handle)), Digits3))
    && s.likelyObjective == ObjectiveOf(c)
    && (s.confidence == High <==> c.size >= 50 && c.textSimilarityScore >= 0.7)
    && (s.confidence == Medium <==> !(c.size >= 50 && c.textSimilarityScore >= 0.7) && c.size >= 15)
  }

  // ---------------------------------------------------------------- AI content

  /** `(text, image)` compared lexicographically, larger first. */
  function AiRanksAbove(a: AiContentScore, b: AiContentScore): bool
  {
    a.aiTextProbability > b.aiTextProbability
    || (a.aiTextProbability == b.aiTextProbability && a.aiImageProbability >= b.aiImageProbability)
  }

  lemma AiRankOrder()
    ensures Total(AiRanksAbove) && Transitive(AiRanksAbove)
  {
  }

  const MaxNotable := 5

  /** The five highest-ranked scores, ties in input order. */
  function NotableScores(scores: seq<AiContentScore>): seq<AiContentScore>
  {
    Take(SortBy(scores, AiRanksAbove), MaxNotable)
  }

  /** `{post.tweet_id: post for post in posts}`: last one wins. */
  function PostMap(posts: seq<Post>): map<string, Post>
  {
    if posts == [] then map[]
    else
      var last := posts[|posts| - 1];
      PostMap(posts[..|posts| - 1])[last.tweetId := last]
  }

  /** The post a tweet id maps to is the last post with that id. */
  lemma {:induction false} PostMapLookup(posts: seq<Post>, id: string)
    ensures id in PostMap(posts) <==> exists i :: 0 <= i < |posts| && posts[i].tweetId == id
    ensures forall i :: 0 <= i < |posts| && posts[i].tweetId == id
              && (forall j :: i < j < |posts| ==> posts[j].tweetId != id)
              ==> id in PostMap(posts) && PostMap(posts)[id] == posts[i]
    decreases |posts|
  {
    if posts != [] {
      var init := posts[..|posts| - 1];
      PostMapLookup(init, id);
      forall i | 0 <= i < |init| ensures init[i] == posts[i] { }
    }
  }

  function Impact(item: AiContentScore): Level
  {
    if item.aiTextProbability >= 0.7 || item.aiImageProbability >= 0.7 then High
    else if item.aiTextProbability >= 0.3 || item.aiImageProbability >= 0.3 then Medium
    else Low
  }

  /** One notable item; `mediaUnverified` is the third "why" line about unverified media. */
  datatype NotableItem = NotableItem(
    tweetId: string,
    aiProbabilityText: real,
    aiProbabilityImage: real,
    mediaUnverified: bool,
    provenanceNotes: seq<string>,
    impact: Level,
    confidence: Level)

  function NotableOf(m: map<string, Post>, item: AiContentScore): NotableItem
  {
    NotableItem(item.tweetId, item.aiTextProbability, item.aiImageProbability,
                item.tweetId in m && m[item.tweetId].mediaUrls != [],
                item.provenanceNotes, Impact(item), item.confidence)
  }

  function NotableItems(scores: seq<AiContentScore>, posts: seq<Post>): (items: seq<NotableItem>)
    ensures |items| == |NotableScores(scores)|
  {
    var top := NotableScores(scores);
    seq(|top|, k requires 0 <= k < |top| => NotableOf(PostMap(posts), top[k]))
  }

  const SomeAiContent := "AI-content signals are low-to-moderate and remain probabilistic."
  const NoAiContent := "No AI-content signals were available in this sample."

  function OverallAiContent(items: seq<NotableItem>): string
  {
    if items != [] then SomeAiContent else NoAiContent
  }

  /** `_build_ai_content`'s item loop, returning the overall assessment and the items. */
  method BuildAiContent(scores: seq<AiContentScore>, posts: seq<Post>)
    returns (overall: string, items: seq<NotableItem>)
    ensures items == NotableItems(scores, posts)
    ensures overall == OverallAiContent(items)
  {
    var postMap := PostMap(posts);
    var notable := NotableScores(scores);
    items := [];
    var i := 0;
    while i < |notable|
      invariant 0 <= i <= |notable|
      invariant |items| == i
      invariant forall k :: 0 <= k < i ==> items[k] == NotableOf(postMap, notable[k])
    {
      items := items + [NotableOf(postMap, notable[i])];
      i := i + 1;
    }
    assert items == NotableItems(scores, posts);
    overall := if items != [] then SomeAiContent else NoAiContent;
  }

  /**
   * At most five scores are shown, all of them if there are fewer; they are scores of the
   * input, highest (text, image) first, and none left out ranks above one shown.
   */
  lemma NotableRanking(scores: seq<AiContentScore>)
    ensures var r := NotableScores(scores);
      |r| == (if MaxNotable < |scores| then MaxNotable else |scores|)
      && multiset(r) <= multiset(scores)
      && (forall i, j :: 0 <= i < j < |r| ==> AiRanksAbove(r[i], r[j]))
      && (forall x, k :: x in multiset(scores) - multiset(r) && 0 <= k < |r| ==> AiRanksAbove(r[k], x))
  {
    AiRankOrder();
    TopOfSort(scores, AiRanksAbove, MaxNotable);
  }

  /**
   * Each shown item carries its score's numbers and notes; its impact is high exactly when
   * a probability reaches 0.7 and low exactly when both stay below 0.3; and it flags
   * unverified media exactly when the last post with its id has media.
   */
  lemma NotableItemFits(scores: seq<AiContentScore>, posts: seq<Post>, k: nat)
    requires k < |NotableItems(scores, posts)|
    ensures var item := NotableItems(scores, posts)[k];
      var s := NotableScores(scores)[k];
      item.tweetId == s.tweetId && item.provenanceNotes == s.provenanceNotes
      && item.aiProbabilityText == s.aiTextProbability && item.aiProbabilityImage == s.aiImageProbability
      && (item.impact == High <==> s.aiTextProbability >= 0.7 || s.aiImageProbability >= 0.7)
      && (item.impact == Low <==> s.aiTextProbability < 0.3 && s.aiImageProbability < 0.3)
      && (item.mediaUnverified <==>
            exists i :: 0 <= i < |posts| && posts[i].tweetId == s.tweetId && posts[i].mediaUrls != []
              && forall j :: i < j < |posts| ==> posts[j].tweetId != s.tweetId)
  {
    var s := NotableScores(scores)[k];
    var m := PostMap(posts);
    PostMapLookup(posts, s.tweetId);
    if s.tweetId in m {
      LastWithId(posts, s.tweetId);
    }
  }

  /** When some post has the id, there is a last one. */
  lemma LastWithId(posts: seq<Post>, id: string)
    requires exists i :: 0 <= i < |posts| && posts[i].tweetId == id
    ensures exists i :: 0 <= i < |posts| && posts[i].tweetId == id
              && forall j :: i < j < |posts| ==> posts[j].tweetId != id
  {
    var i :| 0 <= i < |posts| && posts[i].tweetId == id;
    while exists j :: i < j < |posts| && posts[j].tweetId == id
      invariant 0 <= i < |posts| && posts[i].tweetId == id
      decreases |posts| - i
    {
      var i' :| i < i' < |posts| && posts[i'].tweetId == id;
      i := i';
    }
  }

  // ---------------------------------------------------------------- claims

  datatype Response = Debunk | Clarify | Escalate | Ignore

  const MaxReportClaims := 10
  const MaxShownClaims := 2
  const DebunkHints: seq<string> := ["breaking", "fraud", "scam", "blackmail", "kill"]
  const ClarifyHints: seq<string> := ["anthropic", "claude", "support", "billing"]
  const HarmMonitored := "Narrative may influence reputation and should be monitored."
  const HarmLimited := "Limited observed spread in current sample."

  /** Reach from the busiest day: high from 30 posts, medium from 10. */
  function Reach(maxDaily: int): Level
  {
    if maxDaily >= 30 then High else if maxDaily >= 10 then Medium else Low
  }

  function ResponseFor(topicLabel: string, reach: Level): Response
  {
    var topic := Lower(topicLabel);
    if AnyHint(DebunkHints, topic) then Debunk
    else if AnyHint(ClarifyHints, topic) then Clarify
    else if reach == High then Escalate
    else Ignore
  }

  datatype ReportClaim = ReportClaim(
    topicLabel: string,
    representativeClaims: seq<string>,
    reachProxy: Level,
    harmAssessment: string,
    recommendedResponse: Response,
    spreadOverTime: string,
    sentiment: Sentiment)

  /** The busiest day a claim cluster's spread text reports. */
  function MaxDaily(c: ClaimCluster): int
  {
    MaxOfChunks(Split(c.spreadOverTime, ','))
  }

  /** One report claim, given the busiest day of its cluster's spread. */
  function ReportClaimFor(c: ClaimCluster, maxDaily: int): ReportClaim
  {
    var reach := Reach(maxDaily);
    ReportClaim(c.topicLabel, Take(c.representativeClaims, MaxShownClaims), reach,
                if reach != Low then HarmMonitored else HarmLimited,
                ResponseFor(c.topicLabel, reach), c.spreadOverTime, c.sentiment)
  }

  function ReportClaimOf(c: ClaimCluster): ReportClaim
  {
    ReportClaimFor(c, MaxDaily(c))
  }

  /** One report claim per claim cluster, in order. */
  function ReportClaimsOf(top: seq<ClaimCluster>): (r: seq<ReportClaim>)
    ensures |r| == |top|
    ensures forall k :: 0 <= k < |top| ==> r[k] == ReportClaimOf(top[k])
  {
    MapSeq(top, ReportClaimOf)
  }

  /** The claims of the report: the first ten claim clusters, in order. */
  function ReportClaims(cs: seq<ClaimCluster>): (r: seq<ReportClaim>)
    ensures |r| == |Take(cs, MaxReportClaims)|
  {
    ReportClaimsOf(Take(cs, MaxReportClaims))
  }

  /** `_build_claims` */
  method BuildClaims(cs: seq<ClaimCluster>) returns (claims: seq<ReportClaim>)
    ensures claims == ReportClaims(cs)
  {
    var top := Take(cs, MaxReportClaims);
    claims := [];
    var i := 0;
    while i < |top|
      invariant 0 <= i <= |top|
      invariant claims == ReportClaimsOf(top[..i])
    {
      assert top[..i + 1] == top[..i] + [top[i]];
      MapSeqSnoc(top[..i], top[i], ReportClaimOf);
      var maxDaily := MaxSpreadCount(top[i].spreadOverTime);
      claims := claims + [ReportClaimFor(top[i], maxDaily)];
      i := i + 1;
    }
    assert top[..i] == top;
  }

  /**
   * At most ten claims, each of the matching cluster, showing at most two representative
   * claims; harm is flagged exactly for medium or high reach, and a claim is escalated only
   * when its reach is high.
   */
  lemma ClaimsShape(cs: seq<ClaimCluster>)
    ensures var r := ReportClaims(cs);
      |r| <= MaxReportClaims && (|r| == MaxReportClaims || |r| == |cs|)
      && forall k :: 0 <= k < |r| ==>
           r[k].topicLabel == cs[k].topicLabel
           && r[k].representativeClaims == Take(cs[k].representativeClaims, MaxShownClaims)
           && |r[k].representativeClaims| <= MaxShownClaims
           && r[k].reachProxy == Reach(MaxDaily(cs[k]))
           && (r[k].harmAssessment == HarmMonitored <==> r[k].reachProxy in {Medium, High})
           && (r[k].recommendedResponse == Escalate ==> r[k].reachProxy == High)
  {
    var top := Take(cs, MaxReportClaims);
    forall k | 0 <= k < |top| ensures top[k] == cs[k] { }
  }

  /**
   * For a claim cluster whose spread was written from its posts, reach is high exactly when
   * some day has at least 30 of those posts, and low exactly when every day has fewer than 10.
   */
  lemma ReachOfPosts(c: ClaimCluster, ps: seq<Post>)
    requires c.spreadOverTime == SpreadOverTime(ps)
    ensures var days := MapSeq(ps, DateOf);
      (Reach(MaxDaily(c)) == High <==> exists p :: p in ps && Occurrences(days, p.createdDate) >= 30)
      && (Reach(MaxDaily(c)) == Low <==> forall p :: p in ps ==> Occurrences(days, p.createdDate) < 10)
  {
    SpreadOverTimeMax(ps);
  }

  // ---------------------------------------------------------------- risk and confidence

  datatype RiskLevel = LowRisk | MediumRisk | HighRisk | CriticalRisk
  {
    function Rank(): nat
    {
      match this
      case LowRisk => 0
      case MediumRisk => 1
      case HighRisk => 2
      case CriticalRisk => 3
    }
  }

  predicate HighRiskClaim(c: ReportClaim)
  {
    c.recommendedResponse in {Debunk, Escalate} && c.reachProxy in {Medium, High}
  }

  predicate StrongCluster(s: SuspectedCluster)
  {
    s.botLikelihood >= 0.6 && s.size >= 20
  }

  predicate AnyStrongCluster(suspected: seq<SuspectedCluster>)
  {
    exists k :: 0 <= k < |suspected| && StrongCluster(suspected[k])
  }

  predicate AnyHighRiskClaim(claims: seq<ReportClaim>)
  {
    exists k :: 0 <= k < |claims| && HighRiskClaim(claims[k])
  }

  /** `_infer_risk_level` */
  function InferRiskLevel(suspected: seq<SuspectedCluster>, claims: seq<ReportClaim>, maxBotProbability: real, postCount: nat): RiskLevel
  {
    var strong := AnyStrongCluster(suspected);
    var risky := AnyHighRiskClaim(claims);
    if strong && risky then CriticalRisk
    else if strong || risky || maxBotProbability >= 0.7 then HighRisk
    else if postCount >= 100 || maxBotProbability >= 0.4 then MediumRisk
    else LowRisk
  }

  /** The thresholds of each risk level, each level exactly when its condition holds. */
  lemma RiskLevels(suspected: seq<SuspectedCluster>, claims: seq<ReportClaim>, maxBot: real, postCount: nat)
    ensures var r := InferRiskLevel(suspected, claims, maxBot, postCount);
      var strong := AnyStrongCluster(suspected);
      var risky := AnyHighRiskClaim(claims);
      (r == CriticalRisk <==> strong && risky)
      && (r.Rank() >= HighRisk.Rank() <==> strong || risky || maxBot >= 0.7)
      && (r.Rank() >= MediumRisk.Rank() <==> strong || risky || maxBot >= 0.4 || postCount >= 100)
  {
  }

  /** More posts or a higher top bot probability never lower the risk level. */
  lemma RiskMonotone(suspected: seq<SuspectedCluster>, claims: seq<ReportClaim>,
                     maxBot: real, maxBot': real, postCount: nat, postCount': nat)
    requires maxBot <= maxBot' && postCount <= postCount'
    ensures InferRiskLevel(suspected, claims, maxBot, postCount).Rank()
            <= InferRiskLevel(suspected, claims, maxBot', postCount').Rank()
  {
  }

  /** An escalated claim always counts as high-risk, so it lifts the report to at least high. */
  lemma EscalationIsHighRisk(cs: seq<ClaimCluster>, suspected: seq<SuspectedCluster>, maxBot: real, postCount: nat, k: nat)
    requires k < |ReportClaims(cs)| && ReportClaims(cs)[k].recommendedResponse == Escalate
    ensures InferRiskLevel(suspected, ReportClaims(cs), maxBot, postCount).Rank() >= HighRisk.Rank()
  {
    var top := Take(cs, MaxReportClaims);
    EscalatedMeansHighReach(top[k], MaxDaily(top[k]));
    assert HighRiskClaim(ReportClaims(cs)[k]);
    RiskLevels(suspected, ReportClaims(cs), maxBot, postCount);
  }

  /** Only a high-reach claim is escalated. */
  lemma EscalatedMeansHighReach(c: ClaimCluster, maxDaily: int)
    ensures var r := ReportClaimFor(c, maxDaily);
      r.recommendedResponse == Escalate ==> r.reachProxy == High
  {
  }

  /** `_overall_confidence` */
  function OverallConfidence(postCount: nat, clusterCount: nat, uniqueAccounts: nat): Level
  {
    if postCount >= 100 && uniqueAccounts >= 50 then (if clusterCount > 0 then High else Medium)
    else if postCount >= 30 then Medium
    else Low
  }

  function LevelRank(l: Level): nat
  {
    match l
    case Low => 0
    case Medium => 1
    case High => 2
  }

  /**
   * Confidence is high exactly for 100+ posts from 50+ accounts with clusters, low exactly
   * below 30 posts, and never drops as posts, clusters or accounts grow.
   */
  lemma ConfidenceLevels(postCount: nat, clusterCount: nat, uniqueAccounts: nat,
                         postCount': nat, clusterCount': nat, uniqueAccounts': nat)
    requires postCount <= postCount' && clusterCount <= clusterCount' && uniqueAccounts <= uniqueAccounts'
    ensures var r := OverallConfidence(postCount, clusterCount, uniqueAccounts);
      (r == High <==> postCount >= 100 && uniqueAccounts >= 50 && clusterCount > 0)
      && (r == Low <==> postCount < 30)
      && LevelRank(r) <= LevelRank(OverallConfidence(postCount', clusterCount', uniqueAccounts'))
  {
  }

  const ProvenanceGap := "Original media provenance artifacts (C2PA/original binary chain)."
  const CrossPlatformGap := "Cross-platform corroboration outside X."
  const LabelsGap := "Ground-truth labels for bot/non-bot calibration."
  const SampleSizeGap := "Larger sample size needed for stronger coordination confidence."

  /** `_data_gaps` */
  function DataGaps(postCount: nat): seq<string>
  {
    [ProvenanceGap, CrossPlatformGap, LabelsGap] + (if postCount < 100 then [SampleSizeGap] else [])
  }

  /** Three fixed gaps always, and the sample-size gap exactly below 100 posts. */
  lemma DataGapsShape(postCount: nat)
    ensures var g := DataGaps(postCount);
      (|g| == 4 <==> postCount < 100) && (|g| == 3 <==> postCount >= 100)
      && g[..3] == [ProvenanceGap, CrossPlatformGap, LabelsGap]
      && (SampleSizeGap in g <==> postCount < 100)
  {
  }

  // ---------------------------------------------------------------- alerts

  datatype AlertCode = CoordinatedBurst | HighBotProbabilityAccounts | HighClaimVelocity

  datatype Alert = Alert(severity: Level, code: AlertCode, message: string, evidence: seq<string>)

  const BurstAlert := Alert(High, CoordinatedBurst, "High burst + text-similarity cluster detected.",
                            ["time_burst_score>=0.8", "text_similarity_score>=0.7"])
  const BotAlert := Alert(Medium, HighBotProbabilityAccounts, "At least one top account has elevated bot probability.",
                          ["bot_probability>=0.8"])
  const VelocityAlert := Alert(Medium, HighClaimVelocity, "At least one claim cluster shows high observed daily spread.",
                               ["max spread_over_time daily count >= 30"])

  predicate BurstCondition(clusters: seq<Cluster>)
  {
    exists k :: 0 <= k < |clusters| && clusters[k].timeBurstScore >= 0.8 && clusters[k].textSimilarityScore >= 0.7
  }

  predicate BotCondition(scores: seq<BotScore>)
  {
    exists k :: 0 <= k < |scores| && scores[k].botProbability >= 0.8
  }

  predicate VelocityCondition(cs: seq<ClaimCluster>)
  {
    exists k :: 0 <= k < |cs| && MaxDaily(cs[k]) >= 30
  }

  function Alerts(clusters: seq<Cluster>, scores: seq<BotScore>, cs: seq<ClaimCluster>): seq<Alert>
  {
    (if BurstCondition(clusters) then [BurstAlert] else [])
    + (if BotCondition(scores) then [BotAlert] else [])
    + (if VelocityCondition(cs) then [VelocityAlert] else [])
  }

  /** `_intel_alerts` */
  method IntelAlerts(clusters: seq<Cluster>, scores: seq<BotScore>, cs: seq<ClaimCluster>) returns (alerts: seq<Alert>)
    ensures alerts == Alerts(clusters, scores, cs)
  {
    alerts := [];
    if BurstCondition(clusters) {
      alerts := alerts + [BurstAlert];
    }
    if BotCondition(scores) {
      alerts := alerts + [BotAlert];
    }
    var velocity := VelocityAlertDue(cs);
    if velocity {
      alerts := alerts + [VelocityAlert];
    }
  }

  /** `any(self._max_spread_count(cluster.spread_over_time) >= 30 for cluster in claims)` */
  method VelocityAlertDue(cs: seq<ClaimCluster>) returns (due: bool)
    ensures due == VelocityCondition(cs)
  {
    due := false;
    var i := 0;
    while i < |cs| && !due
      invariant 0 <= i <= |cs|
      invariant due <==> VelocityWithin(cs, i)
    {
      var maxDaily := MaxSpreadCount(cs[i].spreadOverTime);
      VelocityWithinStep(cs, i);
      due := maxDaily >= 30;
      i := i + 1;
    }
    VelocityWithinAll(cs, i);
  }

  /** Some one of the first n claim clusters had a day of at least 30 posts. */
  predicate VelocityWithin(cs: seq<ClaimCluster>, n: nat)
    requires n <= |cs|
  {
    exists k :: 0 <= k < n && MaxDaily(cs[k]) >= 30
  }

  /** One more cluster is high velocity exactly when it or an earlier one is. */
  lemma VelocityWithinStep(cs: seq<ClaimCluster>, i: nat)
    requires i < |cs|
    ensures VelocityWithin(cs, i + 1) <==> VelocityWithin(cs, i) || MaxDaily(cs[i]) >= 30
  {
    if VelocityWithin(cs, i + 1) && !VelocityWithin(cs, i) {
      var k :| 0 <= k < i + 1 && MaxDaily(cs[k]) >= 30;
      assert k == i;
    }
  }

  /** A high-velocity cluster among the first n is one among all; with n = |cs| they agree. */
  lemma VelocityWithinAll(cs: seq<ClaimCluster>, n: nat)
    requires n <= |cs|
    ensures VelocityWithin(cs, n) ==> VelocityCondition(cs)
    ensures n == |cs| ==> (VelocityWithin(cs, n) <==> VelocityCondition(cs))
  {
  }

  function Codes(alerts: seq<Alert>): seq<AlertCode>
  {
    MapSeq(alerts, (a: Alert) => a.code)
  }

  function CodeRank(c: AlertCode): nat
  {
    match c
    case CoordinatedBurst => 0
    case HighBotProbabilityAccounts => 1
    case HighClaimVelocity => 2
  }

  /** Each alert at most once, in the fixed order, and present exactly when its threshold is met. */
  lemma AlertsShape(clusters: seq<Cluster>, scores: seq<BotScore>, cs: seq<ClaimCluster>)
    ensures var codes := Codes(Alerts(clusters, scores, cs));
      |codes| <= 3
      && (forall i, j :: 0 <= i < j < |codes| ==> CodeRank(codes[i]) < CodeRank(codes[j]))
      && (CoordinatedBurst in codes <==> BurstCondition(clusters))
      && (HighBotProbabilityAccounts in codes <==> BotCondition(scores))
      && (HighClaimVelocity in codes <==> VelocityCondition(cs))
  {
    var a := Alerts(clusters, scores, cs);
    var codes := Codes(a);
    var expected := (if BurstCondition(clusters) then [CoordinatedBurst] else [])
      + (if BotCondition(scores) then [HighBotProbabilityAccounts] else [])
      + (if VelocityCondition(cs) then [HighClaimVelocity] else []);
    assert codes == expected;
  }

  /** A claim shown in the report with high reach always raises the claim-velocity alert. */
  lemma HighReachRaisesVelocity(clusters: seq<Cluster>, scores: seq<BotScore>, cs: seq<ClaimCluster>, k: nat)
    requires k < |ReportClaims(cs)| && ReportClaims(cs)[k].reachProxy == High
    ensures HighClaimVelocity in Codes(Alerts(clusters, scores, cs))
  {
    ClaimsShape(cs);
    AlertsShape(clusters, scores, cs);
    assert MaxDaily(cs[k]) >= 30;
  }
}
