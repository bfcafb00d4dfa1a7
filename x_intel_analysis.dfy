// The tail of `XIntelCollector.collect`: from the normalized posts to the scored
// analysis, with the fallbacks used when a scorer has nothing to report.

module XIntelAnalysis {
  import opened Common
  import opened Collections
  import opened XIntelPosts
  import opened XIntelCluster
  import opened XIntelFind
  import opened XIntelGraph
  import opened XIntelScores
  import opened XIntelClaims

  /** The signals `collect` assembles around the posts. */
  datatype Analysis = Analysis(
    clusters: seq<Cluster>,
    graph: GraphMetrics,
    botScores: seq<BotScore>,
    aiScores: seq<AiContentScore>,
    claimClusters: seq<ClaimCluster>)

  const Unknown := "unknown"
  const Unavailable := "unavailable"
  const NoPostsNote := "No posts were collected in the selected window; AI content scoring is unavailable."

  /** `_fallback_bot_score`: the looked-up user's id and username, or "unknown". */
  function FallbackBotScore(userId: Option<string>, username: Option<string>): (s: BotScore)
    ensures s.botProbability == 0.0 && s.confidence == Low
    ensures s.userId == (if userId.Some? then userId.value else Unknown)
    ensures s.handle == (if username.Some? then username.value else Unknown)
  {
    BotScore(if userId.Some? then userId.value else Unknown,
             if username.Some? then username.value else Unknown, 0.0, Low)
  }

  /** `_fallback_ai_score`: a placeholder score carrying the first two collection notes. */
  function FallbackAiScore(collectionNotes: seq<string>): (s: AiContentScore)
    ensures s.tweetId == Unavailable && s.aiTextProbability == 0.0 && s.aiImageProbability == 0.0
    ensures s.confidence == Low
    ensures |s.provenanceNotes| == 1 + MinInt(2, |collectionNotes|)
    ensures s.provenanceNotes[0] == NoPostsNote
    ensures s.provenanceNotes[1..] == collectionNotes[..|s.provenanceNotes| - 1]
  {
    AiContentScore(Unavailable, 0.0, 0.0, [NoPostsNote] + Take(collectionNotes, 2), Low)
  }

  /** The single general cluster `collect` would add if claim clustering gave nothing. */
  function FallbackClaimCluster(posts: seq<Post>): ClaimCluster
  {
    ClaimCluster(ClaimId(1), GeneralTopic,
      MapSeq(Take(posts, 2), (p: Post) => Take(p.text, MaxClaimLength)),
      SpreadOverTime(posts), TopAccountHandles(posts, 3), EstimateSentiment(posts))
  }

  /** The signals as computed, each empty list replaced by its fallback. */
  function WithFallbacks(posts: seq<Post>, collectionNotes: seq<string>, userId: Option<string>,
                         username: Option<string>, clusters: seq<Cluster>, graph: GraphMetrics,
                         bots: seq<BotScore>, ai: seq<AiContentScore>, claims: seq<ClaimCluster>): Analysis
  {
    Analysis(clusters, graph,
      if bots == [] then [FallbackBotScore(userId, username)] else bots,
      if ai == [] then [FallbackAiScore(collectionNotes)] else ai,
      if claims == [] && posts != [] then [FallbackClaimCluster(posts)] else claims)
  }

  /** What `collect` builds from the normalized posts. */
  function AnalysisOf(posts: seq<Post>, collectionNotes: seq<string>, userId: Option<string>,
                      username: Option<string>, now: int): Analysis
  {
    var found := FindClusters(posts);
    WithFallbacks(posts, collectionNotes, userId, username, found.0, GraphOf(posts, found.1),
      BotScores(posts, found.1, now), AiContentScores(posts, collectionNotes), ClaimClusters(posts))
  }

  /** The steps of `collect` after normalization, in the source's order. */
  method Analyze(posts: seq<Post>, collectionNotes: seq<string>, userId: Option<string>,
                 username: Option<string>, now: int) returns (a: Analysis)
    ensures a == AnalysisOf(posts, collectionNotes, userId, username, now)
  {
    var clusters, membership := FindCoordinatedClusters(posts);
    var graph := AmplificationGraphMetrics(posts, membership);
    var bots := BuildBotScores(posts, membership, now);
    var ai := BuildAiContentScores(posts, collectionNotes);
    var claims := BuildClaimClusters(posts);
    a := WithFallbacks(posts, collectionNotes, userId, username, clusters, graph, bots, ai, claims);
  }

  /** Some posts always give at least one account to score. */
  lemma BotScoresPresent(posts: seq<Post>, m: Membership, now: int)
    requires posts != []
    ensures BotScores(posts, m, now) != []
  {
    AccountsOfShape(posts);
    assert XIntelScores.AccountsOf(posts) != [];
  }

  /** With no posts every list holds exactly its fallback and there are no claim clusters. */
  lemma AnalysisOfNoPosts(collectionNotes: seq<string>, userId: Option<string>,
                          username: Option<string>, now: int)
    ensures var a := AnalysisOf([], collectionNotes, userId, username, now);
      a.botScores == [FallbackBotScore(userId, username)]
      && a.aiScores == [FallbackAiScore(collectionNotes)]
      && a.claimClusters == []
  {
    assert XIntelScores.AccountsOf([]) == [];
  }

  /**
   * With posts no fallback is used: the bot scores are those of the accounts, there is an AI
   * score per post, and claim clustering always yields a cluster, so its fallback is never reached.
   */
  lemma AnalysisOfPosts(posts: seq<Post>, collectionNotes: seq<string>, userId: Option<string>,
                        username: Option<string>, now: int)
    requires posts != []
    ensures var a := AnalysisOf(posts, collectionNotes, userId, username, now);
      a.botScores == BotScores(posts, FindClusters(posts).1, now)
      && a.aiScores == AiContentScores(posts, collectionNotes)
      && a.claimClusters == ClaimClusters(posts)
      && a.botScores != [] && a.aiScores != [] && a.claimClusters != []
  {
    var found := FindClusters(posts);
    ClaimClustersCount(posts);
    BotScoresPresent(posts, found.1, now);
    AiScoresPresent(posts, collectionNotes);
    NoFallbackNeeded(posts, collectionNotes, userId, username, found.0, GraphOf(posts, found.1),
      BotScores(posts, found.1, now), AiContentScores(posts, collectionNotes), ClaimClusters(posts));
  }

  /** Some posts always give an AI score. */
  lemma AiScoresPresent(posts: seq<Post>, collectionNotes: seq<string>)
    requires posts != []
    ensures AiContentScores(posts, collectionNotes) != []
  {
  }

  /** Signals that are all present come through the fallbacks unchanged. */
  lemma NoFallbackNeeded(posts: seq<Post>, collectionNotes: seq<string>, userId: Option<string>,
                         username: Option<string>, clusters: seq<Cluster>, graph: GraphMetrics,
                         bots: seq<BotScore>, ai: seq<AiContentScore>, claims: seq<ClaimCluster>)
    requires bots != [] && ai != [] && claims != []
    ensures WithFallbacks(posts, collectionNotes, userId, username, clusters, graph, bots, ai, claims)
      == Analysis(clusters, graph, bots, ai, claims)
  {
  }
}
