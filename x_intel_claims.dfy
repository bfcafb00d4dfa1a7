// Claim clusters: the posts grouped by topic, each sizeable topic summarised by a few
// representative texts, its per-day spread, its most active accounts and a keyword
// sentiment.

module XIntelClaims {
  import opened Common
  import opened Text
  import opened Numerals
  import opened Collections
  import opened XIntelPosts

  // ---------------------------------------------------------------- topic key

  const GeneralTopic := "general_discussion"
  const MaxTopicLength := 40

  /** A token that may name a topic: non-empty, not a stopword, longer than 3 characters. */
  predicate TopicWord(t: string) { t != [] && t !in Stopwords && |t| > 3 }

  function TopicCandidates(p: Post): seq<string>
  {
    Filter(Tokens(NormalizeText(p.text)), TopicWord)
  }

  /**
   * `_topic_key`: the first hashtag lower-cased; else the first topic word of the
   * normalized text cut to 40 characters; else the general topic.
   */
  function TopicKey(p: Post): string
  {
    if p.hashtags != [] then Lower(p.hashtags[0])
    else
      var c := TopicCandidates(p);
      if c != [] then Take(c[0], MaxTopicLength) else GeneralTopic
  }

  /** The three ways a topic is chosen, with the first-match rule spelled out on the tokens. */
  lemma TopicKeyCases(p: Post)
    ensures p.hashtags != [] ==> TopicKey(p) == Lower(p.hashtags[0])
    ensures p.hashtags == [] && (forall t :: t in Tokens(NormalizeText(p.text)) ==> !TopicWord(t))
      ==> TopicKey(p) == GeneralTopic
    ensures p.hashtags == [] && (exists t :: t in Tokens(NormalizeText(p.text)) && TopicWord(t))
      ==> var ts := Tokens(NormalizeText(p.text));
          exists i :: (0 <= i < |ts| && TopicWord(ts[i]) && (forall j :: 0 <= j < i ==> !TopicWord(ts[j]))
                       && TopicKey(p) == Take(ts[i], MaxTopicLength))
  {
    var ts := Tokens(NormalizeText(p.text));
    if p.hashtags == [] && exists t :: t in ts && TopicWord(t) {
      var t :| t in ts && TopicWord(t);
      assert t in TopicCandidates(p);
      FilterFirst(ts, TopicWord);
    }
  }

  /** A topic taken from the text is a word of 4 to 40 characters without spaces. */
  lemma TopicFromTextShape(p: Post)
    requires p.hashtags == [] && TopicCandidates(p) != []
    ensures 4 <= |TopicKey(p)| <= MaxTopicLength
    ensures ' ' !in TopicKey(p)
  {
    var c := TopicCandidates(p);
    assert TopicWord(c[0]);
    assert c[0] in Tokens(NormalizeText(p.text));
    var k := TopicKey(p);
    assert k == c[0][..|k|];
  }

  // ---------------------------------------------------------------- topic groups

  type TopicGroups = seq<(string, seq<Post>)>

  /**
   * The posts grouped by `key` (topics in order of first post), keeping the topics with at
   * least two posts; when there are none, one general group of all posts.
   */
  function ChosenGroups(posts: seq<Post>, key: Post -> string): TopicGroups
  {
    var s := Filter(GroupBy(posts, key), Repeated);
    if s == [] then [(GeneralTopic, posts)] else s
  }

  function BySize(a: (string, seq<Post>), b: (string, seq<Post>)): bool { |a.1| >= |b.1| }

  const MaxClaimClusters := 10

  /** `sort(key=len, reverse=True)[:10]`: largest groups first, ties in first-post order. */
  function RankGroups(gs: TopicGroups): TopicGroups
  {
    Take(SortBy(gs, BySize), MaxClaimClusters)
  }

  /** The groups that become claim clusters, in cluster order. */
  function ClusterGroups(posts: seq<Post>): TopicGroups
  {
    RankGroups(ChosenGroups(posts, TopicKey))
  }

  /** Every group is of one topic and holds at least two posts. */
  predicate TopicalGroups(gs: TopicGroups, key: Post -> string)
  {
    forall i :: 0 <= i < |gs| ==> |gs[i].1| >= 2 && forall p :: p in gs[i].1 ==> key(p) == gs[i].0
  }

  /** Some topic has at least two posts. */
  predicate SomeTopicRepeats(posts: seq<Post>, key: Post -> string)
  {
    exists i :: 0 <= i < |GroupBy(posts, key)| && |GroupBy(posts, key)[i].1| >= 2
  }

  /**
   * The chosen groups have distinct topics; they are the topical groups when some topic
   * repeats, and the single general group of all posts otherwise.
   */
  lemma ChosenGroupsShape(posts: seq<Post>, key: Post -> string)
    ensures DistinctKeys(ChosenGroups(posts, key))
    ensures SomeTopicRepeats(posts, key) ==> ChosenGroups(posts, key) != [] && TopicalGroups(ChosenGroups(posts, key), key)
    ensures !SomeTopicRepeats(posts, key) ==> ChosenGroups(posts, key) == [(GeneralTopic, posts)]
  {
    RepeatedGroupsShape(posts, key);
  }

  /** Ranking keeps at most ten of the groups, largest first, and keeps the rest's shape. */
  lemma RankGroupsShape(gs: TopicGroups, key: Post -> string)
    ensures var r := RankGroups(gs);
      |r| <= MaxClaimClusters
      && (gs != [] ==> r != [])
      && (forall i, j :: 0 <= i < j < |r| ==> |r[i].1| >= |r[j].1|)
      && (DistinctKeys(gs) ==> DistinctKeys(r))
      && (TopicalGroups(gs, key) ==> TopicalGroups(r, key))
      && (|gs| == 1 ==> r == gs)
  {
    var r := RankGroups(gs);
    assert Total(BySize) && Transitive(BySize);
    SortTakeShape(gs, BySize, MaxClaimClusters);
    if TopicalGroups(gs, key) {
      forall k | 0 <= k < |r| ensures |r[k].1| >= 2 && forall p :: p in r[k].1 ==> key(p) == r[k].0 {
        var a :| 0 <= a < |gs| && gs[a] == r[k];
      }
    }
    if |gs| == 1 {
      assert SortBy(gs, BySize) == gs;
    }
  }

  /**
   * At most ten groups, largest first, with distinct topics; either every group is a topic
   * with at least two posts, all of that topic, or no topic has two posts and the single
   * group is the general one holding every post.
   */
  lemma ClusterGroupsShape(posts: seq<Post>)
    ensures var r := ClusterGroups(posts);
      |r| <= MaxClaimClusters
      && (posts != [] ==> r != [])
      && (forall i, j :: 0 <= i < j < |r| ==> |r[i].1| >= |r[j].1|)
      && DistinctKeys(r)
      && (SomeTopicRepeats(posts, TopicKey) ==> TopicalGroups(r, TopicKey))
      && (!SomeTopicRepeats(posts, TopicKey) ==> r == [(GeneralTopic, posts)])
  {
    ChosenGroupsShape(posts, TopicKey);
    RankGroupsShape(ChosenGroups(posts, TopicKey), TopicKey);
  }

  // ---------------------------------------------------------------- representative claims

  const MaxClaims := 3
  const MaxClaimLength := 280

  /** A post's text with whitespace runs collapsed and the ends trimmed. */
  function Cleaned(p: Post): string
  {
    CollapseAndStrip(p.text)
  }

  predicate NonBlank(t: string) { t != [] }

  /** The non-empty cleaned texts, in post order (repeats kept). */
  function CleanedTexts(ps: seq<Post>): seq<string>
  {
    KeptImages(ps, Cleaned, NonBlank)
  }

  /** `cleaned[:280]` */
  function Clip(t: string): string
  {
    Take(t, MaxClaimLength)
  }

  /** The distinct cleaned texts the claims come from: the first three, in post order. */
  function ClaimSources(ps: seq<Post>): seq<string>
  {
    Take(Dedup(CleanedTexts(ps)), MaxClaims)
  }

  /** The representative claims: each source cut to 280 characters. */
  function RepresentativeClaims(ps: seq<Post>): seq<string>
  {
    MapSeq(ClaimSources(ps), Clip)
  }

  /**
   * The claim loop of `_build_claim_clusters`: skip blank and already-seen texts, keep each
   * new one cut to 280 characters, stop at three.
   */
  method CollectClaims(ps: seq<Post>) returns (claims: seq<string>)
    ensures claims == RepresentativeClaims(ps)
  {
    claims := [];
    var seen: set<string> := {};
    ghost var sources: seq<string> := [];
    var i := 0;
    while i < |ps| && |claims| < MaxClaims
      invariant 0 <= i <= |ps|
      invariant sources == Dedup(CleanedTexts(ps[..i]))
      invariant forall t :: t in seen <==> t in sources
      invariant claims == MapSeq(sources, Clip)
      invariant |claims| <= MaxClaims
    {
      var cleaned := Cleaned(ps[i]);
      ghost var before := CleanedTexts(ps[..i]);
      KeptImagesSnoc(ps, Cleaned, NonBlank, i);
      if cleaned == [] {
        assert CleanedTexts(ps[..i + 1]) == before + [] == before;
      } else {
        assert CleanedTexts(ps[..i + 1]) == before + [cleaned];
        DedupSnoc(before, cleaned);
      }
      if cleaned != [] && cleaned !in seen {
        MapSeqSnoc(sources, cleaned, Clip);
        claims := claims + [Clip(cleaned)];
        seen := seen + {cleaned};
        sources := sources + [cleaned];
      }
      i := i + 1;
    }
    KeptImagesPrefix(ps, Cleaned, NonBlank, i);
    DedupOfPrefix(CleanedTexts(ps[..i]), CleanedTexts(ps));
    if i == |ps| {
      assert ps[..i] == ps;
    }
  }

  /**
   * At most three claims, each a non-empty prefix of at most 280 characters of one post's
   * cleaned text, from distinct texts; some claim whenever some post has visible text; and
   * when no cleaned text is longer than 280 characters the claims themselves are distinct.
   */
  lemma ClaimsShape(ps: seq<Post>)
    ensures var r := RepresentativeClaims(ps);
      |r| <= MaxClaims
      && (forall k :: 0 <= k < |r| ==>
            (r[k] != [] && |r[k]| <= MaxClaimLength && exists p :: p in ps && r[k] <= Cleaned(p)))
      && Distinct(ClaimSources(ps))
      && ((exists p :: p in ps && Cleaned(p) != []) ==> r != [])
      && ((forall p :: p in ps ==> |Cleaned(p)| <= MaxClaimLength) ==> Distinct(r))
  {
    ClaimsFromPosts(ps);
    ClaimSourcesDistinct(ps);
    ClaimsPresent(ps);
    if forall p :: p in ps ==> |Cleaned(p)| <= MaxClaimLength {
      ShortClaimsUnclipped(ps);
    }
  }

  /** Every claim is a non-blank prefix, at most 280 characters, of some post's cleaned text. */
  lemma ClaimsFromPosts(ps: seq<Post>)
    ensures var r := RepresentativeClaims(ps);
      forall k :: 0 <= k < |r| ==>
        (r[k] != [] && |r[k]| <= MaxClaimLength && exists p :: p in ps && r[k] <= Cleaned(p))
  {
    var r := RepresentativeClaims(ps);
    forall k | 0 <= k < |r|
      ensures r[k] != [] && |r[k]| <= MaxClaimLength && exists p :: p in ps && r[k] <= Cleaned(p)
    {
      SourceOfClaim(ps, k);
    }
  }

  /** The texts the claims are cut from are pairwise different. */
  lemma ClaimSourcesDistinct(ps: seq<Post>)
    ensures Distinct(ClaimSources(ps))
  {
    var src := ClaimSources(ps);
    var d := Dedup(CleanedTexts(ps));
    forall i, j | 0 <= i < j < |src| ensures src[i] != src[j] {
      assert src[i] == d[i] && src[j] == d[j];
    }
  }

  /** One post with visible text is enough for at least one claim. */
  lemma ClaimsPresent(ps: seq<Post>)
    ensures (exists p :: p in ps && Cleaned(p) != []) ==> RepresentativeClaims(ps) != []
  {
    if exists p :: p in ps && Cleaned(p) != [] {
      var p :| p in ps && Cleaned(p) != [];
      var i :| 0 <= i < |ps| && ps[i] == p;
      KeptImagesKeeps(ps, Cleaned, NonBlank, i);
      assert Cleaned(ps[i]) in Dedup(CleanedTexts(ps));
    }
  }

  /** When no cleaned text exceeds the limit, the claims are their sources unchanged. */
  lemma ShortClaimsUnclipped(ps: seq<Post>)
    requires forall p :: p in ps ==> |Cleaned(p)| <= MaxClaimLength
    ensures RepresentativeClaims(ps) == ClaimSources(ps)
  {
    var src := ClaimSources(ps);
    var r := RepresentativeClaims(ps);
    forall k | 0 <= k < |r| ensures r[k] == src[k] {
      SourceOfClaim(ps, k);
      var i :| 0 <= i < |ps| && Cleaned(ps[i]) == src[k];
      assert ps[i] in ps;
    }
  }

  /** Claim k comes from the cleaned text of some post. */
  lemma SourceOfClaim(ps: seq<Post>, k: nat)
    requires k < |ClaimSources(ps)|
    ensures ClaimSources(ps)[k] != []
    ensures exists i :: 0 <= i < |ps| && Cleaned(ps[i]) == ClaimSources(ps)[k]
    ensures RepresentativeClaims(ps)[k] == Clip(ClaimSources(ps)[k])
  {
    var src := ClaimSources(ps);
    var d := Dedup(CleanedTexts(ps));
    KeptImagesFrom(ps, Cleaned, NonBlank);
    assert src[k] == d[k];
    assert d[k] in CleanedTexts(ps);
  }

  // ---------------------------------------------------------------- spread over time

  function DateOf(p: Post): IsoDate { p.createdDate }

  function ByDate(a: (IsoDate, nat), b: (IsoDate, nat)): bool { StrLe(a.0, b.0) }

  /** `sorted(Counter(date of each post).items())`: each day with its post count, by date. */
  function SpreadEntries(ps: seq<Post>): seq<(IsoDate, nat)>
  {
    SortBy(CountAll(MapSeq(ps, DateOf)), ByDate)
  }

  /** `f"{date}: {count}"` */
  function SpreadItem(e: (IsoDate, nat)): string
  {
    e.0 + ": " + NatToString(e.1)
  }

  function FormatSpread(es: seq<(IsoDate, nat)>): string
  {
    Join(MapSeq(es, SpreadItem), ", ")
  }

  /** `_spread_over_time` */
  function SpreadOverTime(ps: seq<Post>): string
  {
    FormatSpread(SpreadEntries(ps))
  }

  lemma ByDateOrder()
    ensures Total(ByDate) && Transitive(ByDate)
  {
    forall a: (IsoDate, nat), b: (IsoDate, nat) ensures ByDate(a, b) || ByDate(b, a) {
      StrLeTotal(a.0, b.0);
    }
    forall a: (IsoDate, nat), b: (IsoDate, nat), c: (IsoDate, nat) | ByDate(a, b) && ByDate(b, c)
      ensures ByDate(a, c)
    {
      StrLeTransitive(a.0, b.0, c.0);
    }
  }

  /**
   * One entry per day that has a post, in strictly increasing date order, with that day's
   * number of posts; the counts add up to the number of posts.
   */
  lemma SpreadEntriesShape(ps: seq<Post>)
    ensures var es := SpreadEntries(ps);
      (forall i, j :: 0 <= i < j < |es| ==> StrLe(es[i].0, es[j].0) && es[i].0 != es[j].0)
      && (forall k :: 0 <= k < |es| ==> es[k].1 == Occurrences(MapSeq(ps, DateOf), es[k].0) >= 1)
      && (forall p :: p in ps ==> exists k :: 0 <= k < |es| && es[k].0 == p.createdDate)
      && SumCounts(es) == |ps|
  {
    var ds := MapSeq(ps, DateOf);
    ByDateOrder();
    SortedCountsShape(ds, ByDate);
    forall p | p in ps ensures p.createdDate in ds {
      var i :| 0 <= i < |ps| && ps[i] == p;
      assert ds[i] == p.createdDate;
    }
  }

  // ---------------------------------------------------------------- key accounts

  function AuthorHandle(p: Post): string { p.author.handle }

  function HandleCounts(ps: seq<Post>): seq<(string, nat)>
  {
    CountAll(MapSeq(ps, AuthorHandle))
  }

  /** `_top_account_handles`: the handles of the `limit` most frequent authors, as written. */
  function TopAccountHandles(ps: seq<Post>, limit: nat): seq<string>
  {
    Keys(Take(MostCommon(HandleCounts(ps)), limit))
  }

  /**
   * `limit` distinct handles (fewer when there are fewer authors), each an author of the
   * posts, in non-increasing order of post count, and no author left out has more posts
   * than the last one kept.
   */
  lemma TopAccountsShape(ps: seq<Post>, limit: nat)
    ensures var hs := MapSeq(ps, AuthorHandle); var r := TopAccountHandles(ps, limit);
      |r| == MinInt(limit, |Dedup(hs)|)
      && Distinct(r)
      && (forall k :: 0 <= k < |r| ==> exists p :: p in ps && p.author.handle == r[k])
      && (forall i, j :: 0 <= i < j < |r| ==> Occurrences(hs, r[i]) >= Occurrences(hs, r[j]))
      && (forall h :: h in hs && h !in r ==>
            |r| == limit && (limit > 0 ==> Occurrences(hs, h) <= Occurrences(hs, r[limit - 1])))
  {
    var hs := MapSeq(ps, AuthorHandle);
    var r := TopAccountHandles(ps, limit);
    TopKeysShape(hs, limit);
    forall k | 0 <= k < |r| ensures exists p :: p in ps && p.author.handle == r[k] {
      HandleHasAuthor(ps, r[k]);
    }
  }

  /** A handle among the posts' author handles belongs to the author of one of the posts. */
  lemma HandleHasAuthor(ps: seq<Post>, h: string)
    requires h in MapSeq(ps, AuthorHandle)
    ensures exists p :: p in ps && p.author.handle == h
  {
    var i :| 0 <= i < |ps| && MapSeq(ps, AuthorHandle)[i] == h;
    assert ps[i].author.handle == h;
  }

  // ---------------------------------------------------------------- sentiment

  datatype Sentiment = Negative | Positive | Mixed | Neutral

  /** The positive keywords (a set in the source; listed here without repeats). */
  const PositiveWords: seq<string> := [
    "good", "great", "support", "safe", "başarılı", "iyi", "tebrikler", "destek", "güvenli"
  ]

  const NegativeWords: seq<string> := [
    "scam", "fraud", "fake", "lie", "liar", "spam", "bot", "sahte", "dolandırıcılık", "yalan",
    "kötü", "rezalet"
  ]

  /** How many of the keywords occur somewhere in the lower-cased text. */
  function KeywordHits(text: string, words: seq<string>): nat
  {
    var lowered := Lower(text);
    |Filter(words, w => ContainsStr(lowered, w))|
  }

  function PositiveHits(ps: seq<Post>): nat
  {
    if ps == [] then 0 else PositiveHits(ps[..|ps| - 1]) + KeywordHits(ps[|ps| - 1].text, PositiveWords)
  }

  function NegativeHits(ps: seq<Post>): nat
  {
    if ps == [] then 0 else NegativeHits(ps[..|ps| - 1]) + KeywordHits(ps[|ps| - 1].text, NegativeWords)
  }

  /** The decision of `_estimate_sentiment` on the two keyword totals. */
  function SentimentOf(positive: nat, negative: nat): Sentiment
  {
    if negative as real >= positive as real * 1.4 && negative > 0 then Negative
    else if positive as real >= negative as real * 1.4 && positive > 0 then Positive
    else if positive > 0 && negative > 0 then Mixed
    else Neutral
  }

  function EstimateSentiment(ps: seq<Post>): Sentiment
  {
    SentimentOf(PositiveHits(ps), NegativeHits(ps))
  }

  /**
   * The decision in whole numbers: negative when negatives outnumber positives 7 to 5 or
   * more, positive the other way round, neutral only with no keyword at all, mixed otherwise.
   */
  lemma SentimentCases(positive: nat, negative: nat)
    ensures SentimentOf(positive, negative) == Negative <==> negative > 0 && 5 * negative >= 7 * positive
    ensures SentimentOf(positive, negative) == Positive <==> positive > 0 && 5 * positive >= 7 * negative
    ensures SentimentOf(positive, negative) == Neutral <==> positive == 0 && negative == 0
    ensures SentimentOf(positive, negative) == Mixed <==> 5 * negative < 7 * positive && 5 * positive < 7 * negative
  {
  }

  function Mirror(s: Sentiment): Sentiment
  {
    match s
    case Negative => Positive
    case Positive => Negative
    case _ => s
  }

  /** Swapping the two totals swaps positive and negative and keeps the rest. */
  lemma SentimentSymmetric(positive: nat, negative: nat)
    ensures SentimentOf(negative, positive) == Mirror(SentimentOf(positive, negative))
  {
    SentimentCases(positive, negative);
    SentimentCases(negative, positive);
  }

  /** The keyword loop of `_estimate_sentiment`. */
  method TallySentiment(ps: seq<Post>) returns (s: Sentiment)
    ensures s == EstimateSentiment(ps)
  {
    var positive := 0;
    var negative := 0;
    var i := 0;
    while i < |ps|
      invariant 0 <= i <= |ps|
      invariant positive == PositiveHits(ps[..i]) && negative == NegativeHits(ps[..i])
    {
      assert ps[..i + 1][..i] == ps[..i];
      positive := positive + KeywordHits(ps[i].text, PositiveWords);
      negative := negative + KeywordHits(ps[i].text, NegativeWords);
      i := i + 1;
    }
    assert ps[..i] == ps;
    s := SentimentOf(positive, negative);
  }

  // ---------------------------------------------------------------- clusters

  datatype ClaimCluster = ClaimCluster(
    clusterId: string,
    topicLabel: string,
    representativeClaims: seq<string>,
    spreadOverTime: string,
    keyAccounts: seq<string>,
    sentiment: Sentiment)

  const MaxKeyAccounts := 5

  /** `f"claim-{index}"` */
  function ClaimId(index: int): string
  {
    "claim-" + IntToString(index)
  }

  /** The cluster built from the group at 1-based position `index`. */
  function ClusterFor(index: int, g: (string, seq<Post>)): ClaimCluster
  {
    ClaimCluster(ClaimId(index), g.0, RepresentativeClaims(g.1), SpreadOverTime(g.1),
                 TopAccountHandles(g.1, MaxKeyAccounts), EstimateSentiment(g.1))
  }

  /** `_build_claim_clusters` */
  function ClaimClusters(posts: seq<Post>): seq<ClaimCluster>
  {
    if posts == [] then [] else Enumerate(ClusterGroups(posts), ClusterFor)
  }

  method BuildCluster(index: int, g: (string, seq<Post>)) returns (c: ClaimCluster)
    ensures c == ClusterFor(index, g)
  {
    var claims := CollectClaims(g.1);
    var sentiment := TallySentiment(g.1);
    c := ClaimCluster(ClaimId(index), g.0, claims, SpreadOverTime(g.1),
                      TopAccountHandles(g.1, MaxKeyAccounts), sentiment);
  }

  method BuildClaimClusters(posts: seq<Post>) returns (clusters: seq<ClaimCluster>)
    ensures clusters == ClaimClusters(posts)
  {
    if posts == [] {
      return [];
    }
    clusters := BuildClusters(ClusterGroups(posts));
  }

  /** The `enumerate(..., start=1)` loop over the ranked groups. */
  method BuildClusters(groups: TopicGroups) returns (clusters: seq<ClaimCluster>)
    ensures clusters == Enumerate(groups, ClusterFor)
  {
    clusters := [];
    var i := 0;
    while i < |groups|
      invariant 0 <= i <= |groups|
      invariant clusters == Enumerate(groups[..i], ClusterFor)
    {
      var c := BuildCluster(i + 1, groups[i]);
      EnumerateSnoc(groups, ClusterFor, i);
      clusters := clusters + [c];
      i := i + 1;
    }
    assert groups[..i] == groups;
  }

  /** What every cluster promises about itself. */
  predicate ClusterFits(c: ClaimCluster, index: int, g: (string, seq<Post>))
  {
    c.clusterId == ClaimId(index) && c.topicLabel == g.0
    && |c.representativeClaims| <= MaxClaims
    && (forall k :: 0 <= k < |c.representativeClaims| ==>
          c.representativeClaims[k] != [] && |c.representativeClaims[k]| <= MaxClaimLength)
    && |c.keyAccounts| <= MaxKeyAccounts && Distinct(c.keyAccounts)
  }

  lemma ClusterForFits(index: int, g: (string, seq<Post>))
    ensures ClusterFits(ClusterFor(index, g), index, g)
  {
    ClaimsShape(g.1);
    TopAccountsShape(g.1, MaxKeyAccounts);
  }

  /** Different positions get different ids. */
  lemma ClaimIdsDiffer(a: int, b: int)
    requires a != b
    ensures ClaimId(a) != ClaimId(b)
  {
    IntRoundTrip(a);
    IntRoundTrip(b);
    assert ClaimId(a)[6..] == IntToString(a);
    assert ClaimId(b)[6..] == IntToString(b);
  }

  /** Cluster k is built from the k-th ranked group and numbered k + 1. */
  lemma ClusterAt(posts: seq<Post>, k: nat)
    requires k < |ClaimClusters(posts)|
    ensures posts != [] && k < |ClusterGroups(posts)|
    ensures ClaimClusters(posts)[k] == ClusterFor(k + 1, ClusterGroups(posts)[k])
  {
    EnumerateAt(ClusterGroups(posts), ClusterFor, k);
  }

  /**
   * Any posts give between one and ten clusters, numbered claim-1, claim-2, ... with
   * distinct ids, cluster k summarising the k-th largest group; no posts give none.
   */
  lemma ClaimClustersShape(posts: seq<Post>)
    ensures var r := ClaimClusters(posts);
      |r| <= MaxClaimClusters
      && (posts != [] <==> r != [])
      && (forall k :: 0 <= k < |r| ==> ClusterFits(r[k], k + 1, ClusterGroups(posts)[k]))
      && (forall i, j :: 0 <= i < j < |r| ==> r[i].clusterId != r[j].clusterId)
  {
    ClaimClustersCount(posts);
    ClaimClustersFit(posts);
    ClaimClusterIdsDistinct(posts);
  }

  lemma ClaimClustersCount(posts: seq<Post>)
    ensures var r := ClaimClusters(posts);
      |r| <= MaxClaimClusters && (posts != [] <==> r != [])
  {
    ClusterGroupsShape(posts);
  }

  lemma ClaimClustersFit(posts: seq<Post>)
    ensures var r := ClaimClusters(posts);
      forall k :: 0 <= k < |r| ==> k < |ClusterGroups(posts)| && ClusterFits(r[k], k + 1, ClusterGroups(posts)[k])
  {
    var r := ClaimClusters(posts);
    forall k | 0 <= k < |r|
      ensures k < |ClusterGroups(posts)| && ClusterFits(r[k], k + 1, ClusterGroups(posts)[k])
    {
      ClusterAt(posts, k);
      ClusterForFits(k + 1, ClusterGroups(posts)[k]);
    }
  }

  lemma ClaimClusterIdsDistinct(posts: seq<Post>)
    ensures var r := ClaimClusters(posts);
      forall i, j :: 0 <= i < j < |r| ==> r[i].clusterId != r[j].clusterId
  {
    if posts != [] {
      forall a: int, b: int | a != b ensures ClaimId(a) != ClaimId(b) {
        ClaimIdsDiffer(a, b);
      }
      EnumerateTagsDistinct(ClusterGroups(posts), ClusterFor, (c: ClaimCluster) => c.clusterId, ClaimId);
    }
  }
}
