// The additive heuristic scorers of the X engine: a bot likelihood per account and an
// AI-content likelihood per post.

module XIntelScores {
  import opened Common
  import opened Text
  import opened Collections
  import opened XIntelPosts
  import opened XIntelCluster

  const SecondsPerDay := 86400

  // ---------------------------------------------------------------- account age and window

  /**
   * `_account_age_days`: the account's age in days at `now`, never negative, or None when
   * its creation time is missing or does not parse.
   */
  function AccountAgeDays(a: Author, now: int): (r: Option<real>)
    ensures r.None? <==> a.createdSeconds.None?
    ensures r.Some? ==> r.value >= 0.0
  {
    match a.createdSeconds
    case None => None
    case Some(created) => Some(MaxReal((now - created) as real / SecondsPerDay as real, 0.0))
  }

  /** A known age covers the seconds between creation and `now`. */
  lemma AccountAgeCoversElapsed(a: Author, now: int)
    requires a.createdSeconds.Some?
    ensures AccountAgeDays(a, now).value * SecondsPerDay as real >= (now - a.createdSeconds.value) as real
  {
  }

  function LatestSeconds(ps: seq<Post>): int
    requires ps != []
  {
    if |ps| == 1 then ps[0].createdSeconds else MaxInt(ps[0].createdSeconds, LatestSeconds(ps[1..]))
  }

  function EarliestSeconds(ps: seq<Post>): int
    requires ps != []
  {
    if |ps| == 1 then ps[0].createdSeconds else MinInt(ps[0].createdSeconds, EarliestSeconds(ps[1..]))
  }

  /** The latest and earliest times bound every post's time, and both are times of posts. */
  lemma {:induction false} TimeBounds(ps: seq<Post>)
    requires ps != []
    ensures forall i :: 0 <= i < |ps| ==> EarliestSeconds(ps) <= ps[i].createdSeconds <= LatestSeconds(ps)
    ensures exists i :: 0 <= i < |ps| && ps[i].createdSeconds == LatestSeconds(ps)
    ensures exists i :: 0 <= i < |ps| && ps[i].createdSeconds == EarliestSeconds(ps)
  {
    if |ps| > 1 {
      TimeBounds(ps[1..]);
      assert forall i :: 1 <= i < |ps| ==> ps[i] == ps[1..][i - 1];
      var a :| 0 <= a < |ps[1..]| && ps[1..][a].createdSeconds == LatestSeconds(ps[1..]);
      var b :| 0 <= b < |ps[1..]| && ps[1..][b].createdSeconds == EarliestSeconds(ps[1..]);
      assert ps[a + 1].createdSeconds == LatestSeconds(ps[1..]);
      assert ps[b + 1].createdSeconds == EarliestSeconds(ps[1..]);
    }
  }

  /** `_window_days`: the days between the first and last post, at least 1 (1 with no posts). */
  function WindowDays(ps: seq<Post>): (r: real)
    ensures r >= 1.0
  {
    if ps == [] then 1.0
    else MaxReal((LatestSeconds(ps) - EarliestSeconds(ps)) as real / SecondsPerDay as real, 1.0)
  }

  /** The window covers the seconds between any two of the posts. */
  lemma WindowCoversPosts(ps: seq<Post>, i: int, j: int)
    requires 0 <= i < |ps| && 0 <= j < |ps|
    ensures WindowDays(ps) * SecondsPerDay as real >= (ps[j].createdSeconds - ps[i].createdSeconds) as real
  {
    TimeBounds(ps);
  }

  // ---------------------------------------------------------------- bot likelihood

  /** The signals measured for one account. */
  datatype Activity = Activity(
    postCount: nat,
    duplicateRatio: real,
    avgHashtags: real,
    ageDays: Option<real>,
    activityRate: real,
    followerRatio: real,
    clusterCount: nat)

  /** `set(normalized_texts)`: the distinct normalized texts of the posts. */
  function DistinctTexts(ps: seq<Post>): set<string>
  {
    if ps == [] then {} else DistinctTexts(ps[..|ps| - 1]) + {NormalizeText(ps[|ps| - 1].text)}
  }

  lemma {:induction false} DistinctTextsMembers(ps: seq<Post>)
    ensures forall t :: t in DistinctTexts(ps) <==> exists p :: p in ps && NormalizeText(p.text) == t
  {
    if ps != [] {
      var init := ps[..|ps| - 1];
      DistinctTextsMembers(init);
      assert ps == init + [ps[|ps| - 1]];
    }
  }

  function HashtagTotal(ps: seq<Post>): nat
  {
    if ps == [] then 0 else |ps[0].hashtags| + HashtagTotal(ps[1..])
  }

  /** The signals of the account keyed `key` whose posts are `ps` (the first is the exemplar). */
  function ActivityOf(key: string, ps: seq<Post>, m: Membership, now: int): Activity
    requires ps != []
  {
    var n := |ps|;
    var exemplar := ps[0].author;
    Activity(
      n,
      1.0 - |DistinctTexts(ps)| as real / n as real,
      HashtagTotal(ps) as real / n as real,
      AccountAgeDays(exemplar, now),
      n as real / MaxReal(WindowDays(ps), 1.0),
      exemplar.followers as real / MaxInt(exemplar.following, 1) as real,
      |MembershipOf(m, key)|)
  }

  /** An account has between one and `|ps|` distinct normalized texts. */
  lemma {:induction false} DistinctTextsCard(ps: seq<Post>)
    requires ps != []
    ensures 1 <= |DistinctTexts(ps)| <= |ps|
    decreases |ps|
  {
    var init := ps[..|ps| - 1];
    if init != [] {
      DistinctTextsCard(init);
    }
  }

  /** The duplicate-text ratio lies in [0, 1) and is 0 exactly when no normalized text repeats. */
  lemma DuplicateRatioBounds(key: string, ps: seq<Post>, m: Membership, now: int)
    requires ps != []
    ensures 0.0 <= ActivityOf(key, ps, m, now).duplicateRatio < 1.0
    ensures ActivityOf(key, ps, m, now).duplicateRatio == 0.0 <==> |DistinctTexts(ps)| == |ps|
  {
    DistinctTextsCard(ps);
    RatioFacts(|DistinctTexts(ps)|, |ps|);
  }

  function AgeBonus(age: Option<real>): real
  {
    if age.None? then 0.0 else if age.value < 30.0 then 0.25 else if age.value < 90.0 then 0.15 else 0.0
  }

  function RateBonus(rate: real): real
  {
    if rate >= 15.0 then 0.2 else if rate >= 8.0 then 0.1 else 0.0
  }

  function DuplicateBonus(ratio: real): real
  {
    if ratio >= 0.6 then 0.25 else if ratio >= 0.35 then 0.15 else 0.0
  }

  function HashtagBonus(avg: real): real
  {
    if avg >= 4.0 then 0.1 else 0.0
  }

  function FollowerBonus(ratio: real): real
  {
    if ratio < 0.1 || ratio > 20.0 then 0.1 else 0.0
  }

  function ClusterBonus(count: nat): real
  {
    if count > 0 then MinReal(0.15, 0.05 * count as real) else 0.0
  }

  const BotBase := 0.05
  const MaxBotProbability := 0.99

  /** The base likelihood plus every increment the account earns, clipped to [0, 0.99]. */
  function BotProbability(a: Activity): (p: real)
    ensures 0.0 <= p <= MaxBotProbability
  {
    Clamp(BotBase + AgeBonus(a.ageDays) + RateBonus(a.activityRate) + DuplicateBonus(a.duplicateRatio)
      + HashtagBonus(a.avgHashtags) + FollowerBonus(a.followerRatio) + ClusterBonus(a.clusterCount),
      0.0, MaxBotProbability)
  }

  /** The age and posting-rate tests of `_build_bot_scores`. */
  method AddAgeAndRate(a: Activity, before: real) returns (score: real)
    ensures score == before + AgeBonus(a.ageDays) + RateBonus(a.activityRate)
  {
    score := before;
    if a.ageDays.Some? {
      if a.ageDays.value < 30.0 {
        score := score + 0.25;
      } else if a.ageDays.value < 90.0 {
        score := score + 0.15;
      }
    }
    if a.activityRate >= 15.0 {
      score := score + 0.2;
    } else if a.activityRate >= 8.0 {
      score := score + 0.1;
    }
  }

  /** The duplicate-text and hashtag tests. */
  method AddContentSignals(a: Activity, before: real) returns (score: real)
    ensures score == before + DuplicateBonus(a.duplicateRatio) + HashtagBonus(a.avgHashtags)
  {
    score := before;
    if a.duplicateRatio >= 0.6 {
      score := score + 0.25;
    } else if a.duplicateRatio >= 0.35 {
      score := score + 0.15;
    }
    if a.avgHashtags >= 4.0 {
      score := score + 0.1;
    }
  }

  /** The follower-ratio and cluster-membership tests. */
  method AddNetworkSignals(a: Activity, before: real) returns (score: real)
    ensures score == before + FollowerBonus(a.followerRatio) + ClusterBonus(a.clusterCount)
  {
    score := before;
    if a.followerRatio < 0.1 || a.followerRatio > 20.0 {
      score := score + 0.1;
    }
    if a.clusterCount > 0 {
      score := score + MinReal(0.15, 0.05 * a.clusterCount as real);
    }
  }

  /** The chain of threshold tests in `_build_bot_scores`, then the clip to [0, 0.99]. */
  method ScoreAccount(a: Activity) returns (score: real)
    ensures score == BotProbability(a)
  {
    score := AddAgeAndRate(a, 0.05);
    score := AddContentSignals(a, score);
    score := AddNetworkSignals(a, score);
    score := MaxReal(0.0, MinReal(score, 0.99));
  }

  /** An account showing none of the signals keeps the base likelihood 0.05. */
  lemma QuietAccountScoresBase(a: Activity)
    requires a.ageDays.None? || a.ageDays.value >= 90.0
    requires a.activityRate < 8.0 && a.duplicateRatio < 0.35 && a.avgHashtags < 4.0
    requires 0.1 <= a.followerRatio <= 20.0 && a.clusterCount == 0
    ensures BotProbability(a) == BotBase
  {
  }

  /** An account showing every signal at full strength is capped at 0.99. */
  lemma LoudAccountScoresCap(a: Activity)
    requires a.ageDays.Some? && a.ageDays.value < 30.0
    requires a.activityRate >= 15.0 && a.duplicateRatio >= 0.6 && a.avgHashtags >= 4.0
    requires a.followerRatio > 20.0 && a.clusterCount >= 3
    ensures BotProbability(a) == MaxBotProbability
  {
  }

  /** Joining more clusters never lowers the likelihood. */
  lemma MoreClustersNeverLower(a: Activity, more: nat)
    requires more >= a.clusterCount
    ensures BotProbability(a.(clusterCount := more)) >= BotProbability(a)
  {
  }

  /** `confidence`: high with at least 8 posts and a known age, else medium with at least 3 posts. */
  function BotConfidence(postCount: nat, age: Option<real>): (c: Level)
    ensures c == High <==> postCount >= 8 && age.Some?
    ensures c == Medium <==> postCount >= 3 && !(postCount >= 8 && age.Some?)
    ensures c == Low <==> postCount < 3
  {
    if postCount >= 8 && age.Some? then High else if postCount >= 3 then Medium else Low
  }

  /** A bot score (the explanatory features are not modelled). */
  datatype BotScore = BotScore(userId: string, handle: string, botProbability: real, confidence: Level)

  function BotScoreOf(key: string, ps: seq<Post>, m: Membership, now: int): BotScore
    requires ps != []
  {
    var a := ActivityOf(key, ps, m, now);
    BotScore(ps[0].author.userId, ps[0].author.handle, Round(BotProbability(a), Digits3),
      BotConfidence(a.postCount, a.ageDays))
  }

  type AccountGroups = seq<(string, seq<Post>)>

  /**
   * The shape of the grouped posts: every group is non-empty, every post in a group has
   * the group's key, and no key appears twice.
   */
  predicate NonEmptyGroups(groups: AccountGroups)
  {
    forall i :: 0 <= i < |groups| ==> groups[i].1 != []
  }

  predicate KeyedGroups(groups: AccountGroups)
  {
    NonEmptyGroups(groups)
    && (forall i :: 0 <= i < |groups| ==> forall p :: p in groups[i].1 ==> HandleKey(p) == groups[i].0)
    && (forall i, j :: 0 <= i < j < |groups| ==> groups[i].0 != groups[j].0)
  }

  /** The posts grouped by lower-cased author handle, accounts in order of first post. */
  function AccountsOf(posts: seq<Post>): (g: AccountGroups)
    ensures NonEmptyGroups(g)
  {
    GroupsNonEmpty(posts, HandleKey);
    GroupBy(posts, HandleKey)
  }

  /** Grouping keeps every post under its own account, once per account, and misses no account. */
  lemma AccountsOfShape(posts: seq<Post>)
    ensures KeyedGroups(AccountsOf(posts))
    ensures forall k :: 0 <= k < |posts| ==> exists i :: 0 <= i < |AccountsOf(posts)| && AccountsOf(posts)[i].0 == HandleKey(posts[k])
  {
    var g := AccountsOf(posts);
    var d := Dedup(MapSeq(posts, HandleKey));
    assert Distinct(d);
    forall k | 0 <= k < |posts| ensures exists i :: 0 <= i < |g| && g[i].0 == HandleKey(posts[k]) {
      assert MapSeq(posts, HandleKey)[k] == HandleKey(posts[k]);
      assert HandleKey(posts[k]) in d;
      var i :| 0 <= i < |d| && d[i] == HandleKey(posts[k]);
      assert g[i].0 == d[i];
    }
    forall i, j | 0 <= i < j < |g| ensures g[i].0 != g[j].0 {
      assert g[i].0 == d[i] && g[j].0 == d[j];
    }
  }

  /** The score of every account, in account order. */
  function AccountScores(groups: AccountGroups, m: Membership, now: int): (r: seq<BotScore>)
    requires NonEmptyGroups(groups)
    ensures |r| == |groups|
  {
    if groups == [] then []
    else
      var last := groups[|groups| - 1];
      AccountScores(groups[..|groups| - 1], m, now) + [BotScoreOf(last.0, last.1, m, now)]
  }

  function ByBotProbability(a: BotScore, b: BotScore): bool { a.botProbability >= b.botProbability }

  /** `sort(key=bot_probability, reverse=True)`: most likely first, ties in account order. */
  function RankBots(scores: seq<BotScore>): (r: seq<BotScore>)
    ensures multiset(r) == multiset(scores)
    ensures forall i, j :: 0 <= i < j < |r| ==> r[i].botProbability >= r[j].botProbability
  {
    assert Total(ByBotProbability) && Transitive(ByBotProbability);
    SortBySorted(scores, ByBotProbability);
    var r := SortBy(scores, ByBotProbability);
    assert forall i, j :: 0 <= i < j < |r| ==> r[i].botProbability >= r[j].botProbability by {
      forall i, j | 0 <= i < j < |r| ensures r[i].botProbability >= r[j].botProbability {
        SortedPairwise(r, ByBotProbability, i, j);
      }
    }
    r
  }

  const MaxBotScores := 200

  /** The ranked, truncated scores of some grouped accounts. */
  function RankedScores(groups: AccountGroups, m: Membership, now: int): seq<BotScore>
    requires NonEmptyGroups(groups)
  {
    Take(RankBots(AccountScores(groups, m, now)), MaxBotScores)
  }

  /** What `_build_bot_scores` returns. */
  function BotScores(posts: seq<Post>, m: Membership, now: int): seq<BotScore>
  {
    RankedScores(AccountsOf(posts), m, now)
  }

  /** The body of the loop of `_build_bot_scores`: one account's score. */
  method ScoreOneAccount(key: string, ps: seq<Post>, m: Membership, now: int) returns (s: BotScore)
    requires ps != []
    ensures s == BotScoreOf(key, ps, m, now)
  {
    var a := ActivityOf(key, ps, m, now);
    var score := ScoreAccount(a);
    s := BotScore(ps[0].author.userId, ps[0].author.handle, Round(score, Digits3),
      BotConfidence(a.postCount, a.ageDays));
  }

  /** The loop of `_build_bot_scores` over the accounts. */
  method ScoreAccounts(groups: AccountGroups, m: Membership, now: int) returns (all: seq<BotScore>)
    requires NonEmptyGroups(groups)
    ensures all == AccountScores(groups, m, now)
  {
    all := [];
    PrefixGroups(groups, 0);
    for i := 0 to |groups|
      invariant NonEmptyGroups(groups[..i])
      invariant all == AccountScores(groups[..i], m, now)
    {
      var score := ScoreOneAccount(groups[i].0, groups[i].1, m, now);
      AccountScoresSnoc(groups, i, m, now);
      all := all + [score];
    }
    assert groups[..|groups|] == groups;
  }

  /** A prefix of accounts with posts is a list of accounts with posts. */
  lemma PrefixGroups(groups: AccountGroups, i: nat)
    requires NonEmptyGroups(groups) && i <= |groups|
    ensures NonEmptyGroups(groups[..i])
  {
  }

  /** One more account adds its score at the end. */
  lemma AccountScoresSnoc(groups: AccountGroups, i: nat, m: Membership, now: int)
    requires NonEmptyGroups(groups) && i < |groups|
    ensures NonEmptyGroups(groups[..i]) && NonEmptyGroups(groups[..i + 1])
    ensures AccountScores(groups[..i + 1], m, now) ==
      AccountScores(groups[..i], m, now) + [BotScoreOf(groups[i].0, groups[i].1, m, now)]
  {
    PrefixGroups(groups, i);
    PrefixGroups(groups, i + 1);
    assert groups[..i + 1][..i] == groups[..i];
  }

  /** `_build_bot_scores`: group, score each account, rank and keep the first 200. */
  method BuildBotScores(posts: seq<Post>, m: Membership, now: int) returns (scores: seq<BotScore>)
    ensures scores == BotScores(posts, m, now)
  {
    var groups := AccountsOf(posts);
    if groups == [] {
      return [];
    }
    var all := ScoreAccounts(groups, m, now);
    scores := Take(RankBots(all), MaxBotScores);
  }

  lemma RoundWithinCap(p: real)
    requires 0.0 <= p <= MaxBotProbability
    ensures 0.0 <= Round(p, Digits3) <= MaxBotProbability
  {
    RoundMonotone(0.0, p, Digits3);
    RoundMonotone(p, MaxBotProbability, Digits3);
    RoundOfInt(0, Digits3);
    RoundOfUnits(990, Digits3);
  }

  /** Each account's rounded likelihood lies in [0, 0.99]. */
  lemma {:induction false} AccountScoresBounds(groups: AccountGroups, m: Membership, now: int)
    requires NonEmptyGroups(groups)
    ensures forall s :: s in AccountScores(groups, m, now) ==> 0.0 <= s.botProbability <= MaxBotProbability
  {
    if groups != [] {
      var init := groups[..|groups| - 1];
      var last := groups[|groups| - 1];
      assert forall i :: 0 <= i < |init| ==> init[i] == groups[i];
      AccountScoresBounds(init, m, now);
      RoundWithinCap(BotProbability(ActivityOf(last.0, last.1, m, now)));
    }
  }

  /** Every likelihood lies in [0, 0.99]; at most 200 accounts, most likely first. */
  lemma RankedScoresBounds(groups: AccountGroups, m: Membership, now: int)
    requires NonEmptyGroups(groups)
    ensures |RankedScores(groups, m, now)| <= MaxBotScores
    ensures forall s :: s in RankedScores(groups, m, now) ==> 0.0 <= s.botProbability <= MaxBotProbability
    ensures forall i, j :: 0 <= i < j < |RankedScores(groups, m, now)| ==>
      RankedScores(groups, m, now)[i].botProbability >= RankedScores(groups, m, now)[j].botProbability
  {
    var all := AccountScores(groups, m, now);
    var ranked := RankBots(all);
    var r := Take(ranked, MaxBotScores);
    AccountScoresBounds(groups, m, now);
    forall s | s in r ensures 0.0 <= s.botProbability <= MaxBotProbability {
      var k :| 0 <= k < |r| && r[k] == s;
      assert s == ranked[k];
      assert s in multiset(ranked);
      assert s in all;
    }
  }

  lemma BotScoresBounds(posts: seq<Post>, m: Membership, now: int)
    ensures |BotScores(posts, m, now)| <= MaxBotScores
    ensures forall s :: s in BotScores(posts, m, now) ==> 0.0 <= s.botProbability <= MaxBotProbability
    ensures forall i, j :: 0 <= i < j < |BotScores(posts, m, now)| ==>
      BotScores(posts, m, now)[i].botProbability >= BotScores(posts, m, now)[j].botProbability
  {
    RankedScoresBounds(AccountsOf(posts), m, now);
  }

  /** A score names the account keyed `key`: its handle lower-cases to the key. */
  predicate NamesAccount(s: BotScore, key: string)
  {
    Lower(s.handle) == key
  }

  lemma BotScoreOfNames(key: string, ps: seq<Post>, m: Membership, now: int)
    requires ps != []
    requires forall p :: p in ps ==> HandleKey(p) == key
    ensures NamesAccount(BotScoreOf(key, ps, m, now), key)
  {
    assert ps[0] in ps;
  }

  /** Each account's score names its account. */
  lemma {:induction false} AccountScoresKeys(groups: AccountGroups, m: Membership, now: int)
    requires KeyedGroups(groups)
    ensures forall i :: 0 <= i < |groups| ==> NamesAccount(AccountScores(groups, m, now)[i], groups[i].0)
  {
    if groups != [] {
      var init := groups[..|groups| - 1];
      var last := groups[|groups| - 1];
      var r := AccountScores(groups, m, now);
      var before := AccountScores(init, m, now);
      assert r == before + [BotScoreOf(last.0, last.1, m, now)];
      assert forall i :: 0 <= i < |init| ==> init[i] == groups[i];
      AccountScoresKeys(init, m, now);
      BotScoreOfNames(last.0, last.1, m, now);
      forall i | 0 <= i < |groups| ensures NamesAccount(r[i], groups[i].0) {
        if i < |init| {
          assert r[i] == before[i] && groups[i] == init[i];
          assert NamesAccount(before[i], init[i].0);
        } else {
          assert r[i] == BotScoreOf(last.0, last.1, m, now);
        }
      }
    }
  }

  lemma RankedScoresDistinct(groups: AccountGroups, m: Membership, now: int)
    requires KeyedGroups(groups)
    ensures forall i, j :: 0 <= i < j < |RankedScores(groups, m, now)| ==>
      Lower(RankedScores(groups, m, now)[i].handle) != Lower(RankedScores(groups, m, now)[j].handle)
  {
    var all := AccountScores(groups, m, now);
    var ranked := RankBots(all);
    var r := Take(ranked, MaxBotScores);
    AccountScoresKeys(groups, m, now);
    PermutedImageDistinct(all, ranked, ScoreKey);
    assert forall i :: 0 <= i < |r| ==> r[i] == ranked[i];
  }

  /** The lower-cased handle a score is filed under. */
  function ScoreKey(s: BotScore): string { Lower(s.handle) }

  /** There is one score per lower-cased handle: no account is scored twice. */
  lemma OneScorePerAccount(posts: seq<Post>, m: Membership, now: int)
    ensures forall i, j :: 0 <= i < j < |BotScores(posts, m, now)| ==>
      Lower(BotScores(posts, m, now)[i].handle) != Lower(BotScores(posts, m, now)[j].handle)
  {
    AccountsOfShape(posts);
    RankedScoresDistinct(AccountsOf(posts), m, now);
  }

  lemma RankedScoresComplete(groups: AccountGroups, m: Membership, now: int, i: int)
    requires KeyedGroups(groups)
    requires |groups| <= MaxBotScores
    requires 0 <= i < |groups|
    ensures exists s :: s in RankedScores(groups, m, now) && Lower(s.handle) == groups[i].0
  {
    var all := AccountScores(groups, m, now);
    var ranked := RankBots(all);
    AccountScoresKeys(groups, m, now);
    assert all[i] in multiset(ranked);
    assert Take(ranked, MaxBotScores) == ranked;
  }

  /** With at most 200 accounts, every account that posted is scored. */
  lemma EveryAccountScored(posts: seq<Post>, m: Membership, now: int, k: int)
    requires 0 <= k < |posts|
    requires |AccountsOf(posts)| <= MaxBotScores
    ensures exists s :: s in BotScores(posts, m, now) && Lower(s.handle) == HandleKey(posts[k])
  {
    AccountsOfShape(posts);
    var g := AccountsOf(posts);
    var i :| 0 <= i < |g| && g[i].0 == HandleKey(posts[k]);
    RankedScoresComplete(g, m, now, i);
  }

  // ---------------------------------------------------------------- AI-content likelihood

  /** The formal connectives counted as AI-style markers. */
  const FormalMarkers: set<string> := {
    "furthermore", "moreover", "therefore", "overall", "in conclusion",
    "sonuç olarak", "ayrıca", "bununla birlikte"
  }

  /** The markers that occur in the lower-cased text. */
  function MarkersIn(lowered: string): set<string>
  {
    set mk | mk in FormalMarkers && ContainsStr(lowered, mk)
  }

  /** The marker loop: one hit per distinct marker found. */
  method CountMarkers(lowered: string) returns (hits: nat)
    ensures hits == |MarkersIn(lowered)|
  {
    hits := 0;
    var rest := FormalMarkers;
    while rest != {}
      invariant rest <= FormalMarkers
      invariant hits == |MarkersIn(lowered) - rest|
      decreases rest
    {
      var mk :| mk in rest;
      if ContainsStr(lowered, mk) {
        assert MarkersIn(lowered) - (rest - {mk}) == (MarkersIn(lowered) - rest) + {mk};
        hits := hits + 1;
      } else {
        assert MarkersIn(lowered) - (rest - {mk}) == MarkersIn(lowered) - rest;
      }
      rest := rest - {mk};
    }
  }

  /** The non-empty space-separated words of a normalized text. */
  function WordsOf(normalized: string): seq<string>
  {
    Filter(Split(normalized, ' '), (w: string) => w != [])
  }

  /** Distinct words over words, 1 for no words. */
  function UniqueWordRatio(words: seq<string>): (r: real)
    ensures 0.0 <= r <= 1.0
    ensures words != [] ==> r > 0.0
  {
    if words == [] then 1.0
    else
      ElementsCard(words);
      RatioFacts(|set w | w in words|, |words|);
      |set w | w in words| as real / |words| as real
  }

  /** The adjacent word pairs "w_i w_{i+1}". */
  function Bigrams(words: seq<string>): (b: seq<string>)
    ensures |b| == if words == [] then 0 else |words| - 1
  {
    if |words| < 2 then [] else seq(|words| - 1, i requires 0 <= i < |words| - 1 => words[i] + " " + words[i + 1])
  }

  /** Sum of (count - 1) over the counts greater than one. */
  function RepeatedCount(c: seq<(string, nat)>): nat
  {
    if c == [] then 0 else (if c[0].1 > 1 then c[0].1 - 1 else 0) + RepeatedCount(c[1..])
  }

  /** When every key was seen at least once, the repeats are the total minus the distinct keys. */
  lemma {:induction false} RepeatedIsSurplus(c: seq<(string, nat)>)
    requires forall i :: 0 <= i < |c| ==> c[i].1 >= 1
    ensures RepeatedCount(c) + |c| == SumCounts(c)
    ensures RepeatedCount(c) == 0 <==> forall i :: 0 <= i < |c| ==> c[i].1 == 1
  {
    if c != [] {
      RepeatedIsSurplus(c[1..]);
      assert forall i :: 1 <= i < |c| ==> c[i] == c[1..][i - 1];
    }
  }

  /**
   * `_repeated_bigram_ratio`: the share of bigram occurrences that repeat an earlier one;
   * 0 for fewer than four words.
   */
  function RepeatedBigramRatio(words: seq<string>): (r: real)
  {
    if |words| < 4 then 0.0
    else
      var bigrams := Bigrams(words);
      RepeatedCount(CountAll(bigrams)) as real / MaxInt(|bigrams|, 1) as real
  }

  /** Fewer repeats than occurrences, and no repeats exactly when no element occurs twice. */
  lemma RepeatedCountFacts(b: seq<string>)
    requires b != []
    ensures RepeatedCount(CountAll(b)) < |b|
    ensures RepeatedCount(CountAll(b)) == 0 <==> forall i :: 0 <= i < |b| ==> Occurrences(b, b[i]) == 1
  {
    var c := CountAll(b);
    CountAllPositive(b);
    RepeatedIsSurplus(c);
    CountAllSum(b);
    CountAllOnes(b);
    assert b[0] in Dedup(b);
  }

  /** The ratio lies in [0, 1), and is 0 exactly when no bigram occurs twice. */
  lemma RepeatedBigramRatioFacts(words: seq<string>)
    requires |words| >= 4
    ensures 0.0 <= RepeatedBigramRatio(words) < 1.0
    ensures RepeatedBigramRatio(words) == 0.0 <==>
      forall i :: 0 <= i < |Bigrams(words)| ==> Occurrences(Bigrams(words), Bigrams(words)[i]) == 1
  {
    var b := Bigrams(words);
    var n := RepeatedCount(CountAll(b));
    RepeatedCountFacts(b);
    assert MaxInt(|b|, 1) == |b|;
    assert RepeatedBigramRatio(words) == n as real / |b| as real;
    RatioBelowOne(n, |b|);
  }

  /** `re.split(r"[.!?]+", text)` keeping the segments that are not blank. */
  function Sentences(text: string): seq<string>
  {
    var marked := MapSeq(text, (c: char) => if c == '.' || c == '!' || c == '?' then '.' else c);
    Filter(Split(marked, '.'), (seg: string) => Strip(seg) != [])
  }

  /** The number of whitespace-separated words of each sentence. */
  function SentenceLengths(text: string): seq<nat>
  {
    MapSeq(Sentences(text), (seg: string) => |Words(seg)|)
  }

  function SumNat(vs: seq<nat>): nat
  {
    if vs == [] then 0 else vs[0] + SumNat(vs[1..])
  }

  function SquaredDeviations(vs: seq<nat>, mean: real): (r: real)
    ensures r >= 0.0
  {
    if vs == [] then 0.0 else (vs[0] as real - mean) * (vs[0] as real - mean) + SquaredDeviations(vs[1..], mean)
  }

  /** The population variance, the square of `_std_dev`. */
  function Variance(vs: seq<nat>): (r: real)
    requires vs != []
    ensures r >= 0.0
  {
    var mean := SumNat(vs) as real / |vs| as real;
    SquaredDeviations(vs, mean) / |vs| as real
  }

  /**
   * `_std_dev(values) < limit` for a non-negative limit, decided without a square root:
   * the deviation is 0 for fewer than two values, and otherwise below the limit exactly
   * when the variance is below its square.
   */
  predicate StdDevBelow(vs: seq<nat>, limit: real)
    requires limit >= 0.0
  {
    |vs| < 2 || Variance(vs) < limit * limit
  }

  /** Sentence lengths whose standard deviation is below 4.5 words count as evenly written. */
  const SentenceSpreadLimit := 4.5

  /** Equal sentence lengths have no spread. */
  lemma {:induction false} SquaredDeviationsOfConstant(vs: seq<nat>, c: nat)
    requires forall i :: 0 <= i < |vs| ==> vs[i] == c
    ensures SquaredDeviations(vs, c as real) == 0.0
    ensures SumNat(vs) == c * |vs|
  {
    if vs != [] {
      SquaredDeviationsOfConstant(vs[1..], c);
    }
  }

  /** Posts whose sentences all have the same length count as evenly written. */
  lemma UniformSentencesLowSpread(vs: seq<nat>, c: nat)
    requires forall i :: 0 <= i < |vs| ==> vs[i] == c
    ensures StdDevBelow(vs, SentenceSpreadLimit)
  {
    if |vs| >= 2 {
      SquaredDeviationsOfConstant(vs, c);
      var n := |vs| as real;
      assert SumNat(vs) as real == c as real * n;
      assert SumNat(vs) as real / n == c as real;
      assert Variance(vs) == 0.0;
    }
  }

  /** The text signals of one post. */
  datatype TextSignals = TextSignals(wordCount: nat, uniqueRatio: real, repetition: real, markerHits: nat, lowSpread: bool)

  function UniqueBonus(ratio: real): real
  {
    if ratio < 0.45 then 0.25 else if ratio < 0.55 then 0.15 else 0.0
  }

  function RepetitionBonus(repetition: real): real
  {
    if repetition > 0.22 then 0.25 else if repetition > 0.12 then 0.1 else 0.0
  }

  function MarkerBonus(hits: nat): real
  {
    if hits >= 2 then 0.2 else if hits == 1 then 0.1 else 0.0
  }

  /** Long texts with even sentence lengths (spread below 4.5 words) look generated. */
  function LengthBonus(s: TextSignals): real
  {
    if s.wordCount >= 80 && s.lowSpread then 0.15 else 0.0
  }

  const TextBase := 0.08
  const MaxAiProbability := 0.99

  /** The base likelihood plus the increments the text earns, clipped to [0, 0.99]. */
  function AiTextProbability(s: TextSignals): (p: real)
    ensures 0.0 <= p <= MaxAiProbability
  {
    Clamp(TextBase + UniqueBonus(s.uniqueRatio) + RepetitionBonus(s.repetition) + MarkerBonus(s.markerHits)
      + LengthBonus(s), 0.0, MaxAiProbability)
  }

  /** The increments of `_build_ai_content_scores`, tested in the source's order. */
  method ScoreText(s: TextSignals) returns (p: real)
    ensures p == AiTextProbability(s)
  {
    p := 0.08;
    if s.uniqueRatio < 0.45 {
      p := p + 0.25;
    } else if s.uniqueRatio < 0.55 {
      p := p + 0.15;
    }
    if s.repetition > 0.22 {
      p := p + 0.25;
    } else if s.repetition > 0.12 {
      p := p + 0.1;
    }
    if s.markerHits >= 2 {
      p := p + 0.2;
    } else if s.markerHits == 1 {
      p := p + 0.1;
    }
    if s.wordCount >= 80 && s.lowSpread {
      p := p + 0.15;
    }
    p := MaxReal(0.0, MinReal(p, 0.99));
  }

  /** A text with varied words, no repeats and no markers keeps the base likelihood. */
  lemma PlainTextScoresBase(s: TextSignals)
    requires s.uniqueRatio >= 0.55 && s.repetition <= 0.12 && s.markerHits == 0
    requires s.wordCount < 80 || !s.lowSpread
    ensures AiTextProbability(s) == TextBase
  {
  }

  function SignalsOf(p: Post, hits: nat): TextSignals
  {
    var words := WordsOf(NormalizeText(p.text));
    TextSignals(|words|, UniqueWordRatio(words), RepeatedBigramRatio(words), hits,
      StdDevBelow(SentenceLengths(p.text), SentenceSpreadLimit))
  }

  const NoProvenanceNote := "X API does not expose original file provenance/C2PA metadata."
  const MediaNote := "Media URLs are present, but original binaries were not downloaded in this pass."

  datatype AiContentScore = AiContentScore(
    tweetId: string,
    aiTextProbability: real,
    aiImageProbability: real,
    provenanceNotes: seq<string>,
    confidence: Level)

  /** Posts with media get a fixed image likelihood of 0.2: the binaries are never fetched. */
  function ImageProbability(p: Post): real
  {
    if p.mediaUrls != [] then 0.2 else 0.0
  }

  function ProvenanceNotes(p: Post, collectionNotes: seq<string>): seq<string>
  {
    [NoProvenanceNote] + (if p.mediaUrls != [] then [MediaNote] else []) + Take(collectionNotes, 2)
  }

  function AiScoreOf(p: Post, collectionNotes: seq<string>): AiContentScore
  {
    var s := SignalsOf(p, |MarkersIn(Lower(p.text))|);
    AiContentScore(p.tweetId, Round(AiTextProbability(s), Digits3), Round(ImageProbability(p), Digits3),
      ProvenanceNotes(p, collectionNotes), if s.wordCount >= 40 then Medium else Low)
  }

  /** What `_build_ai_content_scores` returns. */
  function AiContentScores(posts: seq<Post>, collectionNotes: seq<string>): (r: seq<AiContentScore>)
    ensures |r| == |posts|
  {
    if posts == [] then []
    else AiContentScores(posts[..|posts| - 1], collectionNotes) + [AiScoreOf(posts[|posts| - 1], collectionNotes)]
  }

  lemma AiContentScoresSnoc(posts: seq<Post>, i: int, collectionNotes: seq<string>)
    requires 0 <= i < |posts|
    ensures AiContentScores(posts[..i + 1], collectionNotes)
      == AiContentScores(posts[..i], collectionNotes) + [AiScoreOf(posts[i], collectionNotes)]
  {
    assert posts[..i + 1][..i] == posts[..i];
  }

  /** The body of the loop of `_build_ai_content_scores`: one post's score. */
  method ScorePost(p: Post, collectionNotes: seq<string>) returns (s: AiContentScore)
    ensures s == AiScoreOf(p, collectionNotes)
  {
    var hits := CountMarkers(Lower(p.text));
    var signals := SignalsOf(p, hits);
    var textProbability := ScoreText(signals);
    s := AiContentScore(p.tweetId, Round(textProbability, Digits3), Round(ImageProbability(p), Digits3),
      ProvenanceNotes(p, collectionNotes), if signals.wordCount >= 40 then Medium else Low);
  }

  /** The loop of `_build_ai_content_scores`, one score per post. */
  method BuildAiContentScores(posts: seq<Post>, collectionNotes: seq<string>) returns (scores: seq<AiContentScore>)
    ensures scores == AiContentScores(posts, collectionNotes)
  {
    scores := [];
    for i := 0 to |posts|
      invariant scores == AiContentScores(posts[..i], collectionNotes)
    {
      var score := ScorePost(posts[i], collectionNotes);
      AiContentScoresSnoc(posts, i, collectionNotes);
      scores := scores + [score];
    }
    assert posts[..|posts|] == posts;
  }

  /**
   * A post's score: it carries the post's id, a text likelihood in [0, 0.99], and an image
   * likelihood of 0.2 when the post has media and 0 otherwise.
   */
  predicate ScoreFits(s: AiContentScore, p: Post)
  {
    s.tweetId == p.tweetId
    && 0.0 <= s.aiTextProbability <= MaxAiProbability
    && s.aiImageProbability == (if p.mediaUrls != [] then 0.2 else 0.0)
  }

  lemma AiScoreOfShape(p: Post, collectionNotes: seq<string>)
    ensures ScoreFits(AiScoreOf(p, collectionNotes), p)
  {
    RoundOfUnits(200, Digits3);
    RoundOfInt(0, Digits3);
    RoundWithinCap(AiTextProbability(SignalsOf(p, |MarkersIn(Lower(p.text))|)));
  }

  /** The i-th score is the score of the i-th post. */
  lemma {:induction false} AiContentScoresAt(posts: seq<Post>, i: int, collectionNotes: seq<string>)
    requires 0 <= i < |posts|
    ensures AiContentScores(posts, collectionNotes)[i] == AiScoreOf(posts[i], collectionNotes)
    decreases |posts|
  {
    if i < |posts| - 1 {
      var init := posts[..|posts| - 1];
      AiContentScoresAt(init, i, collectionNotes);
      assert init[i] == posts[i];
    }
  }

  /** One score per post, in order, each fitting its post. */
  lemma AiScoresShape(posts: seq<Post>, collectionNotes: seq<string>)
    ensures |AiContentScores(posts, collectionNotes)| == |posts|
    ensures forall i :: 0 <= i < |posts| ==> ScoreFits(AiContentScores(posts, collectionNotes)[i], posts[i])
  {
    forall i | 0 <= i < |posts| ensures ScoreFits(AiContentScores(posts, collectionNotes)[i], posts[i]) {
      AiContentScoresAt(posts, i, collectionNotes);
      AiScoreOfShape(posts[i], collectionNotes);
    }
  }
}
