// Building coordinated clusters: each merged candidate set becomes a cluster of at least
// three posts, with the hashtags and URLs its posts share, its similarity and burst scores,
// up to three top accounts (the seed, a bridge, amplifiers) and its most engaged posts.

module XIntelCluster {
  import opened Common
  import opened Text
  import opened Collections
  import opened Numerals
  import opened XIntelPosts
  import opened XIntelCandidates
  import opened XIntelMerge
  import opened XIntelSimilarity

  datatype Role = Seed | Amplifier | Bridge

  datatype TopAccount = TopAccount(userId: string, handle: string, role: Role)

  datatype TopPost = TopPost(
    tweetId: string,
    text: string,
    createdAt: string,
    urls: seq<string>,
    hashtags: seq<string>,
    mentions: seq<string>)

  datatype Cluster = Cluster(
    clusterId: string,
    size: nat,
    sharedHashtags: seq<string>,
    sharedUrls: seq<string>,
    timeBurstScore: real,
    textSimilarityScore: real,
    topAccounts: seq<TopAccount>,
    topPosts: seq<TopPost>)

  /** `account_membership`: lower-cased handle to the ids of the clusters it posted in. */
  type Membership = map<string, set<string>>

  /** `account_membership.get(handle, set())` */
  function MembershipOf(m: Membership, h: string): set<string>
  {
    if h in m then m[h] else {}
  }

  // ---------------------------------------------------------------- shared keys

  /** The keys of a `Counter` whose count is at least 2, in first-seen order. */
  function Repeated(keys: seq<string>): (r: seq<string>)
    ensures forall k :: k in r <==> Occurrences(keys, k) >= 2
  {
    var c := CountAll(keys);
    var f := Filter(c, (p: (string, nat)) => p.1 >= 2);
    var r := Keys(f);
    assert forall k :: k in r <==> Occurrences(keys, k) >= 2 by {
      forall k ensures k in r <==> Occurrences(keys, k) >= 2 {
        if k in r {
          var i :| 0 <= i < |r| && r[i] == k;
          assert f[i] in c;
          var j :| 0 <= j < |c| && c[j] == f[i];
        }
        if Occurrences(keys, k) >= 2 {
          assert k in multiset(keys);
          assert k in Dedup(keys);
          var j :| 0 <= j < |Dedup(keys)| && Dedup(keys)[j] == k;
          assert c[j] in f;
          var i :| 0 <= i < |f| && f[i] == c[j];
          assert r[i] == k;
        }
      }
    }
    r
  }

  const MaxShared := 8

  /** No key occurs twice. */
  predicate NoRepeats(keys: seq<string>)
  {
    forall i :: 0 <= i < |keys| ==> Occurrences(keys, keys[i]) < 2
  }

  /**
   * `shared_hashtags` / `shared_urls`: up to 8 keys that at least two of the cluster's
   * keys repeat; empty exactly when no key repeats.
   */
  function SharedKeys(keys: seq<string>): (r: seq<string>)
    ensures |r| <= MaxShared
    ensures forall k :: k in r ==> Occurrences(keys, k) >= 2
    ensures r == [] <==> NoRepeats(keys)
    ensures |Repeated(keys)| <= MaxShared ==> forall k :: k in r <==> Occurrences(keys, k) >= 2
  {
    var rep := Repeated(keys);
    assert rep != [] ==> !NoRepeats(keys) by {
      if rep != [] {
        assert rep[0] in rep;
        assert Occurrences(keys, rep[0]) >= 2;
        assert rep[0] in multiset(keys);
        var i :| 0 <= i < |keys| && keys[i] == rep[0];
      }
    }
    assert !NoRepeats(keys) ==> rep != [] by {
      if !NoRepeats(keys) {
        var i :| 0 <= i < |keys| && Occurrences(keys, keys[i]) >= 2;
        assert keys[i] in rep;
      }
    }
    Take(rep, MaxShared)
  }

  function SharedHashtags(ws: seq<WorkingPost>): seq<string> { SharedKeys(AllKeys(ws, HashtagKeys)) }

  function SharedUrls(ws: seq<WorkingPost>): seq<string> { SharedKeys(AllKeys(ws, UrlKeys)) }

  // ---------------------------------------------------------------- accounts

  /** The lower-cased author handle of each post. */
  function AuthorKeys(ws: seq<WorkingPost>): seq<string> { MapSeq(ws, WKey) }

  /** `[handle for handle, _ in author_counts.most_common()]`: most frequent authors first. */
  function RankedHandles(ws: seq<WorkingPost>): (r: seq<string>)
    ensures forall h :: h in r ==> h in AuthorKeys(ws)
  {
    var c := CountAll(AuthorKeys(ws));
    MostCommonKeys(c);
    var r := Keys(MostCommon(c));
    assert forall h :: h in r ==> h in AuthorKeys(ws) by {
      forall h | h in r ensures h in AuthorKeys(ws) {
        var i :| 0 <= i < |r| && r[i] == h;
        assert MostCommon(c)[i] in c;
        var j :| 0 <= j < |c| && c[j] == MostCommon(c)[i];
        assert h == Dedup(AuthorKeys(ws))[j];
      }
    }
    r
  }

  /**
   * The bridge: the most frequent author, other than the seed, already in more than one
   * cluster; an empty handle counts as none.
   */
  function BridgeOf(ws: seq<WorkingPost>, m: Membership): (b: Option<string>)
    requires |ws| > 0
    ensures b.Some? ==> b.value != WKey(ws[0]) && b.value != ""
    ensures b.Some? ==> b.value in AuthorKeys(ws) && |MembershipOf(m, b.value)| > 1
  {
    var earliest := WKey(ws[0]);
    var cands := Filter(RankedHandles(ws), h => |MembershipOf(m, h)| > 1 && h != earliest);
    if cands != [] && cands[0] != "" then
      assert cands[0] in cands;
      Some(cands[0])
    else None
  }

  /**
   * The selection loop: append each ranked handle not yet selected, stopping once three
   * are selected.
   */
  function SelectFrom(selected: seq<string>, hs: seq<string>): (r: seq<string>)
    ensures |r| >= |selected| && r[..|selected|] == selected
    ensures Distinct(selected) ==> Distinct(r)
    ensures |selected| < 3 ==> |r| <= 3
    ensures forall h :: h in r ==> h in selected || h in hs
    ensures |r| < 3 ==> forall h :: h in hs ==> h in r
    decreases |hs|
  {
    if hs == [] then selected
    else
      var s := if hs[0] in selected then selected else selected + [hs[0]];
      assert s[..|selected|] == selected;
      assert Distinct(selected) ==> Distinct(s) by {
        if Distinct(selected) && hs[0] !in selected {
          forall i, j | 0 <= i < j < |s| ensures s[i] != s[j] {
            if j == |selected| {
              assert s[i] in selected;
            }
          }
        }
      }
      assert hs[0] in s;
      if |s| >= 3 then s
      else
        var r := SelectFrom(s, hs[1..]);
        assert r[..|selected|] == r[..|s|][..|selected|];
        assert forall h :: h in hs ==> h == hs[0] || h in hs[1..];
        r
  }

  /** `[earliest]`, then the bridge (never the seed itself). */
  function InitialSelection(earliest: string, bridge: Option<string>): (s: seq<string>)
    ensures 1 <= |s| <= 2 && s[0] == earliest && Distinct(s)
  {
    [earliest] + (if bridge.Some? && bridge.value !in [earliest] then [bridge.value] else [])
  }

  function RoleOf(h: string, earliest: string, bridge: Option<string>): Role
  {
    if h == earliest then Seed
    else if bridge == Some(h) then Bridge
    else Amplifier
  }

  /** `next(item.post for item in posts if handle matches)`: the first post by h. */
  function Exemplar(ws: seq<WorkingPost>, h: string): (p: Post)
    requires h in AuthorKeys(ws)
    ensures HandleKey(p) == h
    decreases |ws|
  {
    if WKey(ws[0]) == h then ws[0].post
    else
      var i :| 0 <= i < |ws| && AuthorKeys(ws)[i] == h;
      assert AuthorKeys(ws[1..])[i - 1] == h;
      Exemplar(ws[1..], h)
  }

  /** The top-account entries of the selected handles, in selection order. */
  function AccountsFor(ws: seq<WorkingPost>, hs: seq<string>, earliest: string, bridge: Option<string>): (r: seq<TopAccount>)
    requires forall h :: h in hs ==> h in AuthorKeys(ws)
    ensures |r| == |hs|
    ensures forall k :: 0 <= k < |hs| ==> r[k].role == RoleOf(hs[k], earliest, bridge) && Lower(r[k].handle) == hs[k]
    decreases |hs|
  {
    if hs == [] then []
    else
      [AccountFor(ws, hs[0], earliest, bridge)] + AccountsFor(ws, hs[1..], earliest, bridge)
  }

  /** The entry of one handle: the user id and handle of its first post, and its role. */
  function AccountFor(ws: seq<WorkingPost>, h: string, earliest: string, bridge: Option<string>): (a: TopAccount)
    requires h in AuthorKeys(ws)
    ensures a.role == RoleOf(h, earliest, bridge) && Lower(a.handle) == h
  {
    var p := Exemplar(ws, h);
    TopAccount(p.author.userId, p.author.handle, RoleOf(h, earliest, bridge))
  }

  // ---------------------------------------------------------------- top posts

  function PostOf(w: WorkingPost): Post { w.post }

  function ByEngagement(a: Post, b: Post): bool { Engagement(a) >= Engagement(b) }

  /** `sorted(posts, key=engagement, reverse=True)`: most engaged first, ties in cluster order. */
  function RankedPosts(ws: seq<WorkingPost>): (r: seq<Post>)
    ensures multiset(r) == multiset(MapSeq(ws, PostOf))
    ensures forall i, j :: 0 <= i < j < |r| ==> Engagement(r[i]) >= Engagement(r[j])
  {
    var r := SortBy(MapSeq(ws, PostOf), ByEngagement);
    assert Total(ByEngagement) && Transitive(ByEngagement);
    SortBySorted(MapSeq(ws, PostOf), ByEngagement);
    assert forall i, j :: 0 <= i < j < |r| ==> Engagement(r[i]) >= Engagement(r[j]) by {
      forall i, j | 0 <= i < j < |r| ensures Engagement(r[i]) >= Engagement(r[j]) {
        SortedPairwise(r, ByEngagement, i, j);
      }
    }
    r
  }

  const MaxTopText := 280

  function ToTopPost(p: Post): TopPost
  {
    TopPost(p.tweetId, Take(p.text, MaxTopText), p.createdAt, RawUrls(p), p.hashtags, p.mentions)
  }

  /** The three most engaged posts, their text cut to 280 characters. */
  function TopPosts(ws: seq<WorkingPost>): (r: seq<TopPost>)
    ensures |r| == MinInt(3, |ws|)
    ensures forall k :: 0 <= k < |r| ==> |r[k].text| <= MaxTopText && r[k].tweetId == RankedPosts(ws)[k].tweetId
  {
    assert |RankedPosts(ws)| == |ws|;
    MapSeq(Take(RankedPosts(ws), 3), ToTopPost)
  }

  // ---------------------------------------------------------------- the cluster

  const MinClusterPosts := 3
  /** Without a shared hashtag or URL the posts must be at least this similar. */
  const SimilarityAlone := 0.65
  const LargeCluster := 25
  const WeakSimilarity := 0.1
  const WeakBurst := 0.25

  /** The handles `_build_cluster` reports as top accounts. */
  function SelectedHandles(ws: seq<WorkingPost>, m: Membership): (hs: seq<string>)
    requires |ws| > 0
    ensures 1 <= |hs| <= 3 && hs[0] == WKey(ws[0]) && Distinct(hs)
    ensures forall h :: h in hs ==> h in AuthorKeys(ws)
  {
    var earliest := WKey(ws[0]);
    var init := InitialSelection(earliest, BridgeOf(ws, m));
    var s := SelectFrom(init, RankedHandles(ws));
    assert AuthorKeys(ws)[0] == earliest;
    assert s[0] == s[..|init|][0];
    Take(s, 3)
  }

  /** Exactly one top account, the first, is the seed, and at most one is a bridge. */
  predicate RolesWellFormed(accounts: seq<TopAccount>)
  {
    && |accounts| >= 1
    && accounts[0].role == Seed
    && (forall k :: 0 < k < |accounts| ==> accounts[k].role != Seed)
    && (forall a, b :: 0 <= a < b < |accounts| && accounts[a].role == Bridge ==> accounts[b].role != Bridge)
  }

  /** Distinct handles led by the seed give exactly one seed and at most one bridge. */
  lemma AccountRoles(ws: seq<WorkingPost>, hs: seq<string>, earliest: string, bridge: Option<string>)
    requires forall h :: h in hs ==> h in AuthorKeys(ws)
    requires |hs| >= 1 && hs[0] == earliest && Distinct(hs)
    ensures RolesWellFormed(AccountsFor(ws, hs, earliest, bridge))
  {
    RolesOfDistinct(AccountsFor(ws, hs, earliest, bridge), hs, earliest, bridge);
  }

  /** Entries whose roles follow distinct handles led by the seed have well-formed roles. */
  lemma RolesOfDistinct(accounts: seq<TopAccount>, hs: seq<string>, earliest: string, bridge: Option<string>)
    requires |accounts| == |hs| >= 1 && hs[0] == earliest && Distinct(hs)
    requires forall k :: 0 <= k < |hs| ==> accounts[k].role == RoleOf(hs[k], earliest, bridge)
    ensures RolesWellFormed(accounts)
  {
    forall k | 0 < k < |accounts| ensures accounts[k].role != Seed {
      assert hs[k] != hs[0];
    }
    forall a, b | 0 <= a < b < |accounts| && accounts[a].role == Bridge
      ensures accounts[b].role != Bridge
    {
      assert hs[a] == bridge.value && hs[a] != hs[b];
    }
  }

  /** The shape every built cluster has. */
  predicate WellFormedCluster(c: Cluster, ws: seq<WorkingPost>)
  {
    && c.size == |ws| >= 3
    && |c.sharedHashtags| <= MaxShared && |c.sharedUrls| <= MaxShared
    && 0.0 <= c.timeBurstScore <= 1.0 && 0.0 <= c.textSimilarityScore <= 1.0
    && |c.topAccounts| <= 3
    && RolesWellFormed(c.topAccounts)
    && (forall a :: a in c.topAccounts ==> Lower(a.handle) in AuthorKeys(ws))
    && |c.topPosts| == 3
    && (forall k :: 0 <= k < 3 ==> |c.topPosts[k].text| <= MaxTopText)
  }

  /** The cluster `_build_cluster` returns once no rejection rule applies. */
  function Summary(clusterId: string, ws: seq<WorkingPost>, m: Membership): (c: Cluster)
    requires |ws| >= MinClusterPosts
    ensures WellFormedCluster(c, ws) && c.clusterId == clusterId
    ensures Lower(c.topAccounts[0].handle) == HandleKey(ws[0].post)
  {
    var hs := SelectedHandles(ws, m);
    AccountRoles(ws, hs, WKey(ws[0]), BridgeOf(ws, m));
    var accounts := AccountsFor(ws, hs, WKey(ws[0]), BridgeOf(ws, m));
    AccountsKnown(accounts, hs, AuthorKeys(ws));
    var c := Cluster(clusterId, |ws|, SharedHashtags(ws), SharedUrls(ws), BurstScore(ws), TextSimilarity(ws), accounts, TopPosts(ws));
    assert Lower(c.topAccounts[0].handle) == hs[0];
    c
  }

  /** The fields of the summary, one by one. */
  lemma SummaryIs(clusterId: string, ws: seq<WorkingPost>, m: Membership)
    requires |ws| >= MinClusterPosts
    ensures Summary(clusterId, ws, m) ==
      Cluster(clusterId, |ws|, SharedHashtags(ws), SharedUrls(ws), BurstScore(ws), TextSimilarity(ws),
              AccountsFor(ws, SelectedHandles(ws, m), WKey(ws[0]), BridgeOf(ws, m)), TopPosts(ws))
  {
  }

  /** Entries whose lower-cased handles are the selected handles name authors of the cluster. */
  lemma AccountsKnown(accounts: seq<TopAccount>, hs: seq<string>, keys: seq<string>)
    requires |accounts| == |hs|
    requires forall k :: 0 <= k < |hs| ==> Lower(accounts[k].handle) == hs[k]
    requires forall h :: h in hs ==> h in keys
    ensures forall a :: a in accounts ==> Lower(a.handle) in keys
  {
    forall a | a in accounts ensures Lower(a.handle) in keys {
      var k :| 0 <= k < |accounts| && accounts[k] == a;
      assert hs[k] in hs;
    }
  }

  /**
   * `_build_cluster`: None for fewer than 3 posts, for posts sharing neither a hashtag nor
   * a URL that are not similar enough, and for large clusters that are neither similar
   * nor bursty; otherwise the cluster summary.
   */
  function ClusterOf(clusterId: string, ws: seq<WorkingPost>, m: Membership): Option<Cluster>
  {
    if |ws| < MinClusterPosts then None
    else if SharedHashtags(ws) == [] && SharedUrls(ws) == [] && TextSimilarity(ws) < SimilarityAlone then None
    else if |ws| > LargeCluster && TextSimilarity(ws) < WeakSimilarity && BurstScore(ws) < WeakBurst then None
    else Some(Summary(clusterId, ws, m))
  }

  /** When `_build_cluster` gives no cluster, and only then. */
  lemma ClusterRejection(clusterId: string, ws: seq<WorkingPost>, m: Membership)
    ensures ClusterOf(clusterId, ws, m).None? <==>
      || |ws| < 3
      || (NoRepeats(AllKeys(ws, HashtagKeys)) && NoRepeats(AllKeys(ws, UrlKeys)) && TextSimilarity(ws) < 0.65)
      || (|ws| > 25 && TextSimilarity(ws) < 0.1 && BurstScore(ws) < 0.25)
  {
  }

  /** A built cluster is well formed and carries the id it was given. */
  lemma ClusterShape(clusterId: string, ws: seq<WorkingPost>, m: Membership)
    requires ClusterOf(clusterId, ws, m).Some?
    ensures WellFormedCluster(ClusterOf(clusterId, ws, m).value, ws)
    ensures ClusterOf(clusterId, ws, m).value.clusterId == clusterId
  {
  }

  /** The top posts are the most engaged: none of the others has more engagement. */
  lemma TopPostsMostEngaged(ws: seq<WorkingPost>, k: int, j: int)
    requires 0 <= k < 3 <= j < |ws|
    ensures TopPosts(ws)[k].tweetId == RankedPosts(ws)[k].tweetId
    ensures Engagement(RankedPosts(ws)[k]) >= Engagement(RankedPosts(ws)[j])
  {
    assert |RankedPosts(ws)| == |ws|;
  }

  // ---------------------------------------------------------------- method

  /** The selection loop of `_build_cluster`, with its early `break`. */
  method SelectHandles(earliest: string, bridge: Option<string>, ranked: seq<string>) returns (selected: seq<string>)
    ensures selected == SelectFrom(InitialSelection(earliest, bridge), ranked)
  {
    selected := [earliest];
    if bridge.Some? && bridge.value !in selected {
      selected := selected + [bridge.value];
    }
    assert selected == InitialSelection(earliest, bridge);
    ghost var target := SelectFrom(selected, ranked);
    var k := 0;
    while k < |ranked|
      invariant 0 <= k <= |ranked|
      invariant SelectFrom(selected, ranked[k..]) == target
    {
      assert ranked[k..][1..] == ranked[k + 1..];
      if ranked[k] !in selected {
        selected := selected + [ranked[k]];
      }
      if |selected| >= 3 {
        assert selected == target;
        break;
      }
      k := k + 1;
    }
    if k == |ranked| {
      assert ranked[k..] == [];
    }
  }

  /** The top-account loop of `_build_cluster`. */
  method CollectAccounts(ws: seq<WorkingPost>, chosen: seq<string>, earliest: string, bridge: Option<string>)
    returns (accounts: seq<TopAccount>)
    requires forall h :: h in chosen ==> h in AuthorKeys(ws)
    ensures accounts == AccountsFor(ws, chosen, earliest, bridge)
  {
    accounts := [];
    var i := 0;
    while i < |chosen|
      invariant 0 <= i <= |chosen| && |accounts| == i
      invariant forall k :: 0 <= k < i ==> accounts[k] == AccountFor(ws, chosen[k], earliest, bridge)
    {
      var handle := chosen[i];
      assert handle in chosen;
      var role := Amplifier;
      if handle == earliest {
        role := Seed;
      } else if bridge.Some? && handle == bridge.value {
        role := Bridge;
      }
      var exemplar := Exemplar(ws, handle);
      accounts := accounts + [TopAccount(exemplar.author.userId, exemplar.author.handle, role)];
      i := i + 1;
    }
    AccountsForEach(ws, chosen, earliest, bridge);
  }

  lemma {:induction false} AccountsForEach(ws: seq<WorkingPost>, hs: seq<string>, earliest: string, bridge: Option<string>)
    requires forall h :: h in hs ==> h in AuthorKeys(ws)
    ensures forall k :: 0 <= k < |hs| ==> AccountsFor(ws, hs, earliest, bridge)[k] == AccountFor(ws, hs[k], earliest, bridge)
    decreases |hs|
  {
    if hs != [] {
      AccountsForEach(ws, hs[1..], earliest, bridge);
    }
  }

  /** `_build_cluster`. */
  method BuildCluster(clusterId: string, ws: seq<WorkingPost>, m: Membership) returns (r: Option<Cluster>)
    ensures r == ClusterOf(clusterId, ws, m)
  {
    if |ws| < MinClusterPosts {
      return None;
    }
    var tags := SharedHashtags(ws);
    var urls := SharedUrls(ws);
    var sim := TextSimilarity(ws);
    var burst := BurstScore(ws);
    if tags == [] && urls == [] && sim < SimilarityAlone {
      return None;
    }
    if |ws| > LargeCluster && sim < WeakSimilarity && burst < WeakBurst {
      return None;
    }
    var c := AssembleSummary(clusterId, ws, m, tags, urls, burst, sim);
    r := Some(c);
  }

  /** The tail of `_build_cluster` once no rejection rule applies: accounts, then the result dict. */
  method AssembleSummary(clusterId: string, ws: seq<WorkingPost>, m: Membership,
                         tags: seq<string>, urls: seq<string>, burst: real, sim: real) returns (c: Cluster)
    requires |ws| >= MinClusterPosts
    requires tags == SharedHashtags(ws) && urls == SharedUrls(ws) && burst == BurstScore(ws) && sim == TextSimilarity(ws)
    ensures c == Summary(clusterId, ws, m)
  {
    var earliest := WKey(ws[0]);
    var bridge := BridgeOf(ws, m);
    var selected := SelectHandles(earliest, bridge, RankedHandles(ws));
    var chosen := Take(selected, 3);
    assert chosen == SelectedHandles(ws, m);
    var accounts := CollectAccounts(ws, chosen, earliest, bridge);
    SummaryIs(clusterId, ws, m);
    c := Cluster(clusterId, |ws|, tags, urls, burst, sim, accounts, TopPosts(ws));
  }
}
