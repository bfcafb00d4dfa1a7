// `_find_coordinated_clusters`: gather the candidate sets, merge them, and turn each merged
// set of at least three posts into a cluster, recording which accounts posted in it.

module XIntelFind {
  import opened Common
  import opened Text
  import opened Collections
  import opened Numerals
  import opened XIntelPosts
  import opened XIntelCandidates
  import opened XIntelMerge
  import opened XIntelCluster

  /** Hashtag, URL and text groups that qualify, then the burst windows, in that order. */
  function CandidateSets(ws: seq<WorkingPost>): seq<set<string>>
  {
    var pm := PostMap(ws);
    CandidatesFromGroups(pm, Groups(ws, HashtagKeys))
    + CandidatesFromGroups(pm, Groups(ws, UrlKeys))
    + CandidatesFromGroups(pm, Groups(ws, TextKeys))
    + BurstCandidates(ws)
  }

  /** The working posts' ids in the order they are first seen. */
  function IdOrder(ws: seq<WorkingPost>): seq<string>
  {
    Dedup(MapSeq(ws, WId))
  }

  /** `post_map[id] for id in ids if id in post_map` */
  function PostsOf(pm: map<string, WorkingPost>, ids: seq<string>): (r: seq<WorkingPost>)
    ensures forall w :: w in r ==> exists id :: id in ids && id in pm && pm[id] == w
    ensures forall id :: id in ids && id in pm ==> pm[id] in r
  {
    if ids == [] then []
    else
      var rest := PostsOf(pm, ids[1..]);
      assert forall id :: id in ids ==> id == ids[0] || id in ids[1..];
      (if ids[0] in pm then [pm[ids[0]]] else []) + rest
  }

  /**
   * The posts of one merged set, oldest first.  The set's ids are taken in the order the
   * posts were first seen, so posts created in the same second keep that order.
   */
  function ClusterPosts(ws: seq<WorkingPost>, ids: set<string>): seq<WorkingPost>
  {
    SortedByCreated(PostsOf(PostMap(ws), Filter(IdOrder(ws), id => id in ids)))
  }

  lemma SortedSameElements(posts: seq<WorkingPost>)
    ensures forall w :: w in SortedByCreated(posts) <==> w in posts
  {
    var r := SortedByCreated(posts);
    forall w ensures w in r <==> w in posts {
      assert w in r <==> w in multiset(r);
      assert w in posts <==> w in multiset(posts);
    }
  }

  /** The posts of a set are posts of the input whose ids are in the set. */
  lemma ClusterPostsMembers(ws: seq<WorkingPost>, ids: set<string>)
    ensures forall w :: w in ClusterPosts(ws, ids) ==> w in ws && WId(w) in ids
  {
    var order := Filter(IdOrder(ws), id => id in ids);
    SortedSameElements(PostsOf(PostMap(ws), order));
  }

  /** The post `post_map` holds for every id of the set is among the set's posts. */
  lemma ClusterPostsComplete(ws: seq<WorkingPost>, ids: set<string>, i: int)
    requires 0 <= i < |ws| && WId(ws[i]) in ids
    ensures PostMap(ws)[WId(ws[i])] in ClusterPosts(ws, ids)
  {
    var id := WId(ws[i]);
    var pm := PostMap(ws);
    assert MapSeq(ws, WId)[i] == id;
    assert id in IdOrder(ws);
    var order := Filter(IdOrder(ws), id => id in ids);
    assert id in order;
    assert id in pm;
    var posts := PostsOf(pm, order);
    assert pm[id] in posts;
    SortedSameElements(posts);
  }

  /** The posts of a set come oldest first. */
  lemma ClusterPostsSorted(ws: seq<WorkingPost>, ids: set<string>)
    ensures var r := ClusterPosts(ws, ids); forall i, j :: 0 <= i <= j < |r| ==> r[i].created <= r[j].created
  {
  }

  /** `f"cluster-{index}"` */
  function ClusterId(index: int): string
  {
    "cluster-" + IntToString(index)
  }

  lemma ClusterIdInjective(a: int, b: int)
    requires ClusterId(a) == ClusterId(b)
    ensures a == b
  {
    var p := "cluster-";
    assert IntToString(a) == ClusterId(a)[|p|..];
    assert IntToString(b) == ClusterId(b)[|p|..];
    IntRoundTrip(a);
    IntRoundTrip(b);
  }

  /** Adding cluster id to the membership of every author of the cluster's posts. */
  function AddMembership(m: Membership, cp: seq<WorkingPost>, id: string): Membership
    decreases |cp|
  {
    if cp == [] then m
    else
      var h := WKey(cp[|cp| - 1]);
      var m2 := AddMembership(m, cp[..|cp| - 1], id);
      m2[h := MembershipOf(m2, h) + {id}]
  }

  /** Recording a cluster adds its id to the membership of its posts' authors, and no other. */
  lemma {:induction false} AddMembershipOf(m: Membership, cp: seq<WorkingPost>, id: string, h: string)
    ensures MembershipOf(AddMembership(m, cp, id), h) == MembershipOf(m, h) + (if h in AuthorKeys(cp) then {id} else {})
    decreases |cp|
  {
    if cp != [] {
      var init := cp[..|cp| - 1];
      AddMembershipOf(m, init, id, h);
      assert AuthorKeys(cp) == AuthorKeys(init) + [WKey(cp[|cp| - 1])];
    }
  }

  /**
   * The membership after the loop has handled the first n merged sets, whose posts are
   * `cps`.
   */
  function MembershipUpTo(cps: seq<seq<WorkingPost>>, n: nat): Membership
    requires n <= |cps|
  {
    if n == 0 then map[]
    else
      var prev := MembershipUpTo(cps, n - 1);
      if |cps[n - 1]| < MinClusterPosts then prev else AddMembership(prev, cps[n - 1], ClusterId(n))
  }

  /**
   * The clusters built after the loop has handled the first n merged sets: each set's
   * cluster sees the membership with its own id already recorded.
   */
  function ClustersUpTo(cps: seq<seq<WorkingPost>>, n: nat): seq<Cluster>
    requires n <= |cps|
  {
    if n == 0 then []
    else
      var prev := ClustersUpTo(cps, n - 1);
      if |cps[n - 1]| < MinClusterPosts then prev
      else
        var c := ClusterOf(ClusterId(n), cps[n - 1], MembershipUpTo(cps, n));
        prev + (if c.Some? then [c.value] else [])
  }

  /** The posts of each merged candidate set of the working posts, in merge order. */
  function MergedPosts(ws: seq<WorkingPost>): (cps: seq<seq<WorkingPost>>)
    ensures |cps| == |MergeCandidateSets(CandidateSets(ws))|
    ensures forall k :: 0 <= k < |cps| ==> cps[k] == ClusterPosts(ws, MergeCandidateSets(CandidateSets(ws))[k])
  {
    var merged := MergeCandidateSets(CandidateSets(ws));
    MapSeq(merged, ids => ClusterPosts(ws, ids))
  }

  /** What `_find_coordinated_clusters` returns for a list of posts. */
  function FindClusters(posts: seq<Post>): (seq<Cluster>, Membership)
  {
    var ws := ToWorking(posts);
    if |ws| < 3 then ([], map[])
    else
      var cps := MergedPosts(ws);
      (ClustersUpTo(cps, |cps|), MembershipUpTo(cps, |cps|))
  }

  // ---------------------------------------------------------------- properties

  /**
   * An account holds id "cluster-k" exactly when the k-th merged set has at least three
   * posts and one of them is the account's; whether that set then passed the cluster
   * rules does not matter.
   */
  lemma {:induction false} MembershipExact(cps: seq<seq<WorkingPost>>, n: nat, h: string, k: int)
    requires n <= |cps|
    ensures ClusterId(k) in MembershipOf(MembershipUpTo(cps, n), h) <==>
      1 <= k <= n && |cps[k - 1]| >= 3 && h in AuthorKeys(cps[k - 1])
    decreases n
  {
    if n > 0 {
      MembershipExact(cps, n - 1, h, k);
      AddMembershipOf(MembershipUpTo(cps, n - 1), cps[n - 1], ClusterId(n), h);
      if ClusterId(k) == ClusterId(n) {
        ClusterIdInjective(k, n);
      }
    }
  }

  /** Every id in the membership names one of the sets handled so far. */
  lemma {:induction false} MembershipIds(cps: seq<seq<WorkingPost>>, n: nat, h: string, id: string)
    requires n <= |cps|
    requires id in MembershipOf(MembershipUpTo(cps, n), h)
    ensures exists k :: 1 <= k <= n && id == ClusterId(k)
    decreases n
  {
    assert n > 0;
    var prev := MembershipUpTo(cps, n - 1);
    AddMembershipOf(prev, cps[n - 1], ClusterId(n), h);
    if id in MembershipOf(prev, h) {
      MembershipIds(cps, n - 1, h, id);
    } else {
      assert id == ClusterId(n);
    }
  }

  /** Handling more sets only adds memberships. */
  lemma {:induction false} MembershipGrows(cps: seq<seq<WorkingPost>>, k: nat, n: nat, h: string)
    requires k <= n <= |cps|
    ensures MembershipOf(MembershipUpTo(cps, k), h) <= MembershipOf(MembershipUpTo(cps, n), h)
    decreases n
  {
    if k < n {
      MembershipGrows(cps, k, n - 1, h);
      AddMembershipOf(MembershipUpTo(cps, n - 1), cps[n - 1], ClusterId(n), h);
    }
  }

  /** A cluster built from merged set k, with the id of that set. */
  predicate BuiltFrom(cps: seq<seq<WorkingPost>>, c: Cluster, k: int)
    requires 1 <= k <= |cps|
  {
    c.clusterId == ClusterId(k) && WellFormedCluster(c, cps[k - 1])
  }

  /** Every cluster of `cs` was built from one of the first n merged sets. */
  ghost predicate AllBuiltWithin(cps: seq<seq<WorkingPost>>, cs: seq<Cluster>, n: nat)
    requires n <= |cps|
  {
    forall c :: c in cs ==> BuiltWithin(cps, c, n)
  }

  /** Each cluster is well formed for the posts of its merged set and carries that set's id. */
  lemma {:induction false} ClustersWellFormed(cps: seq<seq<WorkingPost>>, n: nat)
    requires n <= |cps|
    ensures AllBuiltWithin(cps, ClustersUpTo(cps, n), n)
    decreases n
  {
    if n == 0 {
      assert ClustersUpTo(cps, 0) == [];
    } else {
      ClustersWellFormed(cps, n - 1);
      WellFormedStep(cps, n);
    }
  }

  /** Handling set n keeps every cluster built within the sets handled so far. */
  lemma WellFormedStep(cps: seq<seq<WorkingPost>>, n: nat)
    requires 1 <= n <= |cps| && AllBuiltWithin(cps, ClustersUpTo(cps, n - 1), n - 1)
    ensures AllBuiltWithin(cps, ClustersUpTo(cps, n), n)
  {
    ClustersStep(cps, n);
    AllBuiltGrow(cps, ClustersUpTo(cps, n - 1), ClustersUpTo(cps, n), n);
  }

  /** Handling set n keeps the earlier clusters and adds at most one, built from set n. */
  lemma ClustersStep(cps: seq<seq<WorkingPost>>, n: nat)
    requires 1 <= n <= |cps|
    ensures GrowsBy(cps, ClustersUpTo(cps, n - 1), ClustersUpTo(cps, n), n)
  {
    UpToStep(cps, n - 1);
    var m := MembershipUpTo(cps, n);
    var added := ClusterOf(ClusterId(n), cps[n - 1], m);
    if |cps[n - 1]| >= MinClusterPosts && added.Some? {
      AddedBuilt(cps, n, m);
    }
  }

  /** `cur` is `prev`, or `prev` followed by one cluster built from set n. */
  ghost predicate GrowsBy(cps: seq<seq<WorkingPost>>, prev: seq<Cluster>, cur: seq<Cluster>, n: nat)
    requires 1 <= n <= |cps|
  {
    cur == prev || (|cur| == |prev| + 1 && cur[..|prev|] == prev && BuiltFrom(cps, cur[|prev|], n))
  }

  /** The cluster of set n, when there is one, is built from set n. */
  lemma AddedBuilt(cps: seq<seq<WorkingPost>>, n: nat, m: Membership)
    requires 1 <= n <= |cps| && ClusterOf(ClusterId(n), cps[n - 1], m).Some?
    ensures BuiltFrom(cps, ClusterOf(ClusterId(n), cps[n - 1], m).value, n)
  {
    ClusterShape(ClusterId(n), cps[n - 1], m);
  }

  /** Clusters built within n - 1 sets, with at most one built from set n after them, are built within n. */
  lemma AllBuiltGrow(cps: seq<seq<WorkingPost>>, prev: seq<Cluster>, cur: seq<Cluster>, n: nat)
    requires 1 <= n <= |cps| && AllBuiltWithin(cps, prev, n - 1)
    requires GrowsBy(cps, prev, cur, n)
    ensures AllBuiltWithin(cps, cur, n)
  {
    forall c | c in cur ensures BuiltWithin(cps, c, n) {
      var i :| 0 <= i < |cur| && cur[i] == c;
      if i < |prev| {
        assert c == prev[i];
        BuiltWithinGrows(cps, c, n - 1);
      } else {
        assert BuiltFrom(cps, c, n);
      }
    }
  }

  /** The cluster was built from one of the first n merged sets, under that set's id. */
  ghost predicate BuiltWithin(cps: seq<seq<WorkingPost>>, c: Cluster, n: nat)
    requires n <= |cps|
  {
    exists k :: 1 <= k <= n && BuiltFrom(cps, c, k)
  }

  /** Built from one of the first n sets is built from one of the first n + 1. */
  lemma BuiltWithinGrows(cps: seq<seq<WorkingPost>>, c: Cluster, n: nat)
    requires n < |cps| && BuiltWithin(cps, c, n)
    ensures BuiltWithin(cps, c, n + 1)
  {
    var k :| 1 <= k <= n && BuiltFrom(cps, c, k);
    assert 1 <= k <= n + 1;
  }

  /** The id of every cluster is in the membership of each of its top accounts. */
  lemma {:induction false} ClustersRecorded(cps: seq<seq<WorkingPost>>, n: nat)
    requires n <= |cps|
    ensures forall c, a :: c in ClustersUpTo(cps, n) && a in c.topAccounts ==>
      c.clusterId in MembershipOf(MembershipUpTo(cps, n), Lower(a.handle))
    decreases n
  {
    if n > 0 {
      ClustersRecorded(cps, n - 1);
      UpToStep(cps, n - 1);
      forall c, a | c in ClustersUpTo(cps, n - 1) && a in c.topAccounts
        ensures c.clusterId in MembershipOf(MembershipUpTo(cps, n), Lower(a.handle))
      {
        MembershipGrows(cps, n - 1, n, Lower(a.handle));
      }
      if |cps[n - 1]| >= MinClusterPosts {
        var m := MembershipUpTo(cps, n);
        var c := ClusterOf(ClusterId(n), cps[n - 1], m);
        if c.Some? {
          ClusterShape(ClusterId(n), cps[n - 1], m);
          forall a | a in c.value.topAccounts
            ensures c.value.clusterId in MembershipOf(m, Lower(a.handle))
          {
            assert Lower(a.handle) in AuthorKeys(cps[n - 1]);
            AddMembershipOf(MembershipUpTo(cps, n - 1), cps[n - 1], ClusterId(n), Lower(a.handle));
          }
        }
      }
    }
  }

  /** Fewer than three posts give no cluster and no membership. */
  lemma FewPostsNoClusters(posts: seq<Post>)
    requires |posts| < 3
    ensures FindClusters(posts) == ([], map[])
  {
  }

  // ---------------------------------------------------------------- methods

  /** The loop adding the cluster id to each post author's membership. */
  method RecordMembership(m: Membership, cp: seq<WorkingPost>, id: string) returns (r: Membership)
    ensures r == AddMembership(m, cp, id)
  {
    r := m;
    var i := 0;
    while i < |cp|
      invariant 0 <= i <= |cp|
      invariant r == AddMembership(m, cp[..i], id)
    {
      assert cp[..i + 1][..i] == cp[..i];
      assert cp[..i + 1][i] == cp[i];
      var h := WKey(cp[i]);
      r := r[h := MembershipOf(r, h) + {id}];
      i := i + 1;
    }
    assert cp[..|cp|] == cp;
  }

  /** The candidate sets of the three groupings and the burst windows, in that order. */
  method GatherCandidates(ws: seq<WorkingPost>) returns (candidates: seq<set<string>>)
    ensures candidates == CandidateSets(ws)
  {
    var pm := PostMap(ws);
    candidates := CandidatesFromGroups(pm, Groups(ws, HashtagKeys));
    candidates := candidates + CandidatesFromGroups(pm, Groups(ws, UrlKeys));
    candidates := candidates + CandidatesFromGroups(pm, Groups(ws, TextKeys));
    var bursts := CandidatesFromBursts(ws);
    candidates := candidates + bursts;
  }

  /** The loop over the merged sets: membership first, then the cluster that sees it. */
  method ClustersFromMerged(ws: seq<WorkingPost>, merged: seq<set<string>>, ghost cps: seq<seq<WorkingPost>>)
    returns (clusters: seq<Cluster>, membership: Membership)
    requires |cps| == |merged|
    requires forall k :: 0 <= k < |merged| ==> cps[k] == ClusterPosts(ws, merged[k])
    ensures clusters == ClustersUpTo(cps, |cps|)
    ensures membership == MembershipUpTo(cps, |cps|)
  {
    clusters := [];
    membership := map[];
    var n := 0;
    while n < |merged|
      invariant 0 <= n <= |merged|
      invariant clusters == ClustersUpTo(cps, n)
      invariant membership == MembershipUpTo(cps, n)
    {
      clusters, membership := ClusterStep(ws, merged[n], cps, n, clusters, membership);
      n := n + 1;
    }
  }

  /** One turn of the loop over the merged sets: the posts of set n, recorded and clustered when large enough. */
  method ClusterStep(ws: seq<WorkingPost>, ids: set<string>, ghost cps: seq<seq<WorkingPost>>, n: nat,
                     clusters: seq<Cluster>, membership: Membership)
    returns (clusters': seq<Cluster>, membership': Membership)
    requires n < |cps| && cps[n] == ClusterPosts(ws, ids)
    requires clusters == ClustersUpTo(cps, n) && membership == MembershipUpTo(cps, n)
    ensures clusters' == ClustersUpTo(cps, n + 1) && membership' == MembershipUpTo(cps, n + 1)
  {
    var cp := ClusterPosts(ws, ids);
    UpToStep(cps, n);
    clusters', membership' := clusters, membership;
    if |cp| >= MinClusterPosts {
      var id := ClusterId(n + 1);
      membership' := RecordMembership(membership, cp, id);
      var c := BuildCluster(id, cp, membership');
      if c.Some? {
        clusters' := clusters + [c.value];
      }
    }
  }

  /** One more merged set: skipped when too small, otherwise recorded and then clustered. */
  lemma UpToStep(cps: seq<seq<WorkingPost>>, n: nat)
    requires n < |cps|
    ensures |cps[n]| < MinClusterPosts ==>
      ClustersUpTo(cps, n + 1) == ClustersUpTo(cps, n) && MembershipUpTo(cps, n + 1) == MembershipUpTo(cps, n)
    ensures |cps[n]| >= MinClusterPosts ==>
      MembershipUpTo(cps, n + 1) == AddMembership(MembershipUpTo(cps, n), cps[n], ClusterId(n + 1))
      && ClustersUpTo(cps, n + 1) == ClustersUpTo(cps, n) +
        (var c := ClusterOf(ClusterId(n + 1), cps[n], MembershipUpTo(cps, n + 1)); if c.Some? then [c.value] else [])
  {
  }

  /** `_find_coordinated_clusters`. */
  method FindCoordinatedClusters(posts: seq<Post>) returns (clusters: seq<Cluster>, membership: Membership)
    ensures (clusters, membership) == FindClusters(posts)
  {
    var ws := ToWorking(posts);
    if |ws| < 3 {
      return [], map[];
    }
    var candidates := GatherCandidates(ws);
    var merged := MergeCandidateSetsInPlace(candidates);
    clusters, membership := ClustersFromMerged(ws, merged, MergedPosts(ws));
  }
}
