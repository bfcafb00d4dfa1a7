// The amplification graph of the collected posts: accounts as nodes, mentions, replies and
// quotes as directed edges, summarised by density, degree centrality and a modularity proxy
// against the coordinated-cluster membership.

module XIntelGraph {
  import opened Common
  import opened Text
  import opened Collections
  import opened XIntelPosts
  import opened XIntelCluster

  /** A directed edge (source account, target account), both lower-cased handles. */
  type Edge = (string, string)

  datatype CentralAccount = CentralAccount(handle: string, score: real)

  datatype GraphMetrics = GraphMetrics(density: real, modularity: real, centralAccounts: seq<CentralAccount>)

  const MaxCentralAccounts := 10

  // ---------------------------------------------------------------- nodes and edges

  /** `tweet_to_author`: each tweet id to its author's lower-cased handle; the later post wins. */
  function TweetToAuthor(posts: seq<Post>): map<string, string>
    decreases |posts|
  {
    if posts == [] then map[]
    else
      var last := posts[|posts| - 1];
      TweetToAuthor(posts[..|posts| - 1])[last.tweetId := HandleKey(last)]
  }

  /** Every collected tweet id is known, and it maps to the handle of one of the authors. */
  lemma {:induction false} TweetToAuthorValues(posts: seq<Post>)
    ensures forall i :: 0 <= i < |posts| ==> posts[i].tweetId in TweetToAuthor(posts)
    ensures forall id :: id in TweetToAuthor(posts) ==> TweetToAuthor(posts)[id] in MapSeq(posts, HandleKey)
    decreases |posts|
  {
    if posts != [] {
      var init := posts[..|posts| - 1];
      TweetToAuthorValues(init);
      assert forall i :: 0 <= i < |init| ==> init[i] == posts[i];
      forall h | h in MapSeq(init, HandleKey) ensures h in MapSeq(posts, HandleKey) {
        var k :| 0 <= k < |init| && MapSeq(init, HandleKey)[k] == h;
        assert MapSeq(posts, HandleKey)[k] == h;
      }
      assert MapSeq(posts, HandleKey)[|posts| - 1] == HandleKey(posts[|posts| - 1]);
    }
  }

  /** A repeated tweet id maps to the author of its last occurrence. */
  lemma {:induction false} TweetToAuthorLastWins(posts: seq<Post>, i: int)
    requires 0 <= i < |posts|
    requires forall j :: i < j < |posts| ==> posts[j].tweetId != posts[i].tweetId
    ensures posts[i].tweetId in TweetToAuthor(posts)
    ensures TweetToAuthor(posts)[posts[i].tweetId] == HandleKey(posts[i])
    decreases |posts|
  {
    var init := posts[..|posts| - 1];
    if i < |posts| - 1 {
      assert init[i] == posts[i];
      TweetToAuthorLastWins(init, i);
    }
  }

  /** The mention edges of an author: one per mentioned account other than the author. */
  function MentionEdges(src: string, mentions: seq<string>): set<Edge>
  {
    set m | m in mentions && Lower(m) != src :: (src, Lower(m))
  }

  /** A reply or quote reference that is set, non-empty and names a collected post by someone else. */
  function RefEdge(src: string, ref: Option<string>, t: map<string, string>): set<Edge>
  {
    if ref.Some? && ref.value != "" && ref.value in t && t[ref.value] != src then {(src, t[ref.value])} else {}
  }

  function Refs(p: Post): seq<Option<string>> { [p.replyTo, p.quotedTweetId] }

  function RefEdges(src: string, refs: seq<Option<string>>, t: map<string, string>): set<Edge>
  {
    if refs == [] then {} else RefEdges(src, refs[..|refs| - 1], t) + RefEdge(src, refs[|refs| - 1], t)
  }

  function PostEdges(p: Post, t: map<string, string>): set<Edge>
  {
    MentionEdges(HandleKey(p), p.mentions) + RefEdges(HandleKey(p), Refs(p), t)
  }

  /** The edges contributed by the first n posts. */
  function EdgesUpTo(posts: seq<Post>, t: map<string, string>, n: nat): set<Edge>
    requires n <= |posts|
  {
    if n == 0 then {} else EdgesUpTo(posts, t, n - 1) + PostEdges(posts[n - 1], t)
  }

  function Edges(posts: seq<Post>): set<Edge>
  {
    EdgesUpTo(posts, TweetToAuthor(posts), |posts|)
  }

  /**
   * The node list in the order the nodes are added: the authors, then each post's
   * mentioned accounts other than its author.  It stands for the iteration order of the
   * `nodes` set.
   */
  function AddTargets(order: seq<string>, src: string, mentions: seq<string>): seq<string>
  {
    if mentions == [] then order
    else
      var o := AddTargets(order, src, mentions[..|mentions| - 1]);
      var target := Lower(mentions[|mentions| - 1]);
      if target != src && target !in o then o + [target] else o
  }

  function NodeOrderUpTo(posts: seq<Post>, n: nat): seq<string>
    requires n <= |posts|
  {
    if n == 0 then Dedup(MapSeq(posts, HandleKey))
    else AddTargets(NodeOrderUpTo(posts, n - 1), HandleKey(posts[n - 1]), posts[n - 1].mentions)
  }

  function NodeOrder(posts: seq<Post>): seq<string>
  {
    NodeOrderUpTo(posts, |posts|)
  }

  function NodeSet(posts: seq<Post>): set<string>
  {
    set h | h in NodeOrder(posts)
  }

  /** p mentions the account h (compared lower-cased). */
  predicate Mentions(p: Post, h: string)
  {
    exists k :: 0 <= k < |p.mentions| && Lower(p.mentions[k]) == h
  }

  /** h is an author of a post, or an account some post mentions. */
  predicate IsNode(posts: seq<Post>, h: string)
  {
    h in MapSeq(posts, HandleKey) || exists i :: 0 <= i < |posts| && Mentions(posts[i], h)
  }

  lemma {:induction false} AddTargetsMembers(order: seq<string>, src: string, mentions: seq<string>)
    ensures forall x :: x in AddTargets(order, src, mentions) <==>
      x in order || (x != src && exists k :: 0 <= k < |mentions| && Lower(mentions[k]) == x)
    ensures Distinct(order) ==> Distinct(AddTargets(order, src, mentions))
    decreases |mentions|
  {
    if mentions != [] {
      var init := mentions[..|mentions| - 1];
      AddTargetsMembers(order, src, init);
      assert forall k :: 0 <= k < |init| ==> init[k] == mentions[k];
    }
  }

  /** The node list holds each node exactly once, and the nodes are the authors and the mentioned accounts. */
  lemma {:induction false} NodeOrderMembers(posts: seq<Post>, n: nat)
    requires n <= |posts|
    ensures Distinct(NodeOrderUpTo(posts, n))
    ensures forall h :: h in NodeOrderUpTo(posts, n) <==>
      h in MapSeq(posts, HandleKey) || exists i :: 0 <= i < n && Mentions(posts[i], h)
  {
    if n > 0 {
      NodeOrderMembers(posts, n - 1);
      var p := posts[n - 1];
      AddTargetsMembers(NodeOrderUpTo(posts, n - 1), HandleKey(p), p.mentions);
      assert MapSeq(posts, HandleKey)[n - 1] == HandleKey(p);
    }
  }

  lemma NodeSetIsNodes(posts: seq<Post>)
    ensures Distinct(NodeOrder(posts))
    ensures forall h :: h in NodeSet(posts) <==> IsNode(posts, h)
  {
    NodeOrderMembers(posts, |posts|);
  }

  /** Every edge joins two different nodes, and its source is the author of a post. */
  predicate GraphEdge(posts: seq<Post>, e: Edge)
  {
    e.0 != e.1 && e.0 in MapSeq(posts, HandleKey) && IsNode(posts, e.1)
  }

  lemma {:induction false} RefEdgesShape(posts: seq<Post>, src: string, refs: seq<Option<string>>)
    ensures forall e :: e in RefEdges(src, refs, TweetToAuthor(posts)) ==>
      e.0 == src && e.1 != src && e.1 in MapSeq(posts, HandleKey)
    decreases |refs|
  {
    if refs != [] {
      RefEdgesShape(posts, src, refs[..|refs| - 1]);
      TweetToAuthorValues(posts);
    }
  }

  lemma {:induction false} EdgesUpToShape(posts: seq<Post>, n: nat)
    requires n <= |posts|
    ensures forall e :: e in EdgesUpTo(posts, TweetToAuthor(posts), n) ==> GraphEdge(posts, e)
  {
    if n > 0 {
      EdgesUpToShape(posts, n - 1);
      var p := posts[n - 1];
      var src := HandleKey(p);
      assert MapSeq(posts, HandleKey)[n - 1] == src;
      RefEdgesShape(posts, src, Refs(p));
      forall e | e in MentionEdges(src, p.mentions) ensures GraphEdge(posts, e) {
        var m :| m in p.mentions && Lower(m) != src && e == (src, Lower(m));
        var k :| 0 <= k < |p.mentions| && p.mentions[k] == m;
        assert Mentions(posts[n - 1], e.1);
      }
    }
  }

  /** There are no self-loops, and every edge joins two nodes of the graph. */
  lemma EdgesShape(posts: seq<Post>)
    ensures forall e :: e in Edges(posts) ==> e.0 != e.1 && e.0 in NodeSet(posts) && e.1 in NodeSet(posts)
  {
    EdgesUpToShape(posts, |posts|);
    NodeSetIsNodes(posts);
  }

  lemma {:induction false} EdgesUpToGrow(posts: seq<Post>, t: map<string, string>, i: nat, n: nat)
    requires i < n <= |posts|
    ensures PostEdges(posts[i], t) <= EdgesUpTo(posts, t, n)
    decreases n
  {
    if i < n - 1 {
      EdgesUpToGrow(posts, t, i, n - 1);
    }
  }

  /** Mentioning another account gives an edge from the author to it. */
  lemma MentionGivesEdge(posts: seq<Post>, i: int, k: int)
    requires 0 <= i < |posts| && 0 <= k < |posts[i].mentions|
    requires Lower(posts[i].mentions[k]) != HandleKey(posts[i])
    ensures (HandleKey(posts[i]), Lower(posts[i].mentions[k])) in Edges(posts)
  {
    EdgesUpToGrow(posts, TweetToAuthor(posts), i, |posts|);
  }

  /** Replying to a collected post of another account gives an edge to that account. */
  lemma ReplyGivesEdge(posts: seq<Post>, i: int, j: int)
    requires 0 <= i < |posts| && 0 <= j < |posts|
    requires posts[i].replyTo == Some(posts[j].tweetId) && posts[j].tweetId != ""
    requires forall q :: j < q < |posts| ==> posts[q].tweetId != posts[j].tweetId
    requires HandleKey(posts[i]) != HandleKey(posts[j])
    ensures (HandleKey(posts[i]), HandleKey(posts[j])) in Edges(posts)
  {
    var t := TweetToAuthor(posts);
    TweetToAuthorLastWins(posts, j);
    var refs := Refs(posts[i]);
    assert refs[..1][..0] == [];
    assert refs[..|refs| - 1] == refs[..1];
    assert RefEdge(HandleKey(posts[i]), refs[0], t) <= RefEdges(HandleKey(posts[i]), refs[..1], t);
    EdgesUpToGrow(posts, t, i, |posts|);
  }

  // ---------------------------------------------------------------- counting

  function OutDegree(edges: set<Edge>, h: string): nat
  {
    |set e | e in edges && e.0 == h|
  }

  function InDegree(edges: set<Edge>, h: string): nat
  {
    |set e | e in edges && e.1 == h|
  }

  /** Edges sharing their source differ in their target, so there are at most |targets| of them. */
  lemma {:induction false} SameSourceCard(a: set<Edge>, h: string, targets: set<string>)
    requires forall e :: e in a ==> e.0 == h && e.1 in targets
    ensures |a| <= |targets|
    decreases a
  {
    if a != {} {
      var e :| e in a;
      SameSourceCard(a - {e}, h, targets - {e.1});
    }
  }

  lemma {:induction false} SameTargetCard(a: set<Edge>, h: string, sources: set<string>)
    requires forall e :: e in a ==> e.1 == h && e.0 in sources
    ensures |a| <= |sources|
    decreases a
  {
    if a != {} {
      var e :| e in a;
      SameTargetCard(a - {e}, h, sources - {e.0});
    }
  }

  /** A loop-free graph on a node set has at most (in + out) <= 2 (n - 1) edges at any node. */
  lemma DegreeBound(edges: set<Edge>, nodes: set<string>, h: string)
    requires forall e :: e in edges ==> e.0 != e.1 && e.0 in nodes && e.1 in nodes
    requires h in nodes
    ensures OutDegree(edges, h) <= |nodes| - 1
    ensures InDegree(edges, h) <= |nodes| - 1
  {
    SameSourceCard((set e | e in edges && e.0 == h), h, nodes - {h});
    SameTargetCard((set e | e in edges && e.1 == h), h, nodes - {h});
  }

  /** A loop-free graph whose sources lie in `sources` has at most |sources| (n - 1) edges. */
  lemma {:induction false} EdgeCountBound(edges: set<Edge>, sources: set<string>, nodes: set<string>)
    requires sources <= nodes
    requires forall e :: e in edges ==> e.0 != e.1 && e.0 in sources && e.1 in nodes
    ensures |edges| <= |sources| * (|nodes| - 1)
    decreases sources
  {
    if sources == {} {
      assert edges == {};
    } else {
      var x :| x in sources;
      var fromX := set e | e in edges && e.0 == x;
      var rest := edges - fromX;
      EdgeCountBound(rest, sources - {x}, nodes);
      SameSourceCard(fromX, x, nodes - {x});
      assert edges == fromX + rest && fromX * rest == {};
      assert |sources - {x}| == |sources| - 1;
      MulSucc(|sources| - 1, |nodes| - 1);
    }
  }

  /** One more row of m: (k + 1) m == m + k m. */
  lemma MulSucc(k: int, m: int)
    ensures (k + 1) * m == m + k * m
  {
  }

  /** Adding one new edge raises exactly its source's out-degree and its target's in-degree by one. */
  lemma DegreeStep(s: set<Edge>, e: Edge, h: string)
    requires e !in s
    ensures OutDegree(s + {e}, h) == OutDegree(s, h) + (if e.0 == h then 1 else 0)
    ensures InDegree(s + {e}, h) == InDegree(s, h) + (if e.1 == h then 1 else 0)
  {
    OutDegreeStep(s, e, h);
    InDegreeStep(s, e, h);
  }

  lemma OutDegreeStep(s: set<Edge>, e: Edge, h: string)
    requires e !in s
    ensures OutDegree(s + {e}, h) == OutDegree(s, h) + (if e.0 == h then 1 else 0)
  {
    var before := set x | x in s && x.0 == h;
    var after := set x | x in s + {e} && x.0 == h;
    if e.0 == h { assert after == before + {e}; } else { assert after == before; }
  }

  lemma InDegreeStep(s: set<Edge>, e: Edge, h: string)
    requires e !in s
    ensures InDegree(s + {e}, h) == InDegree(s, h) + (if e.1 == h then 1 else 0)
  {
    var before := set x | x in s && x.1 == h;
    var after := set x | x in s + {e} && x.1 == h;
    if e.1 == h { assert after == before + {e}; } else { assert after == before; }
  }

  /** A `Counter` lookup: 0 for a key never counted. */
  function CountOf(c: map<string, nat>, h: string): nat
  {
    if h in c then c[h] else 0
  }

  /** The in- and out-degree `Counter`s, filled by one pass over the edges. */
  method CountDegrees(edges: set<Edge>) returns (inDegree: map<string, nat>, outDegree: map<string, nat>)
    ensures forall h :: CountOf(outDegree, h) == OutDegree(edges, h)
    ensures forall h :: CountOf(inDegree, h) == InDegree(edges, h)
  {
    inDegree, outDegree := map[], map[];
    var rest := edges;
    while rest != {}
      invariant rest <= edges
      invariant forall h :: CountOf(outDegree, h) == OutDegree(edges - rest, h)
      invariant forall h :: CountOf(inDegree, h) == InDegree(edges - rest, h)
      decreases rest
    {
      var e :| e in rest;
      var done := edges - rest;
      forall h
        ensures OutDegree(done + {e}, h) == OutDegree(done, h) + (if e.0 == h then 1 else 0)
        ensures InDegree(done + {e}, h) == InDegree(done, h) + (if e.1 == h then 1 else 0)
      {
        DegreeStep(done, e, h);
      }
      outDegree := outDegree[e.0 := CountOf(outDegree, e.0) + 1];
      inDegree := inDegree[e.1 := CountOf(inDegree, e.1) + 1];
      assert done + {e} == edges - (rest - {e});
      rest := rest - {e};
    }
    assert edges - rest == edges;
  }

  // ---------------------------------------------------------------- metrics

  /** |E| / (n (n - 1)), or 0 when fewer than two nodes leave no possible edge. */
  function Density(n: nat, edgeCount: nat): real
  {
    if n * (n - 1) > 0 then edgeCount as real / (n * (n - 1)) as real else 0.0
  }

  /** Degree centrality (in + out) / (2 (n - 1)), or 0 with a single node. */
  function Centrality(n: nat, degree: nat): real
  {
    if n > 1 then degree as real / (2 * (n - 1)) as real else 0.0
  }

  function AccountOf(n: nat, edges: set<Edge>, h: string): CentralAccount
  {
    CentralAccount(h, Round(Centrality(n, InDegree(edges, h) + OutDegree(edges, h)), Digits3))
  }

  function AccountsOf(order: seq<string>, n: nat, edges: set<Edge>): (r: seq<CentralAccount>)
    ensures |r| == |order|
    ensures forall i :: 0 <= i < |order| ==> r[i] == AccountOf(n, edges, order[i])
  {
    seq(|order|, i requires 0 <= i < |order| => AccountOf(n, edges, order[i]))
  }

  function ByScore(a: CentralAccount, b: CentralAccount): bool { a.score >= b.score }

  /** `sort(key=score, reverse=True)`: highest score first, ties in node order. */
  function RankAccounts(accounts: seq<CentralAccount>): (r: seq<CentralAccount>)
    ensures multiset(r) == multiset(accounts)
    ensures forall i, j :: 0 <= i < j < |r| ==> r[i].score >= r[j].score
  {
    assert Total(ByScore) && Transitive(ByScore);
    SortBySorted(accounts, ByScore);
    var r := SortBy(accounts, ByScore);
    assert forall i, j :: 0 <= i < j < |r| ==> r[i].score >= r[j].score by {
      forall i, j | 0 <= i < j < |r| ensures r[i].score >= r[j].score {
        SortedPairwise(r, ByScore, i, j);
      }
    }
    r
  }

  predicate IsAssigned(m: Membership, e: Edge)
  {
    MembershipOf(m, e.0) != {} && MembershipOf(m, e.1) != {}
  }

  predicate IsIntra(m: Membership, e: Edge)
  {
    IsAssigned(m, e) && MembershipOf(m, e.0) * MembershipOf(m, e.1) != {}
  }

  /** Edges whose two ends both belong to some cluster. */
  function AssignedEdges(edges: set<Edge>, m: Membership): set<Edge>
  {
    set e | e in edges && IsAssigned(m, e)
  }

  /** Assigned edges whose ends share a cluster. */
  function IntraEdges(edges: set<Edge>, m: Membership): set<Edge>
  {
    set e | e in edges && IsIntra(m, e)
  }

  lemma ModularityFacts(edges: set<Edge>, m: Membership)
    ensures IntraEdges(edges, m) <= AssignedEdges(edges, m)
    ensures |IntraEdges(edges, m)| <= |AssignedEdges(edges, m)|
    ensures |IntraEdges(edges, m)| == |AssignedEdges(edges, m)| ==> IntraEdges(edges, m) == AssignedEdges(edges, m)
  {
    var a := AssignedEdges(edges, m);
    var i := IntraEdges(edges, m);
    SubsetCard(i, a);
    if i != a {
      var x :| x in a && x !in i;
      assert a == i + (a - i);
      assert x in a - i;
    }
  }

  /**
   * `_modularity_proxy`: the share of assigned edges that stay inside a cluster; 0 with no
   * edges or no assigned edge.
   */
  function Modularity(edges: set<Edge>, m: Membership): (r: real)
    ensures 0.0 <= r <= 1.0
    ensures r == 0.0 <==> IntraEdges(edges, m) == {}
    ensures r == 1.0 <==> AssignedEdges(edges, m) != {} && IntraEdges(edges, m) == AssignedEdges(edges, m)
  {
    ModularityFacts(edges, m);
    if edges == {} then 0.0
    else
      var a := |AssignedEdges(edges, m)|;
      if a == 0 then 0.0 else |IntraEdges(edges, m)| as real / a as real
  }

  /** Visiting one more edge adds it to the assigned and intra-cluster counts it qualifies for. */
  lemma ModularityStep(done: set<Edge>, e: Edge, m: Membership)
    requires e !in done
    ensures |AssignedEdges(done + {e}, m)| == |AssignedEdges(done, m)| + (if IsAssigned(m, e) then 1 else 0)
    ensures |IntraEdges(done + {e}, m)| == |IntraEdges(done, m)| + (if IsIntra(m, e) then 1 else 0)
  {
    if IsAssigned(m, e) {
      assert AssignedEdges(done + {e}, m) == AssignedEdges(done, m) + {e};
    } else {
      assert AssignedEdges(done + {e}, m) == AssignedEdges(done, m);
    }
    if IsIntra(m, e) {
      assert IntraEdges(done + {e}, m) == IntraEdges(done, m) + {e};
    } else {
      assert IntraEdges(done + {e}, m) == IntraEdges(done, m);
    }
  }

  /** The loop of `_modularity_proxy` over the edge set. */
  method ModularityProxy(edges: set<Edge>, m: Membership) returns (r: real)
    ensures r == Modularity(edges, m)
  {
    if edges == {} {
      return 0.0;
    }
    var assignedCount := 0;
    var intra := 0;
    var rest := edges;
    while rest != {}
      invariant rest <= edges
      invariant assignedCount == |AssignedEdges(edges - rest, m)|
      invariant intra == |IntraEdges(edges - rest, m)|
      decreases rest
    {
      var e :| e in rest;
      var done := edges - rest;
      ModularityStep(done, e, m);
      if IsAssigned(m, e) {
        assignedCount := assignedCount + 1;
        if IsIntra(m, e) {
          intra := intra + 1;
        }
      }
      assert done + {e} == edges - (rest - {e});
      rest := rest - {e};
    }
    assert edges - rest == edges;
    if assignedCount == 0 {
      return 0.0;
    }
    r := intra as real / assignedCount as real;
  }

  /** What `_build_amplification_graph_metrics` returns. */
  function GraphOf(posts: seq<Post>, m: Membership): GraphMetrics
  {
    if posts == [] then GraphMetrics(0.0, 0.0, [])
    else
      var edges := Edges(posts);
      var n := |NodeSet(posts)|;
      GraphMetrics(
        Round(Density(n, |edges|), Digits3),
        Round(Modularity(edges, m), Digits3),
        Take(RankAccounts(AccountsOf(NodeOrder(posts), n, edges)), MaxCentralAccounts))
  }

  /** The mention loop of one post: each mentioned account other than the author becomes a node and an edge target. */
  method AddMentions(src: string, mentions: seq<string>, order: seq<string>, edges: set<Edge>)
    returns (order': seq<string>, edges': set<Edge>)
    ensures order' == AddTargets(order, src, mentions)
    ensures edges' == edges + MentionEdges(src, mentions)
  {
    order', edges' := order, edges;
    for j := 0 to |mentions|
      invariant order' == AddTargets(order, src, mentions[..j])
      invariant edges' == edges + MentionEdges(src, mentions[..j])
    {
      var target := Lower(mentions[j]);
      assert mentions[..j + 1][..j] == mentions[..j];
      MentionEdgesStep(src, mentions, j);
      if src != target {
        if target !in order' {
          order' := order' + [target];
        }
        edges' := edges' + {(src, target)};
      }
    }
    assert mentions[..|mentions|] == mentions;
  }

  /** The reference loop of one post: its reply and quote targets, when collected and by someone else. */
  method AddRefs(src: string, refs: seq<Option<string>>, t: map<string, string>, edges: set<Edge>)
    returns (edges': set<Edge>)
    ensures edges' == edges + RefEdges(src, refs, t)
  {
    edges' := edges;
    for k := 0 to |refs|
      invariant edges' == edges + RefEdges(src, refs[..k], t)
    {
      assert refs[..k + 1][..k] == refs[..k];
      var ref := refs[k];
      if ref.Some? && ref.value != "" && ref.value in t {
        var target := t[ref.value];
        if src != target {
          edges' := edges' + {(src, target)};
        }
      }
    }
    assert refs[..|refs|] == refs;
  }

  lemma MentionEdgesStep(src: string, mentions: seq<string>, j: int)
    requires 0 <= j < |mentions|
    ensures MentionEdges(src, mentions[..j + 1]) == MentionEdges(src, mentions[..j])
      + (if Lower(mentions[j]) != src then {(src, Lower(mentions[j]))} else {})
  {
    assert forall x :: x in mentions[..j + 1] <==> x in mentions[..j] || x == mentions[j];
  }

  /** The scoring loop over the nodes, in node order. */
  method ScoreNodes(order: seq<string>, n: nat, edges: set<Edge>) returns (accounts: seq<CentralAccount>)
    ensures accounts == AccountsOf(order, n, edges)
  {
    var inDegree, outDegree := CountDegrees(edges);
    accounts := [];
    for k := 0 to |order|
      invariant |accounts| == k
      invariant forall q :: 0 <= q < k ==> accounts[q] == AccountOf(n, edges, order[q])
    {
      var h := order[k];
      var degree := CountOf(inDegree, h) + CountOf(outDegree, h);
      var score := if n > 1 then degree as real / (2 * (n - 1)) as real else 0.0;
      accounts := accounts + [CentralAccount(h, Round(score, Digits3))];
    }
  }

  /**
   * `_build_amplification_graph_metrics`: one pass over the posts adds the mentioned nodes
   * and the mention, reply and quote edges; then the degrees are counted and every node is
   * scored.
   */
  method AmplificationGraphMetrics(posts: seq<Post>, m: Membership) returns (g: GraphMetrics)
    ensures g == GraphOf(posts, m)
  {
    if posts == [] {
      return GraphMetrics(0.0, 0.0, []);
    }
    var order, edges := BuildGraph(posts);
    var n := |set h | h in order|;
    var density := Density(n, |edges|);
    var accounts := ScoreNodes(order, n, edges);
    var modularity := ModularityProxy(edges, m);
    g := GraphMetrics(Round(density, Digits3), Round(modularity, Digits3),
      Take(RankAccounts(accounts), MaxCentralAccounts));
  }

  /** The pass over the posts that collects the nodes (in order) and the edges. */
  method BuildGraph(posts: seq<Post>) returns (order: seq<string>, edges: set<Edge>)
    ensures order == NodeOrder(posts)
    ensures edges == Edges(posts)
  {
    var t := TweetToAuthor(posts);
    order := Dedup(MapSeq(posts, HandleKey));
    edges := {};
    for i := 0 to |posts|
      invariant order == NodeOrderUpTo(posts, i)
      invariant edges == EdgesUpTo(posts, t, i)
    {
      var src := HandleKey(posts[i]);
      order, edges := AddMentions(src, posts[i].mentions, order, edges);
      edges := AddRefs(src, Refs(posts[i]), t, edges);
    }
  }

  // ---------------------------------------------------------------- properties

  /** The graph has at most n (n - 1) edges. */
  lemma EdgeCount(posts: seq<Post>)
    ensures |Edges(posts)| <= |NodeSet(posts)| * (|NodeSet(posts)| - 1)
  {
    EdgesShape(posts);
    EdgeCountBound(Edges(posts), NodeSet(posts), NodeSet(posts));
  }

  /** A loop-free graph has density in [0, 1]. */
  lemma DensityUnit(posts: seq<Post>)
    ensures 0.0 <= Density(|NodeSet(posts)|, |Edges(posts)|) <= 1.0
  {
    var n := |NodeSet(posts)|;
    var e := |Edges(posts)|;
    EdgeCount(posts);
    if n * (n - 1) > 0 {
      RatioFacts(e, n * (n - 1));
    }
  }

  /** In a loop-free graph every node's rounded centrality lies in [0, 1]. */
  lemma NodeScoreUnit(edges: set<Edge>, nodes: set<string>, h: string)
    requires forall e :: e in edges ==> e.0 != e.1 && e.0 in nodes && e.1 in nodes
    requires h in nodes
    ensures 0.0 <= AccountOf(|nodes|, edges, h).score <= 1.0
  {
    var n := |nodes|;
    DegreeBound(edges, nodes, h);
    var c := Centrality(n, InDegree(edges, h) + OutDegree(edges, h));
    if n > 1 {
      RatioFacts(InDegree(edges, h) + OutDegree(edges, h), 2 * (n - 1));
    }
    RoundUnit(c, Digits3);
  }

  /** Every node's centrality score lies in [0, 1]. */
  lemma AccountsUnit(posts: seq<Post>)
    ensures forall a :: a in AccountsOf(NodeOrder(posts), |NodeSet(posts)|, Edges(posts)) ==>
      a.handle in NodeSet(posts) && 0.0 <= a.score <= 1.0
  {
    var accounts := AccountsOf(NodeOrder(posts), |NodeSet(posts)|, Edges(posts));
    EdgesShape(posts);
    forall k | 0 <= k < |accounts| ensures accounts[k].handle in NodeSet(posts) && 0.0 <= accounts[k].score <= 1.0 {
      NodeScoreUnit(Edges(posts), NodeSet(posts), NodeOrder(posts)[k]);
    }
  }

  /** Every metric lies in [0, 1]; at most 10 nodes are returned, best first. */
  lemma GraphBounds(posts: seq<Post>, m: Membership)
    ensures 0.0 <= GraphOf(posts, m).density <= 1.0
    ensures 0.0 <= GraphOf(posts, m).modularity <= 1.0
    ensures |GraphOf(posts, m).centralAccounts| <= MaxCentralAccounts
    ensures forall a :: a in GraphOf(posts, m).centralAccounts ==>
      a.handle in NodeSet(posts) && 0.0 <= a.score <= 1.0
    ensures forall i, j :: 0 <= i < j < |GraphOf(posts, m).centralAccounts| ==>
      GraphOf(posts, m).centralAccounts[i].score >= GraphOf(posts, m).centralAccounts[j].score
  {
    if posts != [] {
      var edges := Edges(posts);
      var n := |NodeSet(posts)|;
      DensityUnit(posts);
      RoundUnit(Density(n, |edges|), Digits3);
      RoundUnit(Modularity(edges, m), Digits3);
      AccountsUnit(posts);
      RankedFromAccounts(AccountsOf(NodeOrder(posts), n, edges));
    }
  }

  /** The returned accounts are drawn from the scored nodes. */
  lemma RankedFromAccounts(accounts: seq<CentralAccount>)
    ensures forall a :: a in Take(RankAccounts(accounts), MaxCentralAccounts) ==> a in accounts
  {
    var ranked := RankAccounts(accounts);
    forall a | a in Take(ranked, MaxCentralAccounts) ensures a in accounts {
      assert a in multiset(ranked);
    }
  }

  /** Each returned account carries the rounded degree centrality of its node. */
  lemma CentralScores(posts: seq<Post>, m: Membership)
    requires posts != []
    ensures forall a :: a in GraphOf(posts, m).centralAccounts ==>
      a == AccountOf(|NodeSet(posts)|, Edges(posts), a.handle)
  {
    var n := |NodeSet(posts)|;
    var edges := Edges(posts);
    var accounts := AccountsOf(NodeOrder(posts), n, edges);
    assert GraphOf(posts, m).centralAccounts == Take(RankAccounts(accounts), MaxCentralAccounts);
    RankedFromAccounts(accounts);
    AccountsScored(NodeOrder(posts), n, edges);
  }

  lemma AccountsScored(order: seq<string>, n: nat, edges: set<Edge>)
    ensures forall a :: a in AccountsOf(order, n, edges) ==> a == AccountOf(n, edges, a.handle)
  {
  }

  /** A graph with fewer than two nodes has density 0. */
  lemma SparseGraphDensity(posts: seq<Post>, m: Membership)
    requires |NodeSet(posts)| < 2
    ensures GraphOf(posts, m).density == 0.0
  {
    RoundOfInt(0, Digits3);
  }

  /** Without assigned, cluster-joining edges the modularity proxy is 0. */
  lemma NoIntraEdgesNoModularity(posts: seq<Post>, m: Membership)
    requires IntraEdges(Edges(posts), m) == {}
    ensures GraphOf(posts, m).modularity == 0.0
  {
    RoundOfInt(0, Digits3);
  }
}
