// The four generators of coordinated-cluster candidates: posts sharing a hashtag, a
// canonical URL or an exact normalized text, and the 45-minute sliding burst window.

module XIntelCandidates {
  import opened Common
  import opened Text
  import opened Collections
  import opened XIntelPosts

  /** `post_map`: tweet id to working post; for a repeated id the later post wins. */
  function PostMap(ws: seq<WorkingPost>): (m: map<string, WorkingPost>)
    ensures forall i :: 0 <= i < |ws| ==> WId(ws[i]) in m
    ensures forall id :: id in m ==> m[id] in ws && WId(m[id]) == id
    decreases |ws|
  {
    if ws == [] then map[]
    else
      var init := ws[..|ws| - 1];
      var last := ws[|ws| - 1];
      assert forall w :: w in init ==> w in ws;
      var m := PostMap(init);
      assert forall i :: 0 <= i < |init| ==> WId(ws[i]) in m by {
        forall i | 0 <= i < |init| ensures WId(ws[i]) in m { assert ws[i] == init[i]; }
      }
      m[WId(last) := last]
  }

  /** The lower-cased author handles of the posts with the given ids. */
  function AuthorsOf(postMap: map<string, WorkingPost>, ids: set<string>): set<string>
  {
    set id | id in ids && id in postMap :: WKey(postMap[id])
  }

  // ---------------------------------------------------------------- key groups

  /** The group keys a post contributes, in order (repeats allowed). */
  type KeysOf = WorkingPost -> seq<string>

  function HashtagKeys(w: WorkingPost): seq<string> { w.post.hashtags }

  function UrlKeys(w: WorkingPost): seq<string> { MapSeq(w.post.urls, CanonicalUrl) }

  function TextKeys(w: WorkingPost): seq<string>
  {
    if w.normalizedText != [] then [w.normalizedText] else []
  }

  /** Every key of every post, in post order. */
  function AllKeys(ws: seq<WorkingPost>, keysOf: KeysOf): (ks: seq<string>)
    ensures forall k :: k in ks <==> exists i :: 0 <= i < |ws| && k in keysOf(ws[i])
    decreases |ws|
  {
    if ws == [] then []
    else
      var init := ws[..|ws| - 1];
      var r := AllKeys(init, keysOf) + keysOf(ws[|ws| - 1]);
      assert forall i :: 0 <= i < |init| ==> init[i] == ws[i];
      r
  }

  /** The ids of the posts carrying key k. */
  function GroupIds(ws: seq<WorkingPost>, keysOf: KeysOf, k: string): set<string>
  {
    set i | 0 <= i < |ws| && k in keysOf(ws[i]) :: WId(ws[i])
  }

  /**
   * The values of a `defaultdict(set)` filled by adding each post's id under each of its
   * keys: one set per key, keys in order of first appearance.
   */
  function Groups(ws: seq<WorkingPost>, keysOf: KeysOf): (g: seq<set<string>>)
    ensures |g| == |Dedup(AllKeys(ws, keysOf))|
    ensures forall i :: 0 <= i < |g| ==> g[i] == GroupIds(ws, keysOf, Dedup(AllKeys(ws, keysOf))[i])
  {
    var ks := Dedup(AllKeys(ws, keysOf));
    seq(|ks|, i requires 0 <= i < |ks| => GroupIds(ws, keysOf, ks[i]))
  }

  /** Every group is non-empty: a key is only there because some post carries it. */
  lemma GroupsNonEmpty(ws: seq<WorkingPost>, keysOf: KeysOf)
    ensures forall g :: g in Groups(ws, keysOf) ==> g != {}
  {
    var ks := Dedup(AllKeys(ws, keysOf));
    forall i | 0 <= i < |ks| ensures GroupIds(ws, keysOf, ks[i]) != {} {
      assert ks[i] in AllKeys(ws, keysOf);
      var p :| 0 <= p < |ws| && ks[i] in keysOf(ws[p]);
      assert WId(ws[p]) in GroupIds(ws, keysOf, ks[i]);
    }
  }

  /** A group qualifies with at least 3 posts from at least 3 distinct accounts. */
  predicate Qualifies(postMap: map<string, WorkingPost>, ids: set<string>)
  {
    |ids| >= 3 && |AuthorsOf(postMap, ids)| >= 3
  }

  /** `_cluster_candidates_from_groups`. */
  function CandidatesFromGroups(postMap: map<string, WorkingPost>, groups: seq<set<string>>): (r: seq<set<string>>)
    ensures |r| <= |groups|
    ensures forall c :: c in r ==> |c| >= 3 && |AuthorsOf(postMap, c)| >= 3
    ensures forall g :: g in groups ==> (g in r <==> Qualifies(postMap, g))
  {
    Filter(groups, g => Qualifies(postMap, g))
  }

  // ---------------------------------------------------------------- bursts

  const BurstWindowSeconds := 45 * 60

  function ByCreated(a: WorkingPost, b: WorkingPost): bool { a.created <= b.created }

  lemma ByCreatedOrder()
    ensures Total(ByCreated) && Transitive(ByCreated)
  {
  }

  /** `sorted(working, key=created_at)`: stable, oldest first. */
  function SortedByCreated(ws: seq<WorkingPost>): (s: seq<WorkingPost>)
    ensures multiset(s) == multiset(ws)
    ensures forall i, j :: 0 <= i <= j < |s| ==> s[i].created <= s[j].created
  {
    ByCreatedOrder();
    SortBySorted(ws, ByCreated);
    var s := SortBy(ws, ByCreated);
    assert forall i, j :: 0 <= i < j < |s| ==> s[i].created <= s[j].created by {
      forall i, j | 0 <= i < j < |s| ensures s[i].created <= s[j].created {
        SortedPairwise(s, ByCreated, i, j);
      }
    }
    s
  }

  /**
   * l is where the burst window ending at r starts: the first post no more than 45 minutes
   * before post r.
   */
  predicate IsWindowStart(s: seq<WorkingPost>, r: int, l: int)
    requires 0 <= r < |s|
  {
    0 <= l <= r && s[r].created - s[l].created <= BurstWindowSeconds
    && forall k :: 0 <= k < l ==> s[r].created - s[k].created > BurstWindowSeconds
  }

  /** Advance l past every post more than 45 minutes before post r. */
  function StartFrom(s: seq<WorkingPost>, r: int, l: int): (start: int)
    requires 0 <= l <= r < |s|
    requires forall k :: 0 <= k < l ==> s[r].created - s[k].created > BurstWindowSeconds
    ensures l <= start <= r
    decreases r - l
  {
    if s[r].created - s[l].created > BurstWindowSeconds then StartFrom(s, r, l + 1) else l
  }

  /**
   * Advancing from any point that only skipped posts outside the window stops at the first
   * post inside it.
   */
  lemma {:induction false} StartFromIsStart(s: seq<WorkingPost>, r: int, l: int)
    requires 0 <= l <= r < |s|
    requires forall k :: 0 <= k < l ==> s[r].created - s[k].created > BurstWindowSeconds
    ensures IsWindowStart(s, r, StartFrom(s, r, l))
    decreases r - l
  {
    if s[r].created - s[l].created > BurstWindowSeconds {
      StartFromIsStart(s, r, l + 1);
    }
  }

  /** Where the window ending at post r starts. */
  function WindowStart(s: seq<WorkingPost>, r: int): (start: int)
    requires 0 <= r < |s|
    ensures 0 <= start <= r
  {
    StartFrom(s, r, 0)
  }

  /** The window's left edge is the first post no more than 45 minutes before post r. */
  lemma WindowStartIsStart(s: seq<WorkingPost>, r: int)
    requires 0 <= r < |s|
    ensures IsWindowStart(s, r, WindowStart(s, r))
  {
    StartFromIsStart(s, r, 0);
  }

  /** Starting the scan further along, past posts that are out of the window anyway, changes nothing. */
  lemma {:induction false} StartFromSkip(s: seq<WorkingPost>, r: int, l: int)
    requires 0 <= l <= r < |s|
    requires forall k :: 0 <= k < l ==> s[r].created - s[k].created > BurstWindowSeconds
    ensures StartFrom(s, r, l) == WindowStart(s, r)
    decreases l
  {
    if l > 0 {
      StartFromSkip(s, r, l - 1);
    }
  }

  function WindowIds(w: seq<WorkingPost>): set<string> { set x | x in w :: WId(x) }

  function WindowAuthors(w: seq<WorkingPost>): set<string> { set x | x in w :: WKey(x) }

  /** The window ending at r becomes a candidate with at least 4 posts from at least 3 accounts. */
  predicate BurstQualifies(w: seq<WorkingPost>)
  {
    |w| >= 4 && |WindowAuthors(w)| >= 3
  }

  /** What the scan emits for the window ending at post r: its ids when it qualifies. */
  function BurstAt(s: seq<WorkingPost>, r: int): seq<set<string>>
    requires 0 <= r < |s|
  {
    var w := s[WindowStart(s, r)..r + 1];
    if BurstQualifies(w) then [WindowIds(w)] else []
  }

  /** The candidates the scan emits for the windows ending at posts 0 .. n-1. */
  function BurstsUpTo(s: seq<WorkingPost>, n: int): seq<set<string>>
    requires 0 <= n <= |s|
  {
    if n == 0 then [] else BurstsUpTo(s, n - 1) + BurstAt(s, n - 1)
  }

  /** What `_cluster_candidates_from_bursts` returns for the working posts. */
  function BurstCandidates(ws: seq<WorkingPost>): seq<set<string>>
  {
    if |ws| < 4 then [] else var s := SortedByCreated(ws); BurstsUpTo(s, |s|)
  }

  /** Each of the posts before l is more than 45 minutes older than post r. */
  predicate OutOfWindow(s: seq<WorkingPost>, r: int, l: int)
    requires 0 <= l <= r < |s|
  {
    forall k :: 0 <= k < l ==> s[r].created - s[k].created > BurstWindowSeconds
  }

  /** A post out of the window of post r is out of the window of any later post. */
  lemma OutOfWindowLater(s: seq<WorkingPost>, r: int, l: int)
    requires 0 <= l <= r < |s| - 1 && s[r].created <= s[r + 1].created
    requires OutOfWindow(s, r, l)
    ensures OutOfWindow(s, r + 1, l)
  {
  }

  /** Once the scan stops at a post inside the window, that post is where the window starts. */
  lemma WindowStartAt(s: seq<WorkingPost>, r: int, l: int)
    requires 0 <= l <= r < |s| && OutOfWindow(s, r, l)
    requires s[r].created - s[l].created <= BurstWindowSeconds
    ensures WindowStart(s, r) == l
    ensures BurstAt(s, r) == if BurstQualifies(s[l..r + 1]) then [WindowIds(s[l..r + 1])] else []
  {
    StartFromSkip(s, r, l);
  }

  /** The inner `while` of the scan: move left past the posts more than 45 minutes before post r. */
  method SkipStale(s: seq<WorkingPost>, r: int, left: int) returns (l: int)
    requires 0 <= left <= r < |s| && OutOfWindow(s, r, left)
    ensures left <= l <= r && l == WindowStart(s, r) && OutOfWindow(s, r, l)
    ensures s[r].created - s[l].created <= BurstWindowSeconds
  {
    l := left;
    while s[r].created - s[l].created > BurstWindowSeconds
      invariant left <= l <= r
      invariant OutOfWindow(s, r, l)
      decreases r - l
    {
      l := l + 1;
    }
    WindowStartAt(s, r, l);
  }

  /** Each post is no older than the one before it. */
  predicate TimeOrdered(s: seq<WorkingPost>)
  {
    forall i :: 0 <= i < |s| - 1 ==> s[i].created <= s[i + 1].created
  }

  /** The left/right two-pointer scan over posts in time order. */
  method ScanBursts(s: seq<WorkingPost>) returns (cands: seq<set<string>>)
    requires TimeOrdered(s)
    ensures cands == BurstsUpTo(s, |s|)
  {
    cands := [];
    var left := 0;
    var right := 0;
    while right < |s|
      invariant 0 <= right <= |s|
      invariant 0 <= left <= right
      invariant right > 0 ==> left <= right - 1 && OutOfWindow(s, right - 1, left)
      invariant cands == BurstsUpTo(s, right)
    {
      if right > 0 {
        OutOfWindowLater(s, right - 1, left);
      }
      left := SkipStale(s, right, left);
      WindowStartAt(s, right, left);
      var window := s[left..right + 1];
      if BurstQualifies(window) {
        cands := cands + [WindowIds(window)];
      }
      right := right + 1;
    }
  }

  /**
   * `_cluster_candidates_from_bursts`: nothing for fewer than 4 posts, otherwise the scan
   * over the posts sorted by time.
   */
  method CandidatesFromBursts(ws: seq<WorkingPost>) returns (cands: seq<set<string>>)
    ensures cands == BurstCandidates(ws)
  {
    if |ws| < 4 {
      return [];
    }
    var s := SortedByCreated(ws);
    cands := ScanBursts(s);
  }

  /**
   * c is the id set of the posts l .. r: at least 4 of them, from at least 3 accounts,
   * spanning at most 45 minutes.
   */
  predicate IsBurstWindow(s: seq<WorkingPost>, l: int, r: int, c: set<string>)
    requires 0 <= l <= r < |s|
  {
    c == WindowIds(s[l..r + 1]) && r - l + 1 >= 4 && |WindowAuthors(s[l..r + 1])| >= 3
    && s[r].created - s[l].created <= BurstWindowSeconds
  }

  /**
   * Every burst candidate is the id set of a run of consecutive time-sorted posts: at
   * least 4 of them, from at least 3 accounts, spanning at most 45 minutes.
   */
  lemma {:induction false} BurstsAreWindows(s: seq<WorkingPost>, n: int)
    requires 0 <= n <= |s|
    ensures forall c :: c in BurstsUpTo(s, n) ==> exists l, r :: 0 <= l <= r < n && IsBurstWindow(s, l, r, c)
    decreases n
  {
    if n > 0 {
      BurstsAreWindows(s, n - 1);
      WindowStartIsStart(s, n - 1);
      var l := WindowStart(s, n - 1);
      var w := s[l..n];
      forall c | c in BurstsUpTo(s, n)
        ensures exists l, r :: 0 <= l <= r < n && IsBurstWindow(s, l, r, c)
      {
        if c in BurstsUpTo(s, n - 1) {
        } else {
          assert BurstQualifies(w) && c == WindowIds(w);
          assert s[l..(n - 1) + 1] == w;
          assert IsBurstWindow(s, l, n - 1, c);
        }
      }
    }
  }

  /** Every burst window that qualifies is emitted: the scan misses none. */
  lemma {:induction false} BurstsComplete(s: seq<WorkingPost>, n: int, r: int)
    requires 0 <= r < n <= |s|
    requires BurstQualifies(s[WindowStart(s, r)..r + 1])
    ensures WindowIds(s[WindowStart(s, r)..r + 1]) in BurstsUpTo(s, n)
    decreases n
  {
    if r < n - 1 {
      BurstsComplete(s, n - 1, r);
    }
  }
}
