// The two per-cluster scores: mean pairwise Jaccard similarity of the posts' token sets,
// and how tightly the posts are packed in time.

module XIntelSimilarity {
  import opened Common
  import opened Collections
  import opened XIntelPosts

  /** `len(a & b) / len(a | b)` for token sets whose union is non-empty. */
  function Jaccard(a: set<string>, b: set<string>): (r: real)
    requires a + b != {}
    ensures 0.0 <= r <= 1.0
    ensures r == 1.0 <==> a == b
    ensures r == 0.0 <==> a * b == {}
  {
    JaccardFacts(a, b);
    |a * b| as real / |a + b| as real
  }

  lemma JaccardFacts(a: set<string>, b: set<string>)
    requires a + b != {}
    ensures |a * b| <= |a + b|
    ensures |a * b| == |a + b| <==> a == b
    ensures |a * b| == 0 <==> a * b == {}
  {
    SubsetCard(a * b, a + b);
    if a == b {
      assert a * b == a + b;
    } else {
      var x :| (x in a && x !in b) || (x in b && x !in a);
      assert x in a + b && x !in a * b;
      StrictSubsetCard(a * b, a + b, x);
    }
  }

  lemma StrictSubsetCard(a: set<string>, b: set<string>, x: string)
    requires a <= b && x in b && x !in a
    ensures |a| < |b|
  {
    assert b == a + (b - a);
    assert a * (b - a) == {};
    assert x in b - a;
  }

  /** Both posts have tokens: only such pairs are compared. */
  predicate Comparable(a: WorkingPost, b: WorkingPost)
  {
    a.tokens != {} && b.tokens != {}
  }

  /**
   * The Jaccard scores of the comparable pairs, in `itertools.combinations` order, starting
   * at pair (i, j).
   */
  function PairScores(ws: seq<WorkingPost>, i: nat, j: nat): (r: seq<real>)
    requires i < j
    ensures forall k :: 0 <= k < |r| ==> 0.0 <= r[k] <= 1.0
    decreases |ws| - i, |ws| - j
  {
    if i >= |ws| then []
    else if j >= |ws| then PairScores(ws, i + 1, i + 2)
    else
      (if Comparable(ws[i], ws[j]) then [Jaccard(ws[i].tokens, ws[j].tokens)] else [])
      + PairScores(ws, i, j + 1)
  }

  /** At most 50 pairs are scored: the loop stops at the 50th score. */
  const MaxComparedPairs := 50

  /**
   * `_text_similarity`: the mean of the first 50 pair scores, rounded to 3 digits; 0 with
   * fewer than two posts or no comparable pair.
   */
  function TextSimilarity(ws: seq<WorkingPost>): (r: real)
    ensures 0.0 <= r <= 1.0
    ensures |ws| < 2 ==> r == 0.0
  {
    if |ws| < 2 then 0.0
    else
      var s := Take(PairScores(ws, 0, 1), MaxComparedPairs);
      if s == [] then 0.0
      else
        MeanBounds(s, 0.0, 1.0);
        RoundUnit(SumReal(s) / |s| as real, Digits3);
        Round(SumReal(s) / |s| as real, Digits3)
  }

  /** Every comparable pair of distinct positions scores c. */
  predicate PairwiseScore(ws: seq<WorkingPost>, c: real)
  {
    forall a, b :: 0 <= a < b < |ws| && Comparable(ws[a], ws[b]) ==> Jaccard(ws[a].tokens, ws[b].tokens) == c
  }

  lemma {:induction false} PairScoresConstant(ws: seq<WorkingPost>, i: nat, j: nat, c: real)
    requires i < j
    requires PairwiseScore(ws, c)
    ensures forall k :: 0 <= k < |PairScores(ws, i, j)| ==> PairScores(ws, i, j)[k] == c
    decreases |ws| - i, |ws| - j
  {
    if i >= |ws| {
    } else if j >= |ws| {
      PairScoresConstant(ws, i + 1, i + 2, c);
    } else {
      PairScoresConstant(ws, i, j + 1, c);
    }
  }

  /** The first pair is scored when both of its posts have tokens. */
  lemma FirstPairScored(ws: seq<WorkingPost>)
    requires |ws| >= 2 && Comparable(ws[0], ws[1])
    ensures PairScores(ws, 0, 1) != []
  {
  }

  lemma {:induction false} MeanOfConstant(s: seq<real>, c: real)
    requires |s| > 0
    requires forall k :: 0 <= k < |s| ==> s[k] == c
    ensures SumReal(s) / |s| as real == c
  {
    SumRealBounds(s, c, c);
  }

  /** Posts that all carry the same non-empty token set are fully similar. */
  lemma SimilarityOfIdentical(ws: seq<WorkingPost>)
    requires |ws| >= 2
    requires forall k :: 0 <= k < |ws| ==> ws[k].tokens == ws[0].tokens
    requires ws[0].tokens != {}
    ensures TextSimilarity(ws) == 1.0
  {
    PairScoresConstant(ws, 0, 1, 1.0);
    FirstPairScored(ws);
    var s := Take(PairScores(ws, 0, 1), MaxComparedPairs);
    MeanOfConstant(s, 1.0);
    RoundOfInt(1, Digits3);
  }

  /** Posts whose token sets are pairwise disjoint have similarity 0. */
  lemma SimilarityOfDisjoint(ws: seq<WorkingPost>)
    requires forall a, b :: 0 <= a < b < |ws| ==> ws[a].tokens * ws[b].tokens == {}
    ensures TextSimilarity(ws) == 0.0
  {
    if |ws| >= 2 {
      PairScoresConstant(ws, 0, 1, 0.0);
      var s := Take(PairScores(ws, 0, 1), MaxComparedPairs);
      if s != [] {
        MeanOfConstant(s, 0.0);
        RoundOfInt(0, Digits3);
      }
    }
  }

  // ---------------------------------------------------------------- time burst

  /** Fifteen minutes per post is the span a burst is measured against. */
  const SecondsPerPost := 900

  /** The raw score before rounding: 1 - span / max(900, 900 n), floored at 0. */
  function BurstRaw(span: int, n: nat): (b: real)
    ensures 0.0 <= b < 1.0
  {
    var s := MaxReal(span as real, 1.0);
    var expected := MaxReal(SecondsPerPost as real, n as real * SecondsPerPost as real);
    MaxReal(0.0, 1.0 - MinReal(s / expected, 1.0))
  }

  /** The time span from the first to the last post (the posts come sorted by time). */
  function Span(ws: seq<WorkingPost>): int
    requires |ws| > 0
  {
    ws[|ws| - 1].created - ws[0].created
  }

  /**
   * `_burst_score`: 1 for posts packed in the same second, falling linearly to 0 as their
   * span reaches 15 minutes per post; 0 with fewer than two posts.
   */
  function BurstScore(ws: seq<WorkingPost>): (r: real)
    ensures 0.0 <= r <= 1.0
    ensures |ws| < 2 ==> r == 0.0
  {
    if |ws| < 2 then 0.0
    else
      RoundUnit(BurstRaw(Span(ws), |ws|), Digits3);
      Round(BurstRaw(Span(ws), |ws|), Digits3)
  }

  /** A tighter span never scores lower for the same number of posts. */
  lemma BurstTighterScoresHigher(ws: seq<WorkingPost>, vs: seq<WorkingPost>)
    requires |ws| == |vs| >= 2
    requires Span(ws) <= Span(vs)
    ensures BurstScore(ws) >= BurstScore(vs)
  {
    var n := |ws|;
    var expected := MaxReal(SecondsPerPost as real, n as real * SecondsPerPost as real);
    var a := MaxReal(Span(ws) as real, 1.0);
    var b := MaxReal(Span(vs) as real, 1.0);
    assert a <= b;
    assert a / expected <= b / expected;
    assert BurstRaw(Span(ws), n) >= BurstRaw(Span(vs), n);
    RoundMonotone(BurstRaw(Span(vs), n), BurstRaw(Span(ws), n), Digits3);
  }

  /** Posts spread over at least 15 minutes each score 0. */
  lemma BurstSpreadScoresZero(ws: seq<WorkingPost>)
    requires |ws| >= 2
    requires Span(ws) >= SecondsPerPost * |ws|
    ensures BurstScore(ws) == 0.0
  {
    var expected := |ws| as real * SecondsPerPost as real;
    assert MaxReal(Span(ws) as real, 1.0) / expected >= 1.0;
    assert BurstRaw(Span(ws), |ws|) == 0.0;
    RoundOfInt(0, Digits3);
  }

  /** Posts in the same second score within rounding of 1 - 1 / (900 n). */
  lemma BurstOfSimultaneous(ws: seq<WorkingPost>)
    requires |ws| >= 2
    requires Span(ws) <= 1
    ensures BurstRaw(Span(ws), |ws|) == 1.0 - 1.0 / (|ws| as real * SecondsPerPost as real)
  {
  }
}
