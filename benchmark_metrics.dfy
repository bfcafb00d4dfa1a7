// The metric helpers of the public benchmark runner (benchmark/eval/run_public_benchmark.py):
// flag parsing, the confusion counts at a threshold and the rates derived from them, ROC-AUC
// by pairwise comparison, the ten-bin calibration error and the Brier score. Floats are exact
// reals; `round(x, 4)` is Common.Round at four decimals.

module BenchmarkMetrics {
  import opened Common
  import opened Text
  import opened Tables

  /** The spellings `_to_bool` reads as false, after trimming and lower-casing. */
  const FalseWords: set<string> := {"0", "false", "no", "off"}

  /** `_to_bool` */
  function ToBool(value: string): (b: bool)
    ensures !b <==> Lower(Strip(value)) in FalseWords
  {
    Lower(Strip(value)) !in FalseWords
  }

  /** Letter case does not matter. */
  lemma ToBoolIgnoresCase(value: string)
    ensures ToBool(Lower(value)) == ToBool(value)
  {
    StripLower(value);
    LowerIdempotent(Strip(value));
  }

  /** Surrounding whitespace does not matter. */
  lemma ToBoolIgnoresBlanks(value: string)
    ensures ToBool(Strip(value)) == ToBool(value)
  {
    StripIdempotent(value);
  }

  /** The empty and the blank text read as true. */
  lemma BlankIsTrue(value: string)
    requires IsBlank(value)
    ensures ToBool(value)
  {
    StripEmptyIffBlank(value);
  }

  /** Python's `zip(labels, scores)`: pairs up to the shorter of the two. */
  function Zip(labels: seq<int>, scores: seq<real>): (pairs: seq<(int, real)>)
    ensures |pairs| == MinInt(|labels|, |scores|)
    ensures forall i :: 0 <= i < |pairs| ==> pairs[i] == (labels[i], scores[i])
  {
    var n := MinInt(|labels|, |scores|);
    seq(n, i requires 0 <= i < n => (labels[i], scores[i]))
  }

  // ---------------------------------------------------------------------------------------
  // Confusion counts and rates (`_binary_metrics`)
  // ---------------------------------------------------------------------------------------

  /** `1 if score >= threshold else 0` */
  function Predict(score: real, threshold: real): (p: int)
    ensures p == 1 <==> score >= threshold
    ensures p == 0 <==> score < threshold
  {
    if score >= threshold then 1 else 0
  }

  datatype Outcome = TruePositive | FalsePositive | FalseNegative | TrueNegative

  /** The if/elif chain on (label, prediction); a label other than 0 or 1 lands in the last branch. */
  function Classify(truth: int, prediction: int): Outcome
  {
    if truth == 1 && prediction == 1 then TruePositive
    else if truth == 0 && prediction == 1 then FalsePositive
    else if truth == 1 && prediction == 0 then FalseNegative
    else TrueNegative
  }

  datatype Confusion = Confusion(tp: nat, fp: nat, fn: nat, tn: nat)
  {
    function Add(o: Outcome): (c: Confusion)
      ensures c.tp + c.fp + c.fn + c.tn == tp + fp + fn + tn + 1
    {
      match o
      case TruePositive => this.(tp := tp + 1)
      case FalsePositive => this.(fp := fp + 1)
      case FalseNegative => this.(fn := fn + 1)
      case TrueNegative => this.(tn := tn + 1)
    }
  }

  function OutcomeOf(pair: (int, real), threshold: real): Outcome
  {
    Classify(pair.0, Predict(pair.1, threshold))
  }

  /** The four counters after the loop over the pairs. */
  function Tally(pairs: seq<(int, real)>, threshold: real): (c: Confusion)
    ensures c.tp + c.fp + c.fn + c.tn == |pairs|
  {
    if pairs == [] then Confusion(0, 0, 0, 0)
    else Tally(pairs[..|pairs| - 1], threshold).Add(OutcomeOf(pairs[|pairs| - 1], threshold))
  }

  predicate IsPositive(pair: (int, real)) { pair.0 == 1 }

  /** A 0/1-labelled pair the threshold predicts positive. */
  predicate FlaggedAt(pair: (int, real), threshold: real)
  {
    (pair.0 == 0 || pair.0 == 1) && pair.1 >= threshold
  }

  /**
   * The counters against an independent count: true positives plus false negatives are the
   * pairs labelled 1, and true plus false positives are the 0/1-labelled pairs at or above
   * the threshold.
   */
  lemma {:induction false} TallyCounts(pairs: seq<(int, real)>, threshold: real)
    ensures Tally(pairs, threshold).tp + Tally(pairs, threshold).fn == CountIf(pairs, IsPositive)
    ensures Tally(pairs, threshold).tp + Tally(pairs, threshold).fp
         == CountIf(pairs, p => FlaggedAt(p, threshold))
  {
    if pairs != [] {
      var init := pairs[..|pairs| - 1];
      TallyCounts(init, threshold);
      AddCounts(Tally(init, threshold), pairs[|pairs| - 1], threshold);
    }
  }

  /** One more pair moves the positive and flagged counts as the outcome says. */
  lemma AddCounts(c: Confusion, pair: (int, real), threshold: real)
    ensures var d := c.Add(OutcomeOf(pair, threshold));
      d.tp + d.fn == c.tp + c.fn + (if IsPositive(pair) then 1 else 0) &&
      d.tp + d.fp == c.tp + c.fp + (if FlaggedAt(pair, threshold) then 1 else 0) &&
      d.fp + d.fn == c.fp + c.fn + (if (pair.0 == 0 || pair.0 == 1) && (pair.0 == 1) != (pair.1 >= threshold) then 1 else 0)
  {
  }

  datatype BinaryMetrics = BinaryMetrics(threshold: real, samples: nat, tp: nat, fp: nat, fn: nat, tn: nat,
                                         precision: real, recall: real, f1: real, accuracy: real)

  /** `_safe_div(2 * p * r, p + r) if p + r else 0.0` */
  function F1(precision: real, recall: real): real
  {
    if precision + recall != 0.0 then SafeDiv(2.0 * (precision * recall), precision + recall) else 0.0
  }

  /** The harmonic mean of two rates is a rate, and is 1 when both are. */
  lemma F1Bounds(p: real, r: real)
    requires 0.0 <= p <= 1.0 && 0.0 <= r <= 1.0
    ensures 0.0 <= F1(p, r) <= 1.0
    ensures p == 1.0 && r == 1.0 ==> F1(p, r) == 1.0
  {
    if p + r != 0.0 {
      ProductBelow(p, r);
      SafeDivUnit(2.0 * (p * r), p + r);
    }
  }

  lemma ProductBelow(p: real, r: real)
    requires 0.0 <= p <= 1.0 && 0.0 <= r <= 1.0
    ensures 0.0 <= 2.0 * (p * r) <= p + r
  {
    ScaleDown(p, r);
    ScaleDownLeft(p, r);
    var pr := p * r;
    assert pr <= p && pr <= r;
  }

  lemma ScaleDownLeft(f: real, a: real)
    requires 0.0 <= a && 0.0 <= f <= 1.0
    ensures f * a <= a
  {
    assert f * a <= 1.0 * a;
  }

  /** Scaling a non-negative value by a factor in [0, 1] keeps it in [0, itself]. */
  lemma ScaleDown(a: real, f: real)
    requires 0.0 <= a && 0.0 <= f <= 1.0
    ensures 0.0 <= a * f <= a
  {
    assert a * f <= a * 1.0;
  }

  /** The rates from the counters, each rounded to four decimals. */
  function FromCounts(c: Confusion, samples: nat, threshold: real): (m: BinaryMetrics)
    requires c.tp + c.fp + c.fn + c.tn <= samples
    ensures m.tp == c.tp && m.fp == c.fp && m.fn == c.fn && m.tn == c.tn && m.samples == samples
    ensures 0.0 <= m.precision <= 1.0 && 0.0 <= m.recall <= 1.0
    ensures 0.0 <= m.f1 <= 1.0 && 0.0 <= m.accuracy <= 1.0
  {
    var precision := SafeDiv(c.tp as real, (c.tp + c.fp) as real);
    var recall := SafeDiv(c.tp as real, (c.tp + c.fn) as real);
    var accuracy := SafeDiv((c.tp + c.tn) as real, samples as real);
    SafeDivUnit(c.tp as real, (c.tp + c.fp) as real);
    SafeDivUnit(c.tp as real, (c.tp + c.fn) as real);
    SafeDivUnit((c.tp + c.tn) as real, samples as real);
    F1Bounds(precision, recall);
    RoundUnit(precision, Digits4);
    RoundUnit(recall, Digits4);
    RoundUnit(F1(precision, recall), Digits4);
    RoundUnit(accuracy, Digits4);
    BinaryMetrics(threshold, samples, c.tp, c.fp, c.fn, c.tn, Round(precision, Digits4), Round(recall, Digits4),
                  Round(F1(precision, recall), Digits4), Round(accuracy, Digits4))
  }

  /** What `_binary_metrics` returns: counts over the zipped pairs, accuracy over all labels. */
  function Metrics(labels: seq<int>, scores: seq<real>, threshold: real): (m: BinaryMetrics)
    ensures m.tp + m.fp + m.fn + m.tn == MinInt(|labels|, |scores|)
    ensures m.samples == |labels|
    ensures 0.0 <= m.precision <= 1.0 && 0.0 <= m.recall <= 1.0
    ensures 0.0 <= m.f1 <= 1.0 && 0.0 <= m.accuracy <= 1.0
  {
    FromCounts(Tally(Zip(labels, scores), threshold), |labels|, threshold)
  }

  /** A threshold that separates 0/1 labels exactly has no false positives or negatives. */
  lemma {:induction false} SeparatingTally(pairs: seq<(int, real)>, threshold: real)
    requires forall i :: 0 <= i < |pairs| ==> (pairs[i].0 == 1 <==> pairs[i].1 >= threshold)
    requires forall i :: 0 <= i < |pairs| ==> pairs[i].0 == 0 || pairs[i].0 == 1
    ensures Tally(pairs, threshold).fp == 0 && Tally(pairs, threshold).fn == 0
  {
    if pairs != [] {
      var init, last := pairs[..|pairs| - 1], pairs[|pairs| - 1];
      SeparatingTally(init, threshold);
      AddCounts(Tally(init, threshold), last, threshold);
    }
  }

  /** Scores that the threshold separates exactly give accuracy 1, and F1 1 once a positive exists. */
  lemma PerfectScores(labels: seq<int>, scores: seq<real>, threshold: real)
    requires |labels| == |scores| > 0
    requires forall i :: 0 <= i < |labels| ==> labels[i] == 0 || labels[i] == 1
    requires forall i :: 0 <= i < |labels| ==> (labels[i] == 1 <==> scores[i] >= threshold)
    ensures Metrics(labels, scores, threshold).accuracy == 1.0
    ensures 1 in labels ==> Metrics(labels, scores, threshold).f1 == 1.0
  {
    var pairs := Zip(labels, scores);
    SeparatingTally(pairs, threshold);
    var c := Tally(pairs, threshold);
    RatioFacts(c.tp + c.tn, |labels|);
    RoundOfInt(1, Digits4);
    if 1 in labels {
      var k :| 0 <= k < |labels| && labels[k] == 1;
      TallyCounts(pairs, threshold);
      CountIfHas(pairs, IsPositive, k);
      assert c.tp > 0;
      RatioFacts(c.tp, c.tp);
      F1Bounds(1.0, 1.0);
    }
  }

  /** A row that satisfies p makes the count positive. */
  lemma {:induction false} CountIfHas<T>(s: seq<T>, p: T -> bool, k: nat)
    requires k < |s| && p(s[k])
    ensures CountIf(s, p) > 0
  {
    if k < |s| - 1 {
      CountIfHas(s[..|s| - 1], p, k);
    }
  }

  /** The loop of `_binary_metrics`. */
  method ComputeBinaryMetrics(labels: seq<int>, scores: seq<real>, threshold: real) returns (m: BinaryMetrics)
    ensures m == Metrics(labels, scores, threshold)
  {
    var predictions := seq(|scores|, i requires 0 <= i < |scores| => Predict(scores[i], threshold));
    var n := MinInt(|labels|, |predictions|);
    ghost var pairs := Zip(labels, scores);
    var tp, fp, fn, tn := 0, 0, 0, 0;
    for i := 0 to n
      invariant Confusion(tp, fp, fn, tn) == Tally(pairs[..i], threshold)
    {
      var truth, prediction := labels[i], predictions[i];
      assert pairs[..i + 1][..i] == pairs[..i];
      if truth == 1 && prediction == 1 {
        tp := tp + 1;
      } else if truth == 0 && prediction == 1 {
        fp := fp + 1;
      } else if truth == 1 && prediction == 0 {
        fn := fn + 1;
      } else {
        tn := tn + 1;
      }
    }
    assert pairs[..n] == pairs;
    m := FromCounts(Confusion(tp, fp, fn, tn), |labels|, threshold);
  }

  // ---------------------------------------------------------------------------------------
  // ROC-AUC (`_roc_auc`)
  // ---------------------------------------------------------------------------------------

  /** The scores of the pairs carrying label `truth`, in order. */
  function ScoresOf(pairs: seq<(int, real)>, truth: int): (s: seq<real>)
    ensures |s| <= |pairs|
  {
    if pairs == [] then []
    else ScoresOf(pairs[..|pairs| - 1], truth)
         + (if pairs[|pairs| - 1].0 == truth then [pairs[|pairs| - 1].1] else [])
  }

  /** A positive beating a negative scores 1, a tie 0.5. */
  function Credit(pos: real, neg: real): real
  {
    if pos > neg then 1.0 else if pos == neg then 0.5 else 0.0
  }

  /** The credit of one positive against every negative. */
  function RowWins(pos: real, negs: seq<real>): (w: real)
    ensures 0.0 <= w <= |negs| as real
  {
    if negs == [] then 0.0 else RowWins(pos, negs[..|negs| - 1]) + Credit(pos, negs[|negs| - 1])
  }

  lemma MulSucc(a: nat, b: nat)
    ensures (a + 1) * b == a * b + b
  {
  }

  lemma MulPositive(a: nat, b: nat)
    requires a > 0 && b > 0
    ensures a * b > 0
  {
  }

  lemma MulDiv(c: real, t: real)
    requires t > 0.0
    ensures c * t / t == c
  {
  }

  /** The credit over all (positive, negative) pairs. */
  function Wins(pos: seq<real>, negs: seq<real>): (w: real)
    ensures 0.0 <= w <= (|pos| * |negs|) as real
  {
    if pos == [] then 0.0
    else
      MulSucc(|pos| - 1, |negs|);
      Wins(pos[..|pos| - 1], negs) + RowWins(pos[|pos| - 1], negs)
  }

  /** `_roc_auc`: the share of credit won, or 0.0 when either class is empty. */
  function RocAuc(labels: seq<int>, scores: seq<real>): (auc: real)
    ensures 0.0 <= auc <= 1.0
    ensures ScoresOf(Zip(labels, scores), 1) == [] || ScoresOf(Zip(labels, scores), 0) == [] ==> auc == 0.0
  {
    var pairs := Zip(labels, scores);
    var pos, negs := ScoresOf(pairs, 1), ScoresOf(pairs, 0);
    if pos == [] || negs == [] then 0.0
    else
      var total := (|pos| * |negs|) as real;
      SafeDivUnit(Wins(pos, negs), total);
      Wins(pos, negs) / total
  }

  lemma {:induction false} UniformRow(pos: real, negs: seq<real>, c: real)
    requires forall j :: 0 <= j < |negs| ==> Credit(pos, negs[j]) == c
    ensures RowWins(pos, negs) == c * |negs| as real
  {
    if negs != [] {
      UniformRow(pos, negs[..|negs| - 1], c);
    }
  }

  lemma {:induction false} UniformWins(pos: seq<real>, negs: seq<real>, c: real)
    requires forall i, j :: 0 <= i < |pos| && 0 <= j < |negs| ==> Credit(pos[i], negs[j]) == c
    ensures Wins(pos, negs) == c * (|pos| * |negs|) as real
  {
    if pos != [] {
      UniformWins(pos[..|pos| - 1], negs, c);
      UniformRow(pos[|pos| - 1], negs, c);
      MulSucc(|pos| - 1, |negs|);
    }
  }

  /**
   * When every (positive, negative) pair earns the same credit c, the AUC is c: 1 for a
   * perfect ranking, 0 for a reversed one, and 0.5 when every pair ties.
   */
  lemma AucOfUniformCredit(labels: seq<int>, scores: seq<real>, c: real)
    requires ScoresOf(Zip(labels, scores), 1) != [] && ScoresOf(Zip(labels, scores), 0) != []
    requires var pos, negs := ScoresOf(Zip(labels, scores), 1), ScoresOf(Zip(labels, scores), 0);
      forall i, j :: 0 <= i < |pos| && 0 <= j < |negs| ==> Credit(pos[i], negs[j]) == c
    ensures RocAuc(labels, scores) == c
  {
    var pos, negs := ScoresOf(Zip(labels, scores), 1), ScoresOf(Zip(labels, scores), 0);
    UniformWins(pos, negs, c);
    var total := (|pos| * |negs|) as real;
    MulPositive(|pos|, |negs|);
    MulDiv(c, total);
  }

  /** Ties count half: when every positive scores what every negative does, the AUC is 0.5. */
  lemma AllTiedIsHalf(labels: seq<int>, scores: seq<real>)
    requires ScoresOf(Zip(labels, scores), 1) != [] && ScoresOf(Zip(labels, scores), 0) != []
    requires var pos, negs := ScoresOf(Zip(labels, scores), 1), ScoresOf(Zip(labels, scores), 0);
      forall i, j :: 0 <= i < |pos| && 0 <= j < |negs| ==> pos[i] == negs[j]
    ensures RocAuc(labels, scores) == 0.5
  {
    AucOfUniformCredit(labels, scores, 0.5);
  }

  /** The nested loop of `_roc_auc`. */
  method ComputeRocAuc(labels: seq<int>, scores: seq<real>) returns (auc: real)
    ensures auc == RocAuc(labels, scores)
  {
    var pairs := Zip(labels, scores);
    var positives, negatives := ScoresOf(pairs, 1), ScoresOf(pairs, 0);
    if positives == [] || negatives == [] {
      return 0.0;
    }
    var wins := 0.0;
    var total := |positives| * |negatives|;
    for i := 0 to |positives|
      invariant wins == Wins(positives[..i], negatives)
    {
      var posScore := positives[i];
      ghost var before := wins;
      for j := 0 to |negatives|
        invariant wins == before + RowWins(posScore, negatives[..j])
      {
        var negScore := negatives[j];
        assert negatives[..j + 1][..j] == negatives[..j];
        if posScore > negScore {
          wins := wins + 1.0;
        } else if posScore == negScore {
          wins := wins + 0.5;
        }
      }
      assert negatives[..|negatives|] == negatives;
      assert positives[..i + 1][..i] == positives[..i];
    }
    assert positives[..|positives|] == positives;
    auc := wins / total as real;
  }

  // ---------------------------------------------------------------------------------------
  // Expected calibration error (`_calibration_ece`)
  // ---------------------------------------------------------------------------------------

  const Bins: nat := 10

  /** Bin b covers [b/10, (b+1)/10); the last bin also takes 1.0. */
  predicate InBin(score: real, b: nat)
  {
    var low := b as real / Bins as real;
    var high := (b + 1) as real / Bins as real;
    score >= low && (score < high || (b == Bins - 1 && score <= high))
  }

  /** The bin a score in [0, 1] belongs to. */
  function BinOf(score: real): (b: nat)
    requires 0.0 <= score <= 1.0
    ensures b < Bins
  {
    if score == 1.0 then Bins - 1 else (score * Bins as real).Floor
  }

  /** Every score in [0, 1] falls into exactly one of the ten bins. */
  lemma ExactlyOneBin(score: real, b: nat)
    requires 0.0 <= score <= 1.0 && b < Bins
    ensures InBin(score, b) <==> b == BinOf(score)
  {
    var f := (score * Bins as real).Floor;
    assert f as real <= score * 10.0 < f as real + 1.0;
  }

  /** A score outside [0, 1] is in no bin and does not take part. */
  lemma NoBinOutside(score: real, b: nat)
    requires score < 0.0 || score > 1.0
    requires b < Bins
    ensures !InBin(score, b)
  {
  }

  /** The scores falling into bin b among the first n, in order. */
  function BinScores(scores: seq<real>, b: nat, n: nat): (s: seq<real>)
    requires n <= |scores|
  {
    if n == 0 then []
    else BinScores(scores, b, n - 1) + (if InBin(scores[n - 1], b) then [scores[n - 1]] else [])
  }

  /** The labels of those same rows, as reals. */
  function BinLabels(labels: seq<int>, scores: seq<real>, b: nat, n: nat): (s: seq<real>)
    requires n <= |scores| <= |labels|
    ensures |s| == |BinScores(scores, b, n)|
  {
    if n == 0 then []
    else BinLabels(labels, scores, b, n - 1) + (if InBin(scores[n - 1], b) then [labels[n - 1] as real] else [])
  }

  function Mean(s: seq<real>): real
    requires s != []
  {
    SumReal(s) / |s| as real
  }

  function Abs(x: real): (r: real)
    ensures r >= 0.0 && (r == x || r == -x)
  {
    if x < 0.0 then -x else x
  }

  /** The weighted gap of one bin: its share of the rows times |mean score - mean truth|. */
  function BinGap(labels: seq<int>, scores: seq<real>, b: nat): (g: real)
    requires |scores| <= |labels| && labels != []
    ensures g >= 0.0
  {
    var confs := BinScores(scores, b, |scores|);
    var accs := BinLabels(labels, scores, b, |scores|);
    if confs == [] then 0.0 else Weighted(|confs|, |labels|, Abs(Mean(confs) - Mean(accs)))
  }

  /** `(count / total) * gap`: a gap weighted by the share of the rows behind it. */
  function Weighted(count: nat, total: nat, gap: real): (w: real)
    requires total > 0 && gap >= 0.0
    ensures w >= 0.0
  {
    var share := count as real / total as real;
    assert share >= 0.0;
    share * gap
  }

  /** The gaps of bins 0..k-1 added up. */
  function EceUpTo(labels: seq<int>, scores: seq<real>, k: nat): (e: real)
    requires |scores| <= |labels| && labels != []
    ensures e >= 0.0
  {
    if k == 0 then 0.0 else EceUpTo(labels, scores, k - 1) + BinGap(labels, scores, k - 1)
  }

  /** `_calibration_ece` with ten bins: 0.0 without labels, never negative. */
  function Ece(labels: seq<int>, scores: seq<real>): (e: real)
    requires labels == [] || |scores| <= |labels|
    ensures e >= 0.0
  {
    if labels == [] then 0.0 else EceUpTo(labels, scores, Bins)
  }

  /** One more bin adds its weighted gap, nothing when it holds no score. */
  lemma EceStep(labels: seq<int>, scores: seq<real>, b: nat)
    requires |scores| <= |labels| && labels != []
    ensures var confs := BinScores(scores, b, |scores|);
      EceUpTo(labels, scores, b + 1) == EceUpTo(labels, scores, b) +
        (if confs == [] then 0.0
         else Weighted(|confs|, |labels|, Abs(Mean(confs) - Mean(BinLabels(labels, scores, b, |scores|)))))
  {
  }

  /** The bin loop of `_calibration_ece`. */
  method CalibrationEce(labels: seq<int>, scores: seq<real>) returns (ece: real)
    requires labels == [] || |scores| <= |labels|
    ensures ece == Ece(labels, scores)
  {
    if labels == [] {
      return 0.0;
    }
    var n := |labels|;
    ece := 0.0;
    for b := 0 to Bins
      invariant ece == EceUpTo(labels, scores, b)
    {
      EceStep(labels, scores, b);
      var selected := BinScores(scores, b, |scores|);
      if selected == [] {
        continue;
      }
      var avgConf := Mean(selected);
      var avgAcc := Mean(BinLabels(labels, scores, b, |scores|));
      ece := ece + Weighted(|selected|, n, Abs(avgConf - avgAcc));
    }
  }

  // ---------------------------------------------------------------------------------------
  // Brier score (`_brier_score`)
  // ---------------------------------------------------------------------------------------

  function SquaredError(pair: (int, real)): (e: real)
    ensures e >= 0.0
  {
    (pair.1 - pair.0 as real) * (pair.1 - pair.0 as real)
  }

  function SquaredErrors(pairs: seq<(int, real)>): (es: seq<real>)
    ensures |es| == |pairs|
    ensures forall i :: 0 <= i < |pairs| ==> es[i] == SquaredError(pairs[i])
  {
    seq(|pairs|, i requires 0 <= i < |pairs| => SquaredError(pairs[i]))
  }

  /** `_brier_score`: the mean squared error over the pairs, 0.0 without labels. */
  function Brier(labels: seq<int>, scores: seq<real>): (b: real)
    requires labels == [] || scores != []
    ensures b >= 0.0
  {
    if labels == [] then 0.0
    else
      var es := SquaredErrors(Zip(labels, scores));
      SumRealNonNegative(es);
      Mean(es)
  }

  lemma {:induction false} SumRealNonNegative(s: seq<real>)
    requires forall i :: 0 <= i < |s| ==> s[i] >= 0.0
    ensures SumReal(s) >= 0.0
  {
    if s != [] {
      SumRealNonNegative(s[1..]);
    }
  }

  lemma SquareAtMostOne(d: real)
    requires -1.0 <= d <= 1.0
    ensures d * d <= 1.0
  {
    if d >= 0.0 {
      assert d * d <= d * 1.0;
    } else {
      assert d * d == (-d) * (-d) <= (-d) * 1.0;
    }
  }

  /** For 0/1 labels and scores in [0, 1] the Brier score is at most 1. */
  lemma BrierAtMostOne(labels: seq<int>, scores: seq<real>)
    requires |labels| == |scores| > 0
    requires forall i :: 0 <= i < |labels| ==> (labels[i] == 0 || labels[i] == 1) && 0.0 <= scores[i] <= 1.0
    ensures Brier(labels, scores) <= 1.0
  {
    var pairs := Zip(labels, scores);
    var es := SquaredErrors(pairs);
    forall i | 0 <= i < |es| ensures 0.0 <= es[i] <= 1.0 {
      SquareAtMostOne(scores[i] - labels[i] as real);
    }
    MeanBounds(es, 0.0, 1.0);
  }

  /** Scores equal to their labels have Brier score 0. */
  lemma BrierOfExactScores(labels: seq<int>, scores: seq<real>)
    requires |labels| == |scores| > 0
    requires forall i :: 0 <= i < |labels| ==> scores[i] == labels[i] as real
    ensures Brier(labels, scores) == 0.0
  {
    var es := SquaredErrors(Zip(labels, scores));
    forall i | 0 <= i < |es| ensures 0.0 <= es[i] <= 0.0 {
    }
    MeanBounds(es, 0.0, 0.0);
  }
}
