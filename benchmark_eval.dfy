// The row-level evaluation of the public benchmark runner
// (benchmark/eval/run_public_benchmark.py): precomputed scores become scored rows, the rows
// that are ok and carry a score are evaluated at a threshold, false positives are counted per
// domain, and the tamper task compares the F1 under attacks with the clean F1.

module BenchmarkEval {
  import opened Common
  import opened Collections
  import opened Tables
  import opened BenchmarkMetrics

  /**
   * One row of the benchmark dataset. `score` is Some exactly when the row holds an int or a
   * float score; missing optional keys are None.
   */
  datatype RawRow = RawRow(sampleId: string, task: Option<string>, modality: Option<string>,
                           domain: Option<string>, transform: Option<string>, labelIsAi: int,
                           inputRef: string, score: Option<real>)

  /** A row after scoring, with the keys the evaluation reads. */
  datatype ScoredRow = ScoredRow(sampleId: string, task: string, modality: string, domain: string,
                                 transform: Option<string>, labelIsAi: int, inputRef: string,
                                 status: string, score: Option<real>, prediction: Option<int>, error: string)

  function OrElse(v: Option<string>, default: string): string
  {
    if v.Some? then v.value else default
  }

  /** A row the evaluation uses: scored and carrying its score. */
  predicate Valid(r: ScoredRow)
  {
    r.status == "ok" && r.score.Some?
  }

  /** One row of `_score_rows_precomputed`. */
  function ScoreRow(row: RawRow): (s: ScoredRow)
    ensures s.status == "ok" <==> row.score.Some?
    ensures s.status == "ok" || s.status == "error"
    ensures s.score == row.score
    ensures s.prediction.Some? <==> row.score.Some?
    ensures row.score.Some? ==> s.prediction == Some(Predict(row.score.value, 0.5))
    ensures s.error == "" <==> row.score.Some?
    ensures Valid(s) <==> row.score.Some?
    ensures s.sampleId == row.sampleId && s.labelIsAi == row.labelIsAi && s.transform == row.transform
  {
    var ok := row.score.Some?;
    ScoredRow(row.sampleId, OrElse(row.task, "unknown"), OrElse(row.modality, "text"), OrElse(row.domain, ""),
              row.transform, row.labelIsAi, row.inputRef,
              if ok then "ok" else "error",
              row.score,
              if ok then Some(Predict(row.score.value, 0.5)) else None,
              if ok then "" else "missing_precomputed_score")
  }

  /** `_score_rows_precomputed`: one scored row per input row, in order. */
  method ScoreRowsPrecomputed(rows: seq<RawRow>) returns (scored: seq<ScoredRow>)
    ensures |scored| == |rows|
    ensures forall i :: 0 <= i < |rows| ==> scored[i] == ScoreRow(rows[i])
  {
    scored := [];
    for i := 0 to |rows|
      invariant |scored| == i
      invariant forall k :: 0 <= k < i ==> scored[k] == ScoreRow(rows[k])
    {
      scored := scored + [ScoreRow(rows[i])];
    }
  }

  // ---------------------------------------------------------------------------------------
  // False positives per domain (`_false_positive_by_domain`)
  // ---------------------------------------------------------------------------------------

  /** A valid human-written row: the only kind the per-domain count looks at. */
  predicate Negative(r: ScoredRow)
  {
    Valid(r) && r.labelIsAi == 0
  }

  predicate FalsePositiveAt(r: ScoredRow, threshold: real)
  {
    Negative(r) && r.score.value >= threshold
  }

  function Get(m: map<string, nat>, k: string): nat
  {
    if k in m then m[k] else 0
  }

  /** `m[k] = m.get(k, 0) + 1` */
  function Bump(m: map<string, nat>, k: string): map<string, nat>
  {
    m[k := Get(m, k) + 1]
  }

  /** The `totals` dict after the loop. */
  function Totals(rows: seq<ScoredRow>): map<string, nat>
  {
    if rows == [] then map[]
    else
      var before, r := Totals(rows[..|rows| - 1]), rows[|rows| - 1];
      if Negative(r) then Bump(before, r.domain) else before
  }

  /** The `false_positives` dict after the loop. */
  function FalsePositives(rows: seq<ScoredRow>, threshold: real): map<string, nat>
  {
    if rows == [] then map[]
    else
      var before, r := FalsePositives(rows[..|rows| - 1], threshold), rows[|rows| - 1];
      if FalsePositiveAt(r, threshold) then Bump(before, r.domain) else before
  }

  predicate NegativeIn(r: ScoredRow, d: string) { Negative(r) && r.domain == d }

  predicate FalsePositiveIn(r: ScoredRow, d: string, threshold: real) { FalsePositiveAt(r, threshold) && r.domain == d }

  /** The dicts against an independent count: per domain, the negatives and the false positives among them. */
  lemma {:induction false} TotalsCount(rows: seq<ScoredRow>, threshold: real, d: string)
    ensures Get(Totals(rows), d) == CountIf(rows, r => NegativeIn(r, d))
    ensures Get(FalsePositives(rows, threshold), d) == CountIf(rows, r => FalsePositiveIn(r, d, threshold))
    ensures d in Totals(rows) <==> Get(Totals(rows), d) > 0
    ensures d in FalsePositives(rows, threshold) <==> Get(FalsePositives(rows, threshold), d) > 0
  {
    if rows != [] {
      TotalsCount(rows[..|rows| - 1], threshold, d);
    }
  }

  /** A domain has a false positive only where it has a negative, and never more of them. */
  lemma {:induction false} FalsePositivesWithinTotals(rows: seq<ScoredRow>, threshold: real, d: string)
    ensures Get(FalsePositives(rows, threshold), d) <= Get(Totals(rows), d)
  {
    if rows != [] {
      FalsePositivesWithinTotals(rows[..|rows| - 1], threshold, d);
    }
  }

  /** The rate for a domain, rounded to four decimals. */
  function DomainRate(rows: seq<ScoredRow>, threshold: real, d: string): (rate: real)
    ensures 0.0 <= rate <= 1.0
  {
    var fp, total := Get(FalsePositives(rows, threshold), d), Get(Totals(rows), d);
    FalsePositivesWithinTotals(rows, threshold, d);
    SafeDivUnit(fp as real, total as real);
    RoundUnit(SafeDiv(fp as real, total as real), Digits4);
    Round(SafeDiv(fp as real, total as real), Digits4)
  }

  /** What `_false_positive_by_domain` returns: a rate in [0, 1] for every domain with a negative row. */
  function FalsePositiveRates(rows: seq<ScoredRow>, threshold: real): (rates: map<string, real>)
    ensures rates.Keys == Totals(rows).Keys
    ensures forall d :: d in rates ==> rates[d] == DomainRate(rows, threshold, d) && 0.0 <= rates[d] <= 1.0
  {
    map d | d in Totals(rows) :: DomainRate(rows, threshold, d)
  }

  /**
   * A domain is reported exactly when some valid human row is in it, and its rate is the
   * share of those rows scored at or above the threshold.
   */
  lemma FalsePositiveRatesMeaning(rows: seq<ScoredRow>, threshold: real, d: string)
    ensures d in FalsePositiveRates(rows, threshold) <==> CountIf(rows, r => NegativeIn(r, d)) > 0
    ensures d in FalsePositiveRates(rows, threshold) ==>
      FalsePositiveRates(rows, threshold)[d]
      == Round(SafeDiv(CountIf(rows, r => FalsePositiveIn(r, d, threshold)) as real,
                       CountIf(rows, r => NegativeIn(r, d)) as real), Digits4)
  {
    TotalsCount(rows, threshold, d);
  }

  lemma TotalsSnoc(rows: seq<ScoredRow>, i: nat, threshold: real)
    requires i < |rows|
    ensures Totals(rows[..i + 1]) == (if Negative(rows[i]) then Bump(Totals(rows[..i]), rows[i].domain) else Totals(rows[..i]))
    ensures FalsePositives(rows[..i + 1], threshold)
         == (if FalsePositiveAt(rows[i], threshold) then Bump(FalsePositives(rows[..i], threshold), rows[i].domain)
             else FalsePositives(rows[..i], threshold))
  {
    assert rows[..i + 1][..i] == rows[..i];
  }

  /** The loop of `_false_positive_by_domain`, with its two dicts. */
  method FalsePositiveByDomain(rows: seq<ScoredRow>, threshold: real) returns (rates: map<string, real>)
    ensures rates == FalsePositiveRates(rows, threshold)
  {
    var totals: map<string, nat> := map[];
    var falsePositives: map<string, nat> := map[];
    for i := 0 to |rows|
      invariant totals == Totals(rows[..i])
      invariant falsePositives == FalsePositives(rows[..i], threshold)
    {
      var row := rows[i];
      TotalsSnoc(rows, i, threshold);
      if row.status != "ok" || row.score.None? {
        continue;
      }
      if row.labelIsAi != 0 {
        continue;
      }
      totals := totals[row.domain := Get(totals, row.domain) + 1];
      if row.score.value >= threshold {
        falsePositives := falsePositives[row.domain := Get(falsePositives, row.domain) + 1];
      }
    }
    assert rows[..|rows|] == rows;
    rates := map d | d in totals :: Round(SafeDiv(Get(falsePositives, d) as real, totals[d] as real), Digits4);
  }

  // ---------------------------------------------------------------------------------------
  // Detection evaluation (`_evaluate_detection`)
  // ---------------------------------------------------------------------------------------

  function ScoreOf(r: ScoredRow): real
  {
    if r.score.Some? then r.score.value else 0.0
  }

  function LabelOf(r: ScoredRow): int { r.labelIsAi }

  datatype DetectionEval =
    | NotAvailable(samples: nat, evaluatedSamples: nat, failedSamples: nat)
    | Evaluated(metrics: BinaryMetrics, evaluatedSamples: nat, failedSamples: nat, rocAuc: real,
                calibrationEce: real, brierScore: real, falsePositiveRateByDomain: map<string, real>)

  /** `metrics.get("f1", 0.0)` */
  function F1Of(e: DetectionEval): (f: real)
    ensures e.Evaluated? ==> f == e.metrics.f1
    ensures e.NotAvailable? ==> f == 0.0
  {
    if e.Evaluated? then e.metrics.f1 else 0.0
  }

  /**
   * `_evaluate_detection`: the rows that carry a score are the evaluated ones; the metrics,
   * AUC, calibration error, Brier score and per-domain false-positive rates are those of
   * their labels and scores, each defined on its own above, and the rest count as failed.
   */
  function EvaluateDetection(rows: seq<ScoredRow>, threshold: real): (e: DetectionEval)
    ensures e.NotAvailable? <==> forall r :: r in rows ==> !Valid(r)
    ensures e.evaluatedSamples + e.failedSamples == |rows|
    ensures e.NotAvailable? ==> e.samples == |rows| && e.evaluatedSamples == 0
    ensures e.Evaluated? ==>
      var valid := Filter(rows, Valid);
      e.evaluatedSamples == |valid| &&
      e.metrics == Metrics(MapSeq(valid, LabelOf), MapSeq(valid, ScoreOf), threshold) &&
      e.falsePositiveRateByDomain == FalsePositiveRates(valid, threshold)
    ensures e.Evaluated? ==>
      var valid := Filter(rows, Valid);
      var labels, scores := MapSeq(valid, LabelOf), MapSeq(valid, ScoreOf);
      e.rocAuc == Round(RocAuc(labels, scores), Digits4) && e.calibrationEce == Round(Ece(labels, scores), Digits4) &&
      e.brierScore == Round(Brier(labels, scores), Digits4)
    ensures e.Evaluated? ==> 0.0 <= e.rocAuc <= 1.0 && e.calibrationEce >= 0.0 && e.brierScore >= 0.0
    ensures 0.0 <= F1Of(e) <= 1.0
  {
    var valid := Filter(rows, Valid);
    var labels, scores := MapSeq(valid, LabelOf), MapSeq(valid, ScoreOf);
    var failed := |rows| - |valid|;
    if valid == [] then
      assert forall r :: r in rows ==> !Valid(r);
      NotAvailable(|rows|, 0, failed)
    else
      RoundUnit(RocAuc(labels, scores), Digits4);
      RoundNonNegative(Ece(labels, scores));
      RoundNonNegative(Brier(labels, scores));
      Evaluated(Metrics(labels, scores, threshold), |valid|, failed, Round(RocAuc(labels, scores), Digits4),
                Round(Ece(labels, scores), Digits4), Round(Brier(labels, scores), Digits4),
                FalsePositiveRates(valid, threshold))
  }

  lemma RoundNonNegative(x: real)
    requires x >= 0.0
    ensures Round(x, Digits4) >= 0.0
  {
    RoundMonotone(0.0, x, Digits4);
    RoundOfInt(0, Digits4);
  }

  /** Rows that failed to score never reach the metrics: adding one changes only the failure count. */
  lemma FailedRowsOnlyCount(rows: seq<ScoredRow>, bad: ScoredRow, threshold: real)
    requires !Valid(bad)
    requires exists r :: r in rows && Valid(r)
    ensures var e, e' := EvaluateDetection(rows, threshold), EvaluateDetection(rows + [bad], threshold);
      e.Evaluated? && e'.Evaluated? && e'.failedSamples == e.failedSamples + 1 &&
      e'.metrics == e.metrics && e'.evaluatedSamples == e.evaluatedSamples && e'.rocAuc == e.rocAuc &&
      e'.calibrationEce == e.calibrationEce && e'.brierScore == e.brierScore &&
      e'.falsePositiveRateByDomain == e.falsePositiveRateByDomain
  {
    FilterAppend(rows, bad, Valid);
    assert Filter(rows + [bad], Valid) == Filter(rows, Valid);
  }

  // ---------------------------------------------------------------------------------------
  // Tamper robustness (`_evaluate_tamper`)
  // ---------------------------------------------------------------------------------------

  /** `str(row.get("transform", "unknown"))`: the key is always present, so a missing transform reads "None". */
  function TransformName(t: Option<string>): string
  {
    if t.Some? then t.value else "None"
  }

  function Transforms(rows: seq<ScoredRow>): set<string>
  {
    set r | r in rows :: TransformName(r.transform)
  }

  /** The rows under one transform, in order. */
  function Group(rows: seq<ScoredRow>, t: string): seq<ScoredRow>
  {
    Filter(rows, (r: ScoredRow) => TransformName(r.transform) == t)
  }

  /** The attacked transforms, in the sorted order `_evaluate_tamper` visits them. */
  const AttackTransforms: seq<string> := ["human_edit", "paraphrase", "translate"]

  datatype TamperEval = TamperEval(samples: nat, perTransform: map<string, DetectionEval>,
                                   cleanF1: real, attackedAvgF1: real, robustnessScore: real)

  /** `transform_f1.get(t, 0.0)` */
  function TransformF1(per: map<string, DetectionEval>, t: string): (f: real)
    ensures t !in per ==> f == 0.0
    ensures t in per ==> f == F1Of(per[t])
  {
    if t in per then F1Of(per[t]) else 0.0
  }

  /** The F1 of each attacked transform that occurs. */
  function AttackedF1s(per: map<string, DetectionEval>, names: seq<string>): (fs: seq<real>)
    ensures |fs| <= |names|
  {
    if names == [] then []
    else AttackedF1s(per, names[..|names| - 1])
         + (if names[|names| - 1] in per then [F1Of(per[names[|names| - 1]])] else [])
  }

  function MeanOrZero(s: seq<real>): real
  {
    if s == [] then 0.0 else Mean(s)
  }

  /** The per-transform evaluations `_evaluate_tamper` computes. */
  function PerTransform(rows: seq<ScoredRow>, threshold: real): (per: map<string, DetectionEval>)
    ensures per.Keys == Transforms(rows)
    ensures forall n :: n in per ==> per[n] == EvaluateDetection(Group(rows, n), threshold)
  {
    map n | n in Transforms(rows) :: EvaluateDetection(Group(rows, n), threshold)
  }

  /** Mean attacked F1 over clean F1, or 0.0 when the clean F1 is 0 or missing. */
  function Robustness(per: map<string, DetectionEval>): (r: real)
  {
    var clean := TransformF1(per, "clean");
    if clean != 0.0 then SafeDiv(MeanOrZero(AttackedF1s(per, AttackTransforms)), clean) else 0.0
  }

  /** `_evaluate_tamper` */
  function EvaluateTamper(rows: seq<ScoredRow>, threshold: real): (t: TamperEval)
    ensures t.samples == |rows|
    ensures t.perTransform == PerTransform(rows, threshold)
    ensures t.robustnessScore == Round(Robustness(t.perTransform), Digits4)
  {
    var per := PerTransform(rows, threshold);
    var clean := TransformF1(per, "clean");
    var attackedAvg := MeanOrZero(AttackedF1s(per, AttackTransforms));
    TamperEval(|rows|, per, Round(clean, Digits4), Round(attackedAvg, Digits4), Round(Robustness(per), Digits4))
  }

  /** Without clean rows, or with a clean F1 of 0, there is no robustness to report. */
  lemma NoCleanF1NoRobustness(rows: seq<ScoredRow>, threshold: real)
    requires TransformF1(PerTransform(rows, threshold), "clean") == 0.0
    ensures EvaluateTamper(rows, threshold).robustnessScore == 0.0
  {
    RoundOfInt(0, Digits4);
  }

  /** Clean rows are missing when no row is untransformed-as-"clean". */
  lemma NoCleanRows(rows: seq<ScoredRow>, threshold: real)
    requires forall r :: r in rows ==> TransformName(r.transform) != "clean"
    ensures TransformF1(PerTransform(rows, threshold), "clean") == 0.0
  {
  }

  lemma {:induction false} AttackedBounds(per: map<string, DetectionEval>, names: seq<string>)
    requires forall n :: n in per ==> 0.0 <= F1Of(per[n]) <= 1.0
    ensures forall i :: 0 <= i < |AttackedF1s(per, names)| ==> 0.0 <= AttackedF1s(per, names)[i] <= 1.0
  {
    if names != [] {
      AttackedBounds(per, names[..|names| - 1]);
    }
  }

  /** The reported clean and attacked F1 are rates, and the robustness is never negative. */
  lemma TamperBounds(rows: seq<ScoredRow>, threshold: real)
    ensures var t := EvaluateTamper(rows, threshold);
      0.0 <= t.cleanF1 <= 1.0 && 0.0 <= t.attackedAvgF1 <= 1.0 && t.robustnessScore >= 0.0
  {
    var per := PerTransform(rows, threshold);
    var attacked := AttackedF1s(per, AttackTransforms);
    AttackedBounds(per, AttackTransforms);
    if attacked != [] {
      MeanBounds(attacked, 0.0, 1.0);
    }
    var clean := TransformF1(per, "clean");
    RoundUnit(clean, Digits4);
    RoundUnit(MeanOrZero(attacked), Digits4);
    if clean != 0.0 {
      SafeDivNonNegative(MeanOrZero(attacked), clean);
    }
    RoundNonNegative(Robustness(per));
  }

  lemma SafeDivNonNegative(a: real, b: real)
    requires a >= 0.0 && b > 0.0
    ensures SafeDiv(a, b) >= 0.0
  {
  }

  lemma {:induction false} SumRealConstant(s: seq<real>, v: real)
    requires forall i :: 0 <= i < |s| ==> s[i] == v
    ensures SumReal(s) == v * |s| as real
  {
    if s != [] {
      SumRealConstant(s[1..], v);
    }
  }

  lemma {:induction false} AttackedAll(per: map<string, DetectionEval>, names: seq<string>, v: real)
    requires forall n :: n in names && n in per ==> F1Of(per[n]) == v
    ensures forall i :: 0 <= i < |AttackedF1s(per, names)| ==> AttackedF1s(per, names)[i] == v
  {
    if names != [] {
      AttackedAll(per, names[..|names| - 1], v);
    }
  }

  lemma DivSelf(c: real)
    requires c != 0.0
    ensures SafeDiv(c, c) == 1.0
  {
  }

  /** Attacks that leave the F1 exactly as on clean rows give robustness 1. */
  lemma UndegradedIsFullyRobust(per: map<string, DetectionEval>)
    requires TransformF1(per, "clean") != 0.0 && AttackedF1s(per, AttackTransforms) != []
    requires forall n :: n in AttackTransforms && n in per ==> F1Of(per[n]) == TransformF1(per, "clean")
    ensures Round(Robustness(per), Digits4) == 1.0
  {
    var clean := TransformF1(per, "clean");
    var attacked := AttackedF1s(per, AttackTransforms);
    AttackedAll(per, AttackTransforms, clean);
    SumRealConstant(attacked, clean);
    MulDiv(clean, |attacked| as real);
    DivSelf(clean);
    RoundOfInt(1, Digits4);
  }
}
