// Threshold calibration of a detector on labelled samples
// (backend/scripts/evaluate_detection_calibration.py): every sample is scored or skipped, the
// scored ones are tallied at fifteen thresholds from 0.20 to 0.90, and the threshold with the
// best (f1, accuracy) is recommended. The detectors and the file system are parameters.

module Calibration {
  import opened Common
  import opened Text
  import opened Tables
  import opened BenchmarkMetrics

  /** A scored sample: the detector's confidence and whether the sample is AI-generated. */
  type Scored = (real, bool)

  // ---------------------------------------------------------------------------------------
  // `_threshold_metrics`
  // ---------------------------------------------------------------------------------------

  /** The if/elif chain on (prediction, label); the last branch is the false negative. */
  function OutcomeAt(s: Scored, threshold: real): (o: Outcome)
    ensures o == TruePositive <==> s.0 >= threshold && s.1
    ensures o == FalsePositive <==> s.0 >= threshold && !s.1
    ensures o == TrueNegative <==> s.0 < threshold && !s.1
    ensures o == FalseNegative <==> s.0 < threshold && s.1
  {
    var pred := s.0 >= threshold;
    if pred && s.1 then TruePositive
    else if pred && !s.1 then FalsePositive
    else if !pred && !s.1 then TrueNegative
    else FalseNegative
  }

  /** The four counters after the loop over the scored samples. */
  function TallyAt(scores: seq<Scored>, threshold: real): (c: Confusion)
    ensures c.tp + c.fp + c.fn + c.tn == |scores|
  {
    if scores == [] then Confusion(0, 0, 0, 0)
    else TallyAt(scores[..|scores| - 1], threshold).Add(OutcomeAt(scores[|scores| - 1], threshold))
  }

  predicate IsAi(s: Scored) { s.1 }

  predicate AtOrAbove(s: Scored, threshold: real) { s.0 >= threshold }

  /**
   * The counters against an independent count: true positives plus false negatives are the
   * AI samples, and true plus false positives are the samples scored at or above the threshold.
   */
  lemma {:induction false} TallyAtCounts(scores: seq<Scored>, threshold: real)
    ensures TallyAt(scores, threshold).tp + TallyAt(scores, threshold).fn == CountIf(scores, IsAi)
    ensures TallyAt(scores, threshold).tp + TallyAt(scores, threshold).fp
         == CountIf(scores, s => AtOrAbove(s, threshold))
  {
    if scores != [] {
      TallyAtCounts(scores[..|scores| - 1], threshold);
    }
  }

  /** The metrics at one threshold; the reported threshold is rounded to two decimals. */
  function ThresholdMetrics(scores: seq<Scored>, threshold: real): (m: BinaryMetrics)
    ensures m.tp + m.fp + m.fn + m.tn == |scores| == m.samples
    ensures m.threshold == Round(threshold, Digits2)
    ensures 0.0 <= m.precision <= 1.0 && 0.0 <= m.recall <= 1.0
    ensures 0.0 <= m.f1 <= 1.0 && 0.0 <= m.accuracy <= 1.0
  {
    FromCounts(TallyAt(scores, threshold), |scores|, Round(threshold, Digits2))
  }

  /** `_threshold_metrics` */
  method ComputeThresholdMetrics(scores: seq<Scored>, threshold: real) returns (m: BinaryMetrics)
    ensures m == ThresholdMetrics(scores, threshold)
  {
    var tp, fp, tn, fn := 0, 0, 0, 0;
    for i := 0 to |scores|
      invariant Confusion(tp, fp, fn, tn) == TallyAt(scores[..i], threshold)
    {
      var (score, labelIsAi) := scores[i];
      var pred := score >= threshold;
      assert scores[..i + 1][..i] == scores[..i];
      if pred && labelIsAi {
        tp := tp + 1;
      } else if pred && !labelIsAi {
        fp := fp + 1;
      } else if !pred && !labelIsAi {
        tn := tn + 1;
      } else {
        fn := fn + 1;
      }
    }
    assert scores[..|scores|] == scores;
    m := FromCounts(Confusion(tp, fp, fn, tn), tp + tn + fp + fn, Round(threshold, Digits2));
  }

  /** Scores that separate the classes at the threshold give perfect accuracy. */
  lemma {:induction false} SeparatedAt(scores: seq<Scored>, threshold: real)
    requires forall k :: 0 <= k < |scores| ==> (scores[k].0 >= threshold <==> scores[k].1)
    ensures TallyAt(scores, threshold).fp == 0 && TallyAt(scores, threshold).fn == 0
  {
    if scores != [] {
      SeparatedAt(scores[..|scores| - 1], threshold);
    }
  }

  // ---------------------------------------------------------------------------------------
  // The threshold grid and the best threshold
  // ---------------------------------------------------------------------------------------

  const GridSize: nat := 15

  /** `[i / 20 for i in range(4, 19)]` */
  function Thresholds(): (t: seq<real>)
    ensures |t| == GridSize
    ensures t[0] == 0.2 && t[GridSize - 1] == 0.9
    ensures forall i :: 0 <= i < |t| ==> t[i] == (i + 4) as real / 20.0
  {
    seq(GridSize, i requires 0 <= i < GridSize => (i + 4) as real / 20.0)
  }

  /** The grid rises in steps of 0.05. */
  lemma ThresholdsIncrease(i: nat, j: nat)
    requires i < j < GridSize
    ensures Thresholds()[i] < Thresholds()[j]
  {
  }

  /** Every grid value already has two decimals, so the reported threshold is the grid value. */
  lemma ThresholdExact(i: nat)
    requires i < GridSize
    ensures Round(Thresholds()[i], Digits2) == Thresholds()[i]
  {
    var k := 5 * (i + 4);
    assert Unscaled(k, Digits2) == k as real / 100.0;
    assert Thresholds()[i] == Unscaled(k, Digits2);
    RoundOfUnits(k, Digits2);
  }

  /** `(f1, accuracy)` of a strictly greater than that of b. */
  predicate Beats(a: BinaryMetrics, b: BinaryMetrics)
  {
    a.f1 > b.f1 || (a.f1 == b.f1 && a.accuracy > b.accuracy)
  }

  /**
   * The index `max(metrics, key=(f1, accuracy))` picks: nothing beats it, and it beats every
   * earlier entry, so it is the first of the best.
   */
  function BestIndex(ms: seq<BinaryMetrics>): (i: nat)
    requires ms != []
    ensures i < |ms|
    ensures forall j :: 0 <= j < |ms| ==> !Beats(ms[j], ms[i])
    ensures forall j :: 0 <= j < i ==> Beats(ms[i], ms[j])
  {
    if |ms| == 1 then 0
    else
      var k := BestIndex(ms[..|ms| - 1]);
      if Beats(ms[|ms| - 1], ms[k]) then |ms| - 1 else k
  }

  /** The metrics at every grid threshold, in grid order. */
  function Grid(scores: seq<Scored>): (ms: seq<BinaryMetrics>)
    ensures |ms| == GridSize
    ensures forall i :: 0 <= i < GridSize ==> ms[i] == ThresholdMetrics(scores, Thresholds()[i])
  {
    seq(GridSize, i requires 0 <= i < GridSize => ThresholdMetrics(scores, Thresholds()[i]))
  }

  // ---------------------------------------------------------------------------------------
  // `_resolve_sample_path` and `_score_samples`
  // ---------------------------------------------------------------------------------------

  /** One JSONL sample: its fields as `str(...)` renders them, and the truth of `label_is_ai`. */
  datatype Sample = Sample(fields: map<string, string>, labelIsAi: bool)

  /** `str(sample.get(key, ""))` */
  function Field(sample: Sample, key: string): string
  {
    if key in sample.fields then sample.fields[key] else ""
  }

  /** The keys tried for a file path, modality-specific first. */
  function KeyCandidates(contentType: string): (keys: seq<string>)
    ensures contentType == "image" ==> keys == ["image_path", "path", "file_path"]
    ensures contentType == "audio" ==> keys == ["audio_path", "path", "file_path"]
    ensures contentType == "video" ==> keys == ["video_path", "path", "file_path"]
    ensures contentType != "image" && contentType != "audio" && contentType != "video" ==> keys == []
  {
    if contentType == "image" then ["image_path", "path", "file_path"]
    else if contentType == "audio" then ["audio_path", "path", "file_path"]
    else if contentType == "video" then ["video_path", "path", "file_path"]
    else []
  }

  /** `str(sample.get(key, "")).strip()` */
  function Trimmed(sample: Sample, key: string): string
  {
    Strip(Field(sample, key))
  }

  /** The position of the first key, from `from` on, with a non-blank value, or |keys|. */
  function FirstNonBlank(sample: Sample, keys: seq<string>, from: nat): (i: nat)
    requires from <= |keys|
    ensures from <= i <= |keys|
    ensures i < |keys| ==> Trimmed(sample, keys[i]) != ""
    ensures forall k :: from <= k < i ==> Trimmed(sample, keys[k]) == ""
    decreases |keys| - from
  {
    if from == |keys| then from
    else if Trimmed(sample, keys[from]) != "" then from
    else FirstNonBlank(sample, keys, from + 1)
  }

  /** The first key with a non-blank value, stripped; None when every key is blank. */
  function FirstPath(sample: Sample, keys: seq<string>): (p: Option<string>)
    ensures p.None? <==> forall k :: 0 <= k < |keys| ==> Trimmed(sample, keys[k]) == ""
    ensures p.Some? ==> p.value != "" && p.value == Trimmed(sample, keys[FirstNonBlank(sample, keys, 0)])
  {
    var i := FirstNonBlank(sample, keys, 0);
    if i < |keys| then Some(Trimmed(sample, keys[i])) else None
  }

  /**
   * `_resolve_sample_path`, without `expanduser`: the first non-blank of the medium's keys,
   * stripped.
   */
  function ResolveSamplePath(sample: Sample, contentType: string): (p: Option<string>)
    ensures p.None? <==> forall k :: 0 <= k < |KeyCandidates(contentType)| ==> Trimmed(sample, KeyCandidates(contentType)[k]) == ""
    ensures p.Some? ==> p.value != "" && exists k :: 0 <= k < |KeyCandidates(contentType)| && p.value == Trimmed(sample, KeyCandidates(contentType)[k])
  {
    FirstPath(sample, KeyCandidates(contentType))
  }

  /** A non-blank modality-specific path wins over the generic keys; text samples have no path. */
  lemma ResolveSamplePathPriority(sample: Sample, contentType: string)
    ensures contentType == "text" ==> ResolveSamplePath(sample, contentType) == None
    ensures contentType == "image" && Trimmed(sample, "image_path") != "" ==>
              ResolveSamplePath(sample, contentType) == Some(Trimmed(sample, "image_path"))
    ensures contentType == "audio" && Trimmed(sample, "audio_path") != "" ==>
              ResolveSamplePath(sample, contentType) == Some(Trimmed(sample, "audio_path"))
    ensures contentType == "video" && Trimmed(sample, "video_path") != "" ==>
              ResolveSamplePath(sample, contentType) == Some(Trimmed(sample, "video_path"))
  {
  }

  /** `Path(p).name`: the last '/'-segment once trailing '/' are dropped. */
  function FileName(path: string): (name: string)
    ensures '/' !in name && EndsWith(RStripChar(path, '/'), name)
  {
    var parts := Split(RStripChar(path, '/'), '/');
    SplitLastIsSuffix(RStripChar(path, '/'), '/');
    assert '/' !in parts[|parts| - 1];
    LastPart(RStripChar(path, '/'), '/')
  }

  /**
   * What the script cannot see: the text detector's confidence, reading a file (None when it
   * does not exist), and the media detector's confidence (None when it raises ValueError).
   */
  datatype Detectors = Detectors(text: string -> real, load: string -> Option<seq<bv8>>,
                                 media: (seq<bv8>, string) -> Option<real>)

  /** The confidence a sample gets, or None when it is skipped. */
  function ScoreOf(sample: Sample, contentType: string, d: Detectors): Option<real>
  {
    if contentType == "text" then
      var text := Trimmed(sample, "text");
      if text == "" then None else Some(d.text(text))
    else
      match ResolveSamplePath(sample, contentType)
      case None => None
      case Some(path) =>
        match d.load(path)
        case None => None
        case Some(bytes) => if bytes == [] then None else d.media(bytes, FileName(path))
  }

  /**
   * A text sample is skipped exactly when its text is blank, and is otherwise scored by the
   * text detector on the stripped text. A media sample without a path, a file or bytes is
   * skipped; one that is scored was loaded from its path, and the detector saw its bytes and
   * its file name.
   */
  lemma ScoreOfMeaning(sample: Sample, contentType: string, d: Detectors)
    ensures var r := ScoreOf(sample, contentType, d);
      contentType == "text" ==>
        (r.None? <==> Trimmed(sample, "text") == "") && (r.Some? ==> r.value == d.text(Trimmed(sample, "text")))
    ensures var r := ScoreOf(sample, contentType, d);
      var path := ResolveSamplePath(sample, contentType);
      contentType != "text" && r.Some? ==>
        path.Some? && d.load(path.value).Some? && d.load(path.value).value != [] &&
        r == d.media(d.load(path.value).value, FileName(path.value))
    ensures var path := ResolveSamplePath(sample, contentType);
      contentType != "text" && (path.None? || d.load(path.value) in {None, Some([])}) ==>
        ScoreOf(sample, contentType, d).None?
  {
  }

  /** The scored samples, in input order. */
  function ScoredOf(samples: seq<Sample>, contentType: string, d: Detectors): (scores: seq<Scored>)
    ensures |scores| <= |samples|
  {
    if samples == [] then []
    else
      var init := ScoredOf(samples[..|samples| - 1], contentType, d);
      var last := samples[|samples| - 1];
      match ScoreOf(last, contentType, d)
      case None => init
      case Some(c) => init + [(c, last.labelIsAi)]
  }

  /** The samples that were skipped. */
  function SkippedOf(samples: seq<Sample>, contentType: string, d: Detectors): nat
  {
    if samples == [] then 0
    else SkippedOf(samples[..|samples| - 1], contentType, d)
         + (if ScoreOf(samples[|samples| - 1], contentType, d).None? then 1 else 0)
  }

  /** Every sample is scored or skipped, never both. */
  lemma {:induction false} ScoredOrSkipped(samples: seq<Sample>, contentType: string, d: Detectors)
    ensures |ScoredOf(samples, contentType, d)| + SkippedOf(samples, contentType, d) == |samples|
  {
    if samples != [] {
      ScoredOrSkipped(samples[..|samples| - 1], contentType, d);
    }
  }

  /** Scoring one more sample appends its score, or counts it as skipped. */
  lemma ScoredSnoc(samples: seq<Sample>, i: nat, contentType: string, d: Detectors, score: Option<real>)
    requires i < |samples| && score == ScoreOf(samples[i], contentType, d)
    ensures ScoredOf(samples[..i + 1], contentType, d)
         == ScoredOf(samples[..i], contentType, d) + (if score.None? then [] else [(score.value, samples[i].labelIsAi)])
    ensures SkippedOf(samples[..i + 1], contentType, d) == SkippedOf(samples[..i], contentType, d) + (if score.None? then 1 else 0)
  {
    assert samples[..i + 1][..i] == samples[..i];
  }

  /** The text branch of `_score_samples`: blank texts are left out and counted at the end. */
  method ScoreTexts(samples: seq<Sample>, d: Detectors) returns (scores: seq<Scored>)
    ensures scores == ScoredOf(samples, "text", d)
  {
    scores := [];
    for i := 0 to |samples|
      invariant scores == ScoredOf(samples[..i], "text", d)
    {
      ScoredSnoc(samples, i, "text", d, ScoreOf(samples[i], "text", d));
      var text := Trimmed(samples[i], "text");
      if text == "" {
        continue;
      }
      scores := scores + [(d.text(text), samples[i].labelIsAi)];
    }
    assert samples[..|samples|] == samples;
  }

  /** One media sample: no path, no file, no bytes or a ValueError skip it. */
  method ScoreMedium(sample: Sample, contentType: string, d: Detectors) returns (score: Option<real>)
    requires contentType != "text"
    ensures score == ScoreOf(sample, contentType, d)
  {
    var filePath := ResolveSamplePath(sample, contentType);
    if filePath.None? || d.load(filePath.value).None? {
      return None;
    }
    var mediaBytes := d.load(filePath.value).value;
    if mediaBytes == [] {
      return None;
    }
    score := d.media(mediaBytes, FileName(filePath.value));
  }

  /** The media branch of `_score_samples`, counting the skipped samples as it goes. */
  method ScoreMedia(samples: seq<Sample>, contentType: string, d: Detectors) returns (scores: seq<Scored>, skipped: nat)
    requires contentType != "text"
    ensures scores == ScoredOf(samples, contentType, d)
    ensures skipped == SkippedOf(samples, contentType, d)
  {
    scores, skipped := [], 0;
    for i := 0 to |samples|
      invariant scores == ScoredOf(samples[..i], contentType, d)
      invariant skipped == SkippedOf(samples[..i], contentType, d)
    {
      var score := ScoreMedium(samples[i], contentType, d);
      ScoredSnoc(samples, i, contentType, d, score);
      if score.None? {
        skipped := skipped + 1;
      } else {
        scores := scores + [(score.value, samples[i].labelIsAi)];
      }
    }
    assert samples[..|samples|] == samples;
  }

  /** `_score_samples` */
  method ScoreSamples(samples: seq<Sample>, contentType: string, d: Detectors) returns (scores: seq<Scored>, skipped: nat)
    ensures scores == ScoredOf(samples, contentType, d)
    ensures skipped == SkippedOf(samples, contentType, d)
    ensures |scores| + skipped == |samples|
  {
    ScoredOrSkipped(samples, contentType, d);
    if contentType == "text" {
      scores := ScoreTexts(samples, d);
      skipped := |samples| - |scores|;
    } else {
      scores, skipped := ScoreMedia(samples, contentType, d);
    }
  }

  // ---------------------------------------------------------------------------------------
  // `run`
  // ---------------------------------------------------------------------------------------

  datatype Report = Report(contentType: string, inputSampleCount: nat, sampleCount: nat, skippedSamples: nat,
                           recommendedThreshold: real, bestMetrics: BinaryMetrics, allThresholds: seq<BinaryMetrics>)

  /** The report on the loaded samples, or the message `run` prints before exiting with 1. */
  function Calibrate(samples: seq<Sample>, contentType: string, d: Detectors): (r: Result<Report, string>)
    ensures r == Err("No labeled samples found.") <==> samples == []
    ensures r == Err("No valid samples were scored.") <==> samples != [] && ScoredOf(samples, contentType, d) == []
    ensures r.Ok? ==> r.value.inputSampleCount == |samples| == r.value.sampleCount + r.value.skippedSamples
    ensures r.Ok? ==> r.value.sampleCount == |ScoredOf(samples, contentType, d)| > 0
    ensures r.Ok? ==> r.value.allThresholds == Grid(ScoredOf(samples, contentType, d))
    ensures r.Ok? ==> r.value.bestMetrics == r.value.allThresholds[BestIndex(r.value.allThresholds)]
    ensures r.Ok? ==> r.value.recommendedThreshold == r.value.bestMetrics.threshold
  {
    if samples == [] then Err("No labeled samples found.")
    else
      var scores := ScoredOf(samples, contentType, d);
      if scores == [] then Err("No valid samples were scored.")
      else
        ScoredOrSkipped(samples, contentType, d);
        var all := Grid(scores);
        var best := all[BestIndex(all)];
        Ok(Report(contentType, |samples|, |scores|, SkippedOf(samples, contentType, d), best.threshold, best, all))
  }

  /** The best entry of the grid sits at a grid threshold, and no grid threshold does better. */
  lemma GridBest(scores: seq<Scored>)
    ensures var all := Grid(scores); var i := BestIndex(all);
      all[i].threshold == Thresholds()[i] &&
      (forall k :: 0 <= k < GridSize ==> !Beats(ThresholdMetrics(scores, Thresholds()[k]), all[i]))
  {
    var all := Grid(scores);
    var i := BestIndex(all);
    ThresholdExact(i);
    assert all[i] == ThresholdMetrics(scores, Thresholds()[i]);
  }

  /** The recommended threshold is one of the grid values, and no grid threshold does better. */
  lemma RecommendedIsBest(samples: seq<Sample>, contentType: string, d: Detectors)
    requires Calibrate(samples, contentType, d).Ok?
    ensures var r := Calibrate(samples, contentType, d).value;
      (exists i :: 0 <= i < GridSize && r.recommendedThreshold == Thresholds()[i]) &&
      (forall i :: 0 <= i < GridSize ==>
         !Beats(ThresholdMetrics(ScoredOf(samples, contentType, d), Thresholds()[i]), r.bestMetrics))
  {
    var scores := ScoredOf(samples, contentType, d);
    GridBest(scores);
    var i := BestIndex(Grid(scores));
    assert Calibrate(samples, contentType, d).value.recommendedThreshold == Thresholds()[i];
  }

  /** The metrics at every grid threshold, by the loop the comprehension stands for. */
  method ComputeGrid(scores: seq<Scored>) returns (ms: seq<BinaryMetrics>)
    ensures ms == Grid(scores)
  {
    var grid := Thresholds();
    ms := [];
    for i := 0 to GridSize
      invariant |ms| == i
      invariant forall k :: 0 <= k < i ==> ms[k] == ThresholdMetrics(scores, grid[k])
    {
      var m := ComputeThresholdMetrics(scores, grid[i]);
      ms := ms + [m];
    }
  }

  /** `run` after the samples are loaded. */
  method Run(samples: seq<Sample>, contentType: string, d: Detectors) returns (r: Result<Report, string>)
    ensures r == Calibrate(samples, contentType, d)
  {
    if samples == [] {
      return Err("No labeled samples found.");
    }
    var scores, skipped := ScoreSamples(samples, contentType, d);
    if scores == [] {
      return Err("No valid samples were scored.");
    }
    var metrics := ComputeGrid(scores);
    var best := metrics[BestIndex(metrics)];
    r := Ok(Report(contentType, |samples|, |scores|, skipped, best.threshold, best, metrics));
  }
}
