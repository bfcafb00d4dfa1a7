// The combining stage of the image detector (backend/app/detection/image/detector.py): the
// size-based compression note, the weighted verdict and the explanation. The frequency and
// artifact scores and the metadata flags it combines are inputs.

module ImageDetector {
  import opened Common
  import opened Text
  import opened DetectionModels

  const KiB := 1024

  /** `_analyze_compression`: buckets by the payload size in KiB. */
  function Compression(size: nat): (note: string)
    ensures note == "heavily_compressed" <==> size < 50 * KiB
    ensures note == "moderately_compressed" <==> 50 * KiB <= size < 200 * KiB
    ensures note == "minimal_compression" <==> size > 5000 * KiB
    ensures note == "normal_compression" <==> 200 * KiB <= size <= 5000 * KiB
  {
    var kb := size as real / KiB as real;
    if kb < 50.0 then "heavily_compressed"
    else if kb < 200.0 then "moderately_compressed"
    else if kb > 5000.0 then "minimal_compression"
    else "normal_compression"
  }

  /** The metadata signal before capping: one weight per flag present. */
  function MetadataScore(flags: seq<string>): (m: real)
    ensures 0.0 <= m <= 1.6
    ensures m == 0.0 <==> "missing_exif" !in flags && "no_camera_info" !in flags &&
                          "unusual_compression" !in flags && "ai_software_tag" !in flags
  {
    (if "missing_exif" in flags then 0.4 else 0.0)
    + (if "no_camera_info" in flags then 0.2 else 0.0)
    + (if "unusual_compression" in flags then 0.2 else 0.0)
    + (if "ai_software_tag" in flags then 0.8 else 0.0)
  }

  /** The weighted sum: 35% frequency, 35% artifacts, 30% the capped metadata score. */
  function RawConfidence(freqAnomaly: real, artifactScore: real, flags: seq<string>): real
  {
    freqAnomaly * 0.35 + artifactScore * 0.35 + MinReal(1.0, MetadataScore(flags)) * 0.30
  }

  /** The confidence clamped to [0.1, 0.95], before rounding. */
  function Clamped(freqAnomaly: real, artifactScore: real, flags: seq<string>): (c: real)
    ensures 0.1 <= c <= 0.95
  {
    MaxReal(0.1, MinReal(0.95, RawConfidence(freqAnomaly, artifactScore, flags)))
  }

  datatype ImagePrediction = ImagePrediction(isAi: bool, confidence: real, model: Option<AIModel>)

  /**
   * `_make_prediction`: AI exactly when the clamped confidence exceeds one half; an AI verdict
   * names Stable Diffusion for strong artifacts, else Midjourney for a strong frequency
   * anomaly, else DALL-E; the reported confidence is the clamped one to three decimals.
   */
  function MakePrediction(freqAnomaly: real, artifactScore: real, flags: seq<string>): (p: ImagePrediction)
    ensures p.isAi <==> Clamped(freqAnomaly, artifactScore, flags) > 0.5
    ensures 0.1 <= p.confidence <= 0.95
    ensures p.confidence == Round(Clamped(freqAnomaly, artifactScore, flags), Digits3)
    ensures p.model.None? <==> !p.isAi
    ensures p.isAi && artifactScore > 0.6 ==> p.model == Some(StableDiffusion)
    ensures p.isAi && artifactScore <= 0.6 && freqAnomaly > 0.6 ==> p.model == Some(Midjourney)
    ensures p.isAi && artifactScore <= 0.6 && freqAnomaly <= 0.6 ==> p.model == Some(DallE)
  {
    var c := Clamped(freqAnomaly, artifactScore, flags);
    var isAi := c > 0.5;
    var model :=
      if !isAi then None
      else if artifactScore > 0.6 then Some(StableDiffusion)
      else if freqAnomaly > 0.6 then Some(Midjourney)
      else Some(DallE);
    RoundAtThreeBetween(c);
    ImagePrediction(isAi, Round(c, Digits3), model)
  }

  /** Rounding to three decimals keeps a value in [0.1, 0.95]. */
  lemma RoundAtThreeBetween(c: real)
    requires 0.1 <= c <= 0.95
    ensures 0.1 <= Round(c, Digits3) <= 0.95
  {
    RoundMonotone(0.1, c, Digits3);
    RoundMonotone(c, 0.95, Digits3);
    assert 0.1 == Unscaled(100, Digits3);
    assert 0.95 == Unscaled(950, Digits3);
    RoundOfUnits(100, Digits3);
    RoundOfUnits(950, Digits3);
  }

  /** Metadata alone never makes an image AI: its share is at most 0.30. */
  lemma MetadataAloneIsNotEnough(flags: seq<string>)
    ensures !MakePrediction(0.0, 0.0, flags).isAi
  {
  }

  /** Stronger frequency or artifact evidence never lowers the confidence nor undoes an AI verdict. */
  lemma {:induction false} PredictionMonotone(f1: real, a1: real, f2: real, a2: real, flags: seq<string>)
    requires f1 <= f2 && a1 <= a2
    ensures MakePrediction(f1, a1, flags).confidence <= MakePrediction(f2, a2, flags).confidence
    ensures MakePrediction(f1, a1, flags).isAi ==> MakePrediction(f2, a2, flags).isAi
  {
    assert RawConfidence(f1, a1, flags) <= RawConfidence(f2, a2, flags);
    RoundMonotone(Clamped(f1, a1, flags), Clamped(f2, a2, flags), Digits3);
  }

  /** The reasons `_generate_explanation` lists, in its order. */
  function Reasons(isAi: bool, freqAnomaly: real, artifactScore: real, flags: seq<string>): (rs: seq<string>)
    ensures rs == [] <==> isAi && freqAnomaly <= 0.5 && artifactScore <= 0.4 &&
                          "missing_exif" !in flags && "ai_software_tag" !in flags
  {
    (if freqAnomaly > 0.5 then ["unusual frequency patterns"] else [])
    + (if artifactScore > 0.4 then ["detected generation artifacts"] else [])
    + (if "missing_exif" in flags then ["missing camera metadata"] else [])
    + (if "ai_software_tag" in flags then ["AI software tag found"] else [])
    + (if !isAi then
         (if freqAnomaly < 0.4 then ["natural frequency distribution"] else [])
         + (if artifactScore < 0.3 then ["no obvious artifacts"] else [])
         + (if "missing_exif" !in flags then ["contains camera metadata"] else [])
       else [])
  }

  /** A non-AI verdict always has a reason: either the camera metadata is missing or it is there. */
  lemma AuthenticAlwaysExplained(freqAnomaly: real, artifactScore: real, flags: seq<string>)
    ensures Reasons(false, freqAnomaly, artifactScore, flags) != []
  {
  }

  /** "high" above 0.75, "moderate" above 0.5, else "low". */
  function ConfidenceLevel(confidence: real): (level: string)
    ensures level == "high" <==> confidence > 0.75
    ensures level == "low" <==> confidence <= 0.5
    ensures level == "moderate" <==> 0.5 < confidence <= 0.75
  {
    if confidence > 0.75 then "high" else if confidence > 0.5 then "moderate" else "low"
  }

  /** The verdict the explanation opens with. */
  function Verdict(isAi: bool): string
  {
    if isAi then "likely AI-generated" else "likely authentic"
  }

  /** How an explanation of an AI verdict opens: "Image appears likely AI-generated". */
  const AiHead := "Image appears " + Verdict(true)

  /**
   * `_generate_explanation`: the verdict and the confidence level, then the reasons, or
   * "mixed signals" when there is none.
   */
  function Explanation(isAi: bool, confidence: real, freqAnomaly: real, artifactScore: real, flags: seq<string>)
    : (e: string)
    ensures StartsWith(e, "Image appears " + Verdict(isAi) + " (" + ConfidenceLevel(confidence) + " confidence). ")
    ensures StartsWith(e, AiHead) <==> isAi
    ensures Reasons(isAi, freqAnomaly, artifactScore, flags) == [] ==> EndsWith(e, "Key indicators: mixed signals.")
    ensures Reasons(isAi, freqAnomaly, artifactScore, flags) != [] ==>
      EndsWith(e, "Key indicators: " + Join(Reasons(isAi, freqAnomaly, artifactScore, flags), ", ") + ".")
  {
    var head := "Image appears " + Verdict(isAi) + " (" + ConfidenceLevel(confidence) + " confidence). ";
    var e := Explain(head, Reasons(isAi, freqAnomaly, artifactScore, flags), "mixed signals");
    HeadSaysVerdict(e, isAi, ConfidenceLevel(confidence));
    e
  }

  /** An explanation opens with "likely AI-generated" exactly when its verdict is AI. */
  lemma HeadSaysVerdict(e: string, isAi: bool, level: string)
    requires StartsWith(e, "Image appears " + Verdict(isAi) + " (" + level + " confidence). ")
    ensures StartsWith(e, AiHead) <==> isAi
  {
    var head := "Image appears " + Verdict(isAi) + " (" + level + " confidence). ";
    HeadOpening(isAi, level);
    if isAi {
      StartsWithTrans(e, head, AiHead);
    } else {
      StartsWithDiffer(e, head, AiHead, 21);
    }
  }

  lemma HeadOpening(isAi: bool, level: string)
    ensures var head := "Image appears " + Verdict(isAi) + " (" + level + " confidence). ";
      (isAi ==> StartsWith(head, AiHead)) && (!isAi ==> 21 < |head| && head[21] == 'a')
  {
    var head := "Image appears " + Verdict(isAi) + " (" + level + " confidence). ";
    if isAi {
      assert head == AiHead + " (" + level + " confidence). ";
      assert head[..|AiHead|] == AiHead;
    } else {
      assert head[21] == 'a';
    }
  }

  datatype ImageVerdict = ImageVerdict(prediction: ImagePrediction, compression: string, explanation: string)

  /**
   * The tail of `detect`: prediction, compression note and explanation, the explanation
   * reading the rounded confidence.
   */
  function Combine(size: nat, freqAnomaly: real, artifactScore: real, flags: seq<string>): (v: ImageVerdict)
    ensures v.prediction.isAi <==> Clamped(freqAnomaly, artifactScore, flags) > 0.5
    ensures v.prediction.confidence == Round(Clamped(freqAnomaly, artifactScore, flags), Digits3)
    ensures v.prediction.model.None? <==> !v.prediction.isAi
    ensures v.compression == Compression(size)
    ensures StartsWith(v.explanation, AiHead) <==> v.prediction.isAi
    ensures StartsWith(v.explanation,
      "Image appears " + Verdict(v.prediction.isAi) + " (" + ConfidenceLevel(v.prediction.confidence) + " confidence). ")
  {
    var p := MakePrediction(freqAnomaly, artifactScore, flags);
    ImageVerdict(p, Compression(size), Explanation(p.isAi, p.confidence, freqAnomaly, artifactScore, flags))
  }
}
