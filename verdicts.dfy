// The shared verdict scale (backend/app/schemas/common.py): a 0-100 confidence score mapped
// onto five labels.

module Verdicts {

  datatype Verdict = Human | LikelyHuman | Uncertain | LikelyAi | AiGenerated
  {
    /** Position on the scale, from human to AI-generated. */
    function Ordinal(): nat
    {
      match this
      case Human => 0
      case LikelyHuman => 1
      case Uncertain => 2
      case LikelyAi => 3
      case AiGenerated => 4
    }
  }

  /** The labels `DetectionResult.verdict` allows. */
  const AllowedLabels := ["human", "likely_human", "uncertain", "likely_ai", "ai_generated"]

  function Label(v: Verdict): (s: string)
    ensures s in AllowedLabels
    ensures s == AllowedLabels[v.Ordinal()]
  {
    match v
    case Human => "human"
    case LikelyHuman => "likely_human"
    case Uncertain => "uncertain"
    case LikelyAi => "likely_ai"
    case AiGenerated => "ai_generated"
  }

  /** `compute_verdict`: lower-inclusive cut-offs at 20, 40, 60 and 80. */
  function ComputeVerdict(confidence: real): (v: Verdict)
    ensures v == Human <==> confidence < 20.0
    ensures v == LikelyHuman <==> 20.0 <= confidence < 40.0
    ensures v == Uncertain <==> 40.0 <= confidence < 60.0
    ensures v == LikelyAi <==> 60.0 <= confidence < 80.0
    ensures v == AiGenerated <==> 80.0 <= confidence
  {
    if confidence < 20.0 then Human
    else if confidence < 40.0 then LikelyHuman
    else if confidence < 60.0 then Uncertain
    else if confidence < 80.0 then LikelyAi
    else AiGenerated
  }

  /** The cut-off each verdict starts at, and the one where the next begins. */
  function LowerBound(v: Verdict): real
  {
    20.0 * v.Ordinal() as real
  }

  /** A confidence lands in the band whose lower bound is the highest one not above it. */
  lemma VerdictBand(confidence: real)
    requires 0.0 <= confidence
    ensures var v := ComputeVerdict(confidence);
      LowerBound(v) <= confidence && (v != AiGenerated ==> confidence < LowerBound(v) + 20.0)
  {
  }

  /** A higher confidence never gives a verdict further from AI. */
  lemma VerdictMonotone(a: real, b: real)
    requires a <= b
    ensures ComputeVerdict(a).Ordinal() <= ComputeVerdict(b).Ordinal()
  {
  }

  /** Scores outside 0-100 fall into the end bands. */
  lemma OutOfRange(confidence: real)
    ensures confidence < 0.0 ==> ComputeVerdict(confidence) == Human
    ensures confidence > 100.0 ==> ComputeVerdict(confidence) == AiGenerated
  {
  }

  /** Every confidence gets one of the allowed labels. */
  lemma VerdictTotal(confidence: real)
    ensures Label(ComputeVerdict(confidence)) in AllowedLabels
  {
  }
}
