// Comparing two pipeline runs (backend/scripts/compare_talent_visa_runs.py): the risk and
// confidence labels move up, down or stay on their orders, and the counted fields differ by
// candidate minus base.

module RunCompare {
  import opened Common
  import opened TrustReport

  /** Which way a label moved from the base run to the candidate. */
  datatype Direction = Up | Down | Same

  /** `{"direction": ..., "delta": ...}` */
  datatype Change = Change(direction: Direction, delta: int)

  /** `RISK_ORDER.get(label, 0)`: low, medium, high and critical rank 1 to 4, anything else 0. */
  function RiskRank(name: string): (rank: nat)
    ensures rank <= 4
    ensures rank == 0 <==> name !in {"low", "medium", "high", "critical"}
  {
    if name == "low" then 1
    else if name == "medium" then 2
    else if name == "high" then 3
    else if name == "critical" then 4
    else 0
  }

  /** `CONFIDENCE_ORDER.get(label, 0)`: low, medium and high rank 1 to 3, anything else 0. */
  function ConfidenceRank(name: string): (rank: nat)
    ensures rank <= 3
    ensures rank == 0 <==> name !in {"low", "medium", "high"}
  {
    if name == "low" then 1
    else if name == "medium" then 2
    else if name == "high" then 3
    else 0
  }

  /** The difference of two scores and the direction it points. */
  function ChangeOf(baseScore: int, candidateScore: int): (c: Change)
    ensures c.delta == candidateScore - baseScore
    ensures c.direction == Up <==> candidateScore > baseScore
    ensures c.direction == Down <==> candidateScore < baseScore
    ensures c.direction == Same <==> candidateScore == baseScore
  {
    var diff := candidateScore - baseScore;
    if diff > 0 then Change(Up, diff)
    else if diff < 0 then Change(Down, diff)
    else Change(Same, diff)
  }

  /** `_risk_delta` */
  function RiskDelta(base: string, candidate: string): (c: Change)
    ensures c.delta == RiskRank(candidate) - RiskRank(base)
    ensures c.direction == Up <==> c.delta > 0
    ensures c.direction == Down <==> c.delta < 0
    ensures c.direction == Same <==> c.delta == 0
  {
    ChangeOf(RiskRank(base), RiskRank(candidate))
  }

  /** `_confidence_delta` */
  function ConfidenceDelta(base: string, candidate: string): (c: Change)
    ensures c.delta == ConfidenceRank(candidate) - ConfidenceRank(base)
    ensures c.direction == Up <==> c.delta > 0
    ensures c.direction == Down <==> c.delta < 0
    ensures c.direction == Same <==> c.delta == 0
  {
    ChangeOf(ConfidenceRank(base), ConfidenceRank(candidate))
  }

  /** The opposite direction. */
  function Flip(d: Direction): Direction
  {
    match d
    case Up => Down
    case Down => Up
    case Same => Same
  }

  /** Swapping base and candidate negates the change; the same score on both sides gives Same. */
  lemma ChangeLaws(a: int, b: int)
    ensures ChangeOf(b, a).delta == -ChangeOf(a, b).delta
    ensures ChangeOf(b, a).direction == Flip(ChangeOf(a, b).direction)
    ensures ChangeOf(a, a) == Change(Same, 0)
  {
  }

  /** The risk comparison is antisymmetric and a label compared with itself stays the same. */
  lemma RiskDeltaLaws(a: string, b: string)
    ensures RiskDelta(b, a).delta == -RiskDelta(a, b).delta
    ensures RiskDelta(b, a).direction == Flip(RiskDelta(a, b).direction)
    ensures RiskDelta(a, a) == Change(Same, 0)
  {
    ChangeLaws(RiskRank(a), RiskRank(b));
  }

  /** The confidence comparison obeys the same laws. */
  lemma ConfidenceDeltaLaws(a: string, b: string)
    ensures ConfidenceDelta(b, a).delta == -ConfidenceDelta(a, b).delta
    ensures ConfidenceDelta(b, a).direction == Flip(ConfidenceDelta(a, b).direction)
    ensures ConfidenceDelta(a, a) == Change(Same, 0)
  {
    ChangeLaws(ConfidenceRank(a), ConfidenceRank(b));
  }

  /** Going from a to b and then from b to c moves as far as going from a to c. */
  lemma RiskDeltaChains(a: string, b: string, c: string)
    ensures RiskDelta(a, c).delta == RiskDelta(a, b).delta + RiskDelta(b, c).delta
  {
  }

  /** The label `generate` writes for a risk level. */
  function RiskName(level: RiskLevel): (name: string)
    ensures name in {"low", "medium", "high", "critical"}
  {
    match level
    case LowRisk => "low"
    case MediumRisk => "medium"
    case HighRisk => "high"
    case CriticalRisk => "critical"
  }

  /** The label `generate` writes for a confidence level. */
  function LevelName(level: Level): (name: string)
    ensures name in {"low", "medium", "high"}
  {
    match level
    case Low => "low"
    case Medium => "medium"
    case High => "high"
  }

  /** On the labels the report generator writes, the comparison follows the generator's own ranking. */
  lemma RiskDeltaOfLevels(base: RiskLevel, candidate: RiskLevel)
    ensures RiskDelta(RiskName(base), RiskName(candidate)).delta == candidate.Rank() - base.Rank()
    ensures RiskDelta(RiskName(base), RiskName(candidate)).direction == Same <==> base == candidate
  {
  }

  /** Confidence only rises from low to medium or high and from medium to high. */
  lemma ConfidenceDeltaOfLevels(base: Level, candidate: Level)
    ensures ConfidenceDelta(LevelName(base), LevelName(candidate)).direction == Same <==> base == candidate
    ensures ConfidenceDelta(LevelName(base), LevelName(candidate)).direction == Up <==>
      (base == Low && candidate != Low) || (base == Medium && candidate == High)
  {
  }

  /** A run's labels and counts, as `_run_summary` collects them. */
  datatype RunSummary = RunSummary(
    runId: string,
    postCount: nat,
    uniqueAccounts: nat,
    riskLevel: string,
    confidenceOverall: string,
    timelineDays: nat,
    suspectedClusters: nat,
    narrativeTopics: nat)

  /** The `delta` block of the comparison. */
  datatype Delta = Delta(
    postCountDelta: int,
    uniqueAccountsDelta: int,
    timelineDaysDelta: int,
    narrativeTopicsDelta: int,
    suspectedClustersDelta: int,
    riskChange: Change,
    confidenceChange: Change)

  /** The candidate's counts less the base's, and the moves of the two labels. */
  function DeltaOf(base: RunSummary, candidate: RunSummary): (d: Delta)
    ensures base.postCount + d.postCountDelta == candidate.postCount
    ensures base.uniqueAccounts + d.uniqueAccountsDelta == candidate.uniqueAccounts
    ensures base.timelineDays + d.timelineDaysDelta == candidate.timelineDays
    ensures base.narrativeTopics + d.narrativeTopicsDelta == candidate.narrativeTopics
    ensures base.suspectedClusters + d.suspectedClustersDelta == candidate.suspectedClusters
    ensures d.riskChange == RiskDelta(base.riskLevel, candidate.riskLevel)
    ensures d.confidenceChange == ConfidenceDelta(base.confidenceOverall, candidate.confidenceOverall)
  {
    Delta(candidate.postCount - base.postCount,
          candidate.uniqueAccounts - base.uniqueAccounts,
          candidate.timelineDays - base.timelineDays,
          candidate.narrativeTopics - base.narrativeTopics,
          candidate.suspectedClusters - base.suspectedClusters,
          RiskDelta(base.riskLevel, candidate.riskLevel),
          ConfidenceDelta(base.confidenceOverall, candidate.confidenceOverall))
  }

  /** Comparing the runs the other way round negates every delta and flips both directions. */
  lemma DeltaAntisymmetric(a: RunSummary, b: RunSummary)
    ensures var ab := DeltaOf(a, b); var ba := DeltaOf(b, a);
      ba.postCountDelta == -ab.postCountDelta
      && ba.uniqueAccountsDelta == -ab.uniqueAccountsDelta
      && ba.timelineDaysDelta == -ab.timelineDaysDelta
      && ba.narrativeTopicsDelta == -ab.narrativeTopicsDelta
      && ba.suspectedClustersDelta == -ab.suspectedClustersDelta
      && ba.riskChange.delta == -ab.riskChange.delta
      && ba.riskChange.direction == Flip(ab.riskChange.direction)
      && ba.confidenceChange.delta == -ab.confidenceChange.delta
      && ba.confidenceChange.direction == Flip(ab.confidenceChange.direction)
  {
    RiskDeltaLaws(a.riskLevel, b.riskLevel);
    ConfidenceDeltaLaws(a.confidenceOverall, b.confidenceOverall);
  }

  /** A run compared with itself shows no change at all. */
  lemma DeltaSelf(a: RunSummary)
    ensures DeltaOf(a, a) == Delta(0, 0, 0, 0, 0, Change(Same, 0), Change(Same, 0))
  {
    RiskDeltaLaws(a.riskLevel, a.riskLevel);
    ConfidenceDeltaLaws(a.confidenceOverall, a.confidenceOverall);
  }
}
