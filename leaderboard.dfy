// The leaderboard update of the public benchmark runner
// (benchmark/eval/run_public_benchmark.py, `_upsert_leaderboard_entry`): a new entry replaces
// any earlier entry of the same model, the entries are re-sorted by overall score, highest
// first, and ranked 1..n.

module Leaderboard {
  import opened Common
  import opened Collections

  /** The numeric fields of one task's results; a missing or non-numeric field is absent. */
  type TaskMetrics = map<string, real>

  /** `_as_float` */
  function AsFloat(task: TaskMetrics, key: string): (v: real)
    ensures key !in task ==> v == 0.0
    ensures key in task ==> v == task[key]
  {
    if key in task then task[key] else 0.0
  }

  /** The tasks of one benchmark run; audio and video are empty when the run has none. */
  datatype TaskResults = TaskResults(detection: TaskMetrics, attribution: TaskMetrics, tamper: TaskMetrics,
                                     audio: TaskMetrics, video: TaskMetrics)

  /** The weighted overall score, before rounding. */
  function Overall(t: TaskResults): real
  {
    0.34 * AsFloat(t.detection, "f1")
    + 0.2 * AsFloat(t.detection, "roc_auc")
    + 0.18 * AsFloat(t.attribution, "accuracy")
    + 0.16 * AsFloat(t.tamper, "robustness_score")
    + 0.06 * AsFloat(t.audio, "f1")
    + 0.06 * AsFloat(t.video, "f1")
  }

  /** The six metrics the overall score weighs, each in [0, 1]. */
  predicate UnitMetrics(t: TaskResults)
  {
    0.0 <= AsFloat(t.detection, "f1") <= 1.0 && 0.0 <= AsFloat(t.detection, "roc_auc") <= 1.0
    && 0.0 <= AsFloat(t.attribution, "accuracy") <= 1.0 && 0.0 <= AsFloat(t.tamper, "robustness_score") <= 1.0
    && 0.0 <= AsFloat(t.audio, "f1") <= 1.0 && 0.0 <= AsFloat(t.video, "f1") <= 1.0
  }

  /** All six weighed metrics are 1. */
  predicate PerfectMetrics(t: TaskResults)
  {
    AsFloat(t.detection, "f1") == 1.0 && AsFloat(t.detection, "roc_auc") == 1.0
    && AsFloat(t.attribution, "accuracy") == 1.0 && AsFloat(t.tamper, "robustness_score") == 1.0
    && AsFloat(t.audio, "f1") == 1.0 && AsFloat(t.video, "f1") == 1.0
  }

  /** The weights add up to one, so rates give an overall score that is a rate, 1 only for perfect marks. */
  lemma OverallIsWeightedMean(t: TaskResults)
    requires UnitMetrics(t)
    ensures 0.0 <= Overall(t) <= 1.0
    ensures Overall(t) == 1.0 <==> PerfectMetrics(t)
  {
  }

  /** One leaderboard row; rows read back from the file may lack the score or the experimental flag. */
  datatype Entry = Entry(modelId: string, updatedAt: string, detectionF1: real, rocAuc: real,
                         audioDetectionF1: real, videoDetectionF1: real, attributionAccuracy: real,
                         robustnessScore: real, overallScore: Option<real>, experimental: Option<bool>,
                         rank: Option<int>)

  /** The entry built for a new run, every figure rounded to four decimals. */
  function NewEntry(modelId: string, generatedAt: string, t: TaskResults): (e: Entry)
    ensures e.modelId == modelId && e.updatedAt == generatedAt
    ensures e.overallScore == Some(Round(Overall(t), Digits4)) && e.experimental == Some(true)
  {
    Entry(modelId, generatedAt, Round(AsFloat(t.detection, "f1"), Digits4), Round(AsFloat(t.detection, "roc_auc"), Digits4),
          Round(AsFloat(t.audio, "f1"), Digits4), Round(AsFloat(t.video, "f1"), Digits4),
          Round(AsFloat(t.attribution, "accuracy"), Digits4), Round(AsFloat(t.tamper, "robustness_score"), Digits4),
          Some(Round(Overall(t), Digits4)), Some(true), None)
  }

  /** The stored overall score of rate-valued results is a rate. */
  lemma NewEntryScoreIsRate(modelId: string, generatedAt: string, t: TaskResults)
    requires UnitMetrics(t)
    ensures 0.0 <= NewEntry(modelId, generatedAt, t).overallScore.value <= 1.0
  {
    OverallIsWeightedMean(t);
    RoundUnit(Overall(t), Digits4);
  }

  /** `float(item.get("overall_score", 0.0))` */
  function SortKey(e: Entry): real
  {
    if e.overallScore.Some? then e.overallScore.value else 0.0
  }

  /** The order of `sort(key=overall_score, reverse=True)`: a may precede b. */
  function HigherFirst(a: Entry, b: Entry): bool
  {
    SortKey(a) >= SortKey(b)
  }

  /** `item["rank"] = index; item.setdefault("audio_video_experimental", True)` */
  function Ranked(e: Entry, rank: int): (r: Entry)
    ensures r.modelId == e.modelId && r.overallScore == e.overallScore && r.rank == Some(rank)
    ensures r.experimental.Some?
  {
    e.(rank := Some(rank), experimental := if e.experimental.None? then Some(true) else e.experimental)
  }

  function RankAll(s: seq<Entry>): (r: seq<Entry>)
    ensures |r| == |s|
    ensures forall i :: 0 <= i < |s| ==> r[i] == Ranked(s[i], i + 1)
  {
    seq(|s|, i requires 0 <= i < |s| => Ranked(s[i], i + 1))
  }

  function OtherModels(entries: seq<Entry>, modelId: string): seq<Entry>
  {
    Filter(entries, (e: Entry) => e.modelId != modelId)
  }

  /** The entries after the upsert of `entry`. */
  function Upserted(entries: seq<Entry>, entry: Entry): seq<Entry>
  {
    RankAll(SortBy(OtherModels(entries, entry.modelId) + [entry], HigherFirst))
  }

  /** The leaderboard file's contents. */
  class Board {
    var updatedAt: string
    var entries: seq<Entry>

    /** A board that did not exist yet. */
    constructor (generatedAt: string)
      ensures updatedAt == generatedAt && entries == []
    {
      updatedAt := generatedAt;
      entries := [];
    }

    /** `_upsert_leaderboard_entry` on a loaded board. */
    method Upsert(modelId: string, generatedAt: string, results: TaskResults)
      modifies this
      ensures entries == Upserted(old(entries), NewEntry(modelId, generatedAt, results))
      ensures updatedAt == generatedAt
    {
      var entry := NewEntry(modelId, generatedAt, results);
      var existing := Filter(entries, (e: Entry) => e.modelId != modelId);
      existing := existing + [entry];
      existing := SortBy(existing, HigherFirst);
      var ranked: seq<Entry> := [];
      for index := 0 to |existing|
        invariant |ranked| == index
        invariant forall k :: 0 <= k < index ==> ranked[k] == Ranked(existing[k], k + 1)
      {
        ranked := ranked + [Ranked(existing[index], index + 1)];
      }
      updatedAt := generatedAt;
      entries := ranked;
    }
  }

  // ---------------------------------------------------------------------------------------
  // What the upsert guarantees
  // ---------------------------------------------------------------------------------------

  /** How many entries belong to model m. */
  function ModelCount(s: seq<Entry>, m: string): nat
  {
    if s == [] then 0 else (if s[0].modelId == m then 1 else 0) + ModelCount(s[1..], m)
  }

  lemma {:induction false} ModelCountAppend(s: seq<Entry>, x: Entry, m: string)
    ensures ModelCount(s + [x], m) == ModelCount(s, m) + (if x.modelId == m then 1 else 0)
  {
    if s != [] {
      assert (s + [x])[1..] == s[1..] + [x];
      ModelCountAppend(s[1..], x, m);
    } else {
      assert [x][1..] == [];
    }
  }

  lemma {:induction false} ModelCountInsert(x: Entry, s: seq<Entry>, m: string)
    ensures ModelCount(Insert(x, s, HigherFirst), m) == ModelCount(s, m) + (if x.modelId == m then 1 else 0)
  {
    if s != [] && !HigherFirst(x, s[0]) {
      ModelCountInsert(x, s[1..], m);
      assert Insert(x, s, HigherFirst)[1..] == Insert(x, s[1..], HigherFirst);
    } else if s != [] {
      assert ([x] + s)[1..] == s;
    }
  }

  lemma {:induction false} ModelCountSortBy(s: seq<Entry>, m: string)
    ensures ModelCount(SortBy(s, HigherFirst), m) == ModelCount(s, m)
  {
    if s != [] {
      ModelCountSortBy(s[1..], m);
      ModelCountInsert(s[0], SortBy(s[1..], HigherFirst), m);
    }
  }

  lemma {:induction false} ModelCountOthers(s: seq<Entry>, id: string, m: string)
    ensures ModelCount(OtherModels(s, id), m) == if m == id then 0 else ModelCount(s, m)
  {
    if s != [] {
      ModelCountOthers(s[1..], id, m);
      if s[0].modelId != id {
        assert OtherModels(s, id) == [s[0]] + OtherModels(s[1..], id);
        assert ([s[0]] + OtherModels(s[1..], id))[1..] == OtherModels(s[1..], id);
      }
    }
  }

  /** Entries that agree on their models, position by position, count each model alike. */
  lemma {:induction false} ModelCountSameModels(s: seq<Entry>, t: seq<Entry>, m: string)
    requires |s| == |t| && forall i :: 0 <= i < |s| ==> s[i].modelId == t[i].modelId
    ensures ModelCount(s, m) == ModelCount(t, m)
  {
    if s != [] {
      ModelCountSameModels(s[1..], t[1..], m);
    }
  }

  /**
   * After the upsert the new model appears exactly once, and every other model as often as
   * before: nothing of another model is lost or duplicated.
   */
  lemma UpsertedCounts(entries: seq<Entry>, entry: Entry, m: string)
    ensures ModelCount(Upserted(entries, entry), m)
         == if m == entry.modelId then 1 else ModelCount(entries, m)
  {
    var others := OtherModels(entries, entry.modelId);
    var sorted := SortBy(others + [entry], HigherFirst);
    ModelCountOthers(entries, entry.modelId, m);
    ModelCountAppend(others, entry, m);
    ModelCountSortBy(others + [entry], m);
    ModelCountSameModels(RankAll(sorted), sorted, m);
  }

  /** A board whose models were unique still has unique models after an upsert. */
  lemma UpsertKeepsModelsUnique(entries: seq<Entry>, entry: Entry, m: string)
    requires ModelCount(entries, m) <= 1
    ensures ModelCount(Upserted(entries, entry), m) <= 1
  {
    UpsertedCounts(entries, entry, m);
  }

  lemma HigherFirstIsOrder()
    ensures Total(HigherFirst) && Transitive(HigherFirst)
  {
  }

  /** The entries are ordered by overall score, highest first, and ranked 1..n in that order. */
  lemma UpsertedOrdered(entries: seq<Entry>, entry: Entry)
    ensures var r := Upserted(entries, entry);
      (forall i, j :: 0 <= i < j < |r| ==> SortKey(r[i]) >= SortKey(r[j])) &&
      (forall i :: 0 <= i < |r| ==> r[i].rank == Some(i + 1))
  {
    var sorted := SortBy(OtherModels(entries, entry.modelId) + [entry], HigherFirst);
    HigherFirstIsOrder();
    SortBySorted(OtherModels(entries, entry.modelId) + [entry], HigherFirst);
    var r := Upserted(entries, entry);
    forall i, j | 0 <= i < j < |r| ensures SortKey(r[i]) >= SortKey(r[j]) {
      SortedPairwise(sorted, HigherFirst, i, j);
    }
  }

  /** The board holds the other models' entries plus the new one. */
  lemma UpsertedSize(entries: seq<Entry>, entry: Entry)
    ensures |Upserted(entries, entry)| == |OtherModels(entries, entry.modelId)| + 1
  {
  }
}
