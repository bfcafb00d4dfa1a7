// The analysis history store: detection results saved with their metadata into a table
// bounded by a capacity, looked up by id, paged newest first, and summarised into overall
// statistics and a recent-activity dashboard. The SQL table is the sequence of its rows in
// ascending creation order.

module AnalysisStore {
  import opened Common
  import opened Json
  import opened Collections
  import opened Tables

  /** The keys of a stored result that the history and the dashboard read. */
  const IdKey := "analysis_id"
  const AiKey := "is_ai_generated"
  const ConfidenceKey := "confidence"
  const PredictionKey := "model_prediction"
  const ExplanationKey := "explanation"

  datatype ContentType = TextContent | ImageContent | AudioContent | VideoContent

  /** One row of the table; `createdAt` in UTC seconds, `result` the dumped detection result. */
  datatype StoredAnalysis = StoredAnalysis(
    analysisId: string,
    contentType: ContentType,
    result: Json,
    createdAt: int,
    source: string,
    sourceUrl: Option<string>,
    contentHash: string,
    inputSize: nat,
    filename: Option<string>)

  function CreatedAt(r: StoredAnalysis): int { r.createdAt }

  function AnalysisId(r: StoredAnalysis): string { r.analysisId }

  /** No two rows share an id (the table's primary key). */
  predicate IdsDistinct(rs: seq<StoredAnalysis>)
  {
    UniqueBy(rs, AnalysisId)
  }

  /** The row with the given id, if the table holds one. */
  function RecordById(rs: seq<StoredAnalysis>, id: string): (r: Option<StoredAnalysis>)
    ensures r.Some? <==> exists i :: 0 <= i < |rs| && rs[i].analysisId == id
    ensures r.Some? ==> r.value in rs && r.value.analysisId == id
  {
    if rs == [] then None
    else if rs[0].analysisId == id then Some(rs[0])
    else
      var r := RecordById(rs[1..], id);
      assert forall i :: 0 <= i < |rs| - 1 ==> rs[1..][i] == rs[i + 1];
      r
  }

  /** The dumped result with the new id injected under "analysis_id". */
  function DumpedResult(result: Json, id: string): (d: Json)
    requires result.JObj?
    ensures d.JObj? && Get(d, IdKey) == Some(JStr(id))
    ensures forall k :: k != IdKey ==> Get(d, k) == Get(result, k)
  {
    SetMemberGet(result, IdKey, JStr(id), IdKey);
    forall k | k != IdKey ensures Get(SetMember(result, IdKey, JStr(id)), k) == Get(result, k) {
      SetMemberGet(result, IdKey, JStr(id), k);
    }
    SetMember(result, IdKey, JStr(id))
  }

  /** The row `_save_result` adds. */
  function NewRecord(kind: ContentType, result: Json, contentHash: string, inputSize: nat, source: string,
                     sourceUrl: Option<string>, filename: Option<string>, id: string, now: int): StoredAnalysis
    requires result.JObj?
  {
    StoredAnalysis(id, kind, DumpedResult(result, id), now, source, sourceUrl, contentHash, inputSize, filename)
  }

  /** What `get_history` lists for a row. */
  datatype HistoryItem = HistoryItem(
    analysisId: string,
    contentType: ContentType,
    isAiGenerated: Option<Json>,
    confidence: Option<Json>,
    modelPrediction: Option<Json>,
    createdAt: int,
    source: string,
    sourceUrl: Option<string>,
    explanation: Option<Json>)

  function ToHistoryItem(r: StoredAnalysis): HistoryItem
  {
    HistoryItem(r.analysisId, r.contentType, Get(r.result, AiKey), Get(r.result, ConfidenceKey),
                Get(r.result, PredictionKey), r.createdAt, r.source, r.sourceUrl, Get(r.result, ExplanationKey))
  }

  /**
   * `get_history(limit, offset)`: the rows newest first from position offset, at most limit of
   * them, together with the number of rows in the table.
   */
  function HistoryOf(rs: seq<StoredAnalysis>, limit: nat, offset: nat): (h: (seq<HistoryItem>, nat))
    ensures h.1 == |rs|
    ensures |h.0| == MinInt(limit, MaxInt(|rs| - offset, 0))
    ensures forall k :: 0 <= k < |h.0| ==> h.0[k] == ToHistoryItem(rs[|rs| - 1 - (offset + k)])
  {
    var page := Page(Reversed(rs), offset, limit);
    (MapSeq(page, ToHistoryItem), |rs|)
  }

  /** Successive history pages never list the same analysis. */
  lemma HistoryPagesDisjoint(rs: seq<StoredAnalysis>, offset: nat, limit: nat, later: nat)
    requires IdsDistinct(rs)
    ensures var a, b := HistoryOf(rs, limit, offset).0, HistoryOf(rs, later, offset + limit).0;
      forall i, j :: 0 <= i < |a| && 0 <= j < |b| ==> a[i].analysisId != b[j].analysisId
  {
    var a, b := HistoryOf(rs, limit, offset).0, HistoryOf(rs, later, offset + limit).0;
    forall i, j | 0 <= i < |a| && 0 <= j < |b| ensures a[i].analysisId != b[j].analysisId {
      var n := |rs|;
      assert a[i].analysisId == rs[n - 1 - (offset + i)].analysisId;
      assert b[j].analysisId == rs[n - 1 - (offset + limit + j)].analysisId;
    }
  }

  /** `bool(record.result.get("is_ai_generated"))` */
  predicate IsAi(r: StoredAnalysis)
  {
    TruthySome(Get(r.result, AiKey))
  }

  /** `float(record.result.get("confidence", 0.0))`; None where `float()` raises. */
  function ConfidenceOf(r: StoredAnalysis): (c: Option<real>)
    ensures Get(r.result, ConfidenceKey).None? ==> c == Some(0.0)
  {
    var v := Get(r.result, ConfidenceKey);
    if v.None? then Some(0.0)
    else if IsNumber(v.value) then Some(NumberValue(v.value))
    else None
  }

  function CountAi(rs: seq<StoredAnalysis>): (n: nat)
    ensures n <= |rs|
  {
    if rs == [] then 0 else CountAi(rs[..|rs| - 1]) + (if IsAi(rs[|rs| - 1]) then 1 else 0)
  }

  function CountType(rs: seq<StoredAnalysis>, t: ContentType): (n: nat)
    ensures n <= |rs|
  {
    if rs == [] then 0 else CountType(rs[..|rs| - 1], t) + (if rs[|rs| - 1].contentType == t then 1 else 0)
  }

  /** The four per-type counts of `by_type`. */
  datatype TypeCounts = TypeCounts(text: nat, image: nat, audio: nat, video: nat)

  function TypeCountsOf(rs: seq<StoredAnalysis>): TypeCounts
  {
    TypeCounts(CountType(rs, TextContent), CountType(rs, ImageContent), CountType(rs, AudioContent), CountType(rs, VideoContent))
  }

  /** Every row has exactly one of the four content types, so the per-type counts add up to the rows. */
  lemma {:induction false} TypeCountsCover(rs: seq<StoredAnalysis>)
    ensures var c := TypeCountsOf(rs); c.text + c.image + c.audio + c.video == |rs|
  {
    if rs != [] {
      TypeCountsCover(rs[..|rs| - 1]);
    }
  }

  /** The sum of the confidences; None when one of them does not convert. */
  function ConfidenceSum(rs: seq<StoredAnalysis>): Option<real>
  {
    if rs == [] then Some(0.0)
    else
      match (ConfidenceSum(rs[..|rs| - 1]), ConfidenceOf(rs[|rs| - 1]))
      case (Some(s), Some(c)) => Some(s + c)
      case _ => None
  }

  /** The rounded mean confidence, 0.0 for no rows; None when a confidence does not convert. */
  function MeanConfidence(rs: seq<StoredAnalysis>): Option<real>
  {
    if |rs| == 0 then Some(0.0)
    else
      match ConfidenceSum(rs)
      case None => None
      case Some(s) => Some(Round(s / |rs| as real, Digits3))
  }

  /** Every row's confidence converts to a value in [0, 1], as a detection result's does. */
  predicate UnitConfidences(rs: seq<StoredAnalysis>)
  {
    forall i :: 0 <= i < |rs| ==> ConfidenceOf(rs[i]).Some? && 0.0 <= ConfidenceOf(rs[i]).value <= 1.0
  }

  lemma {:induction false} ConfidenceSumBounds(rs: seq<StoredAnalysis>)
    requires UnitConfidences(rs)
    ensures ConfidenceSum(rs).Some? && 0.0 <= ConfidenceSum(rs).value <= |rs| as real
  {
    if rs != [] {
      var init := rs[..|rs| - 1];
      assert forall i :: 0 <= i < |init| ==> init[i] == rs[i];
      ConfidenceSumBounds(init);
    }
  }

  /** With confidences in [0, 1] the mean is defined and stays in [0, 1]. */
  lemma MeanConfidenceUnit(rs: seq<StoredAnalysis>)
    requires UnitConfidences(rs)
    ensures MeanConfidence(rs).Some? && 0.0 <= MeanConfidence(rs).value <= 1.0
  {
    if |rs| > 0 {
      ConfidenceSumBounds(rs);
      var s := ConfidenceSum(rs).value;
      assert 0.0 <= s / |rs| as real <= 1.0;
      RoundUnit(s / |rs| as real, Digits3);
    }
  }

  /** What `get_stats` reports. */
  datatype Stats = Stats(totalAnalyses: nat, aiDetectedCount: nat, humanDetectedCount: nat,
                         averageConfidence: real, byType: TypeCounts)

  /**
   * `get_stats`: every row is AI or human, every row has one type, and the average is 0.0 on
   * an empty table; a confidence `float()` rejects makes the call fail.
   */
  function StatsOf(rs: seq<StoredAnalysis>): (r: Result<Stats, string>)
    ensures r.Ok? <==> MeanConfidence(rs).Some?
    ensures r.Ok? ==>
      var s := r.value;
      s.totalAnalyses == |rs| && s.aiDetectedCount == CountAi(rs) &&
      s.aiDetectedCount + s.humanDetectedCount == s.totalAnalyses &&
      s.byType.text + s.byType.image + s.byType.audio + s.byType.video == s.totalAnalyses &&
      s.averageConfidence == MeanConfidence(rs).value
    ensures rs == [] ==> r == Ok(Stats(0, 0, 0, 0.0, TypeCounts(0, 0, 0, 0)))
  {
    TypeCountsCover(rs);
    match MeanConfidence(rs)
    case None => Err("confidence is not a number")
    case Some(avg) => Ok(Stats(|rs|, CountAi(rs), |rs| - CountAi(rs), avg, TypeCountsOf(rs)))
  }

  const DaySeconds := 86400

  /** `created_at.date()` of a UTC timestamp, as a day number. */
  function Day(t: int): int
  {
    t / DaySeconds
  }

  lemma DayMonotone(a: int, b: int)
    requires a <= b
    ensures Day(a) <= Day(b)
  {
  }

  /** One day later is the next day number. */
  lemma DayShift(t: int, k: int)
    ensures Day(t + k * DaySeconds) == Day(t) + k
  {
  }

  /** `max(1, min(days, 90))` */
  function WindowDays(days: int): (d: int)
    ensures 1 <= d <= 90
    ensures 1 <= days <= 90 ==> d == days
    ensures days < 1 ==> d == 1
    ensures days > 90 ==> d == 90
  {
    ClampInt(days, 1, 90)
  }

  /** The rows created at or after the cutoff, in table order. */
  function RecentOf(rs: seq<StoredAnalysis>, cutoff: int): (r: seq<StoredAnalysis>)
    ensures |r| <= |rs|
    ensures forall x :: x in r <==> x in rs && x.createdAt >= cutoff
  {
    if rs == [] then []
    else
      var init := RecentOf(rs[..|rs| - 1], cutoff);
      assert rs == rs[..|rs| - 1] + [rs[|rs| - 1]];
      if rs[|rs| - 1].createdAt >= cutoff then init + [rs[|rs| - 1]] else init
  }

  /** The rows created on day d. */
  function DayTotal(rs: seq<StoredAnalysis>, d: int): (n: nat)
    ensures n <= |rs|
  {
    if rs == [] then 0 else DayTotal(rs[..|rs| - 1], d) + (if Day(rs[|rs| - 1].createdAt) == d then 1 else 0)
  }

  /** The AI rows created on day d. */
  function DayAi(rs: seq<StoredAnalysis>, d: int): (n: nat)
    ensures n <= DayTotal(rs, d)
  {
    if rs == [] then 0
    else DayAi(rs[..|rs| - 1], d) + (if Day(rs[|rs| - 1].createdAt) == d && IsAi(rs[|rs| - 1]) then 1 else 0)
  }

  /** A tally of one day: the rows and the AI rows. */
  datatype DayBucket = DayBucket(total: nat, ai: nat)

  /** One entry of the dashboard timeline; the date as a day number. */
  datatype TimelineEntry = TimelineEntry(day: int, total: nat, aiDetected: nat, humanDetected: nat)

  /** The timeline entry of day d: its rows, its AI rows and the rest. */
  function EntryOf(rs: seq<StoredAnalysis>, d: int): (e: TimelineEntry)
    ensures e.day == d && e.total == DayTotal(rs, d) && e.aiDetected == DayAi(rs, d)
    ensures e.aiDetected + e.humanDetected == e.total
  {
    TimelineEntry(d, DayTotal(rs, d), DayAi(rs, d), DayTotal(rs, d) - DayAi(rs, d))
  }

  /** The rows created in the n days from day start. */
  function DaysSum(rs: seq<StoredAnalysis>, start: int, n: nat): nat
  {
    if n == 0 then 0 else DaysSum(rs, start, n - 1) + DayTotal(rs, start + n - 1)
  }

  /** One more row adds one to the day sum exactly when its day is in the span. */
  lemma {:induction false} DaysSumSnoc(rs: seq<StoredAnalysis>, x: StoredAnalysis, start: int, n: nat)
    ensures DaysSum(rs + [x], start, n) == DaysSum(rs, start, n) + (if start <= Day(x.createdAt) < start + n then 1 else 0)
  {
    assert (rs + [x])[..|rs + [x]| - 1] == rs;
    if n > 0 {
      DaysSumSnoc(rs, x, start, n - 1);
    }
  }

  /** When every row falls in the span of days the day totals account for all of them. */
  lemma {:induction false} DaysSumCovers(rs: seq<StoredAnalysis>, start: int, n: nat)
    requires forall i :: 0 <= i < |rs| ==> start <= Day(rs[i].createdAt) < start + n
    ensures DaysSum(rs, start, n) == |rs|
  {
    if rs != [] {
      var init := rs[..|rs| - 1];
      assert forall i :: 0 <= i < |init| ==> init[i] == rs[i];
      var x := rs[|rs| - 1];
      assert start <= Day(x.createdAt) < start + n;
      DaysSumCovers(init, start, n);
      assert rs == init + [x];
      DaysSumSnoc(init, x, start, n);
    } else {
      DaysSumOfNone(start, n);
    }
  }

  lemma {:induction false} DaysSumOfNone(start: int, n: nat)
    ensures DaysSum([], start, n) == 0
  {
    if n > 0 {
      DaysSumOfNone(start, n - 1);
    }
  }

  /** The totals of a timeline. */
  function TimelineTotal(tl: seq<TimelineEntry>): nat
  {
    if tl == [] then 0 else TimelineTotal(tl[..|tl| - 1]) + tl[|tl| - 1].total
  }

  /**
   * The dashboard timeline covers the window: when no row is newer than now, the timeline's
   * daily totals add up to the rows of the window.
   */
  lemma {:induction false} TimelineAccountsForWindow(rs: seq<StoredAnalysis>, now: int, days: int, tl: seq<TimelineEntry>)
    requires forall i :: 0 <= i < |rs| ==> rs[i].createdAt <= now
    requires TimelineOf(tl, Window(rs, now, days), Day(Cutoff(now, WindowDays(days))), WindowDays(days))
    ensures TimelineTotal(tl) == |Window(rs, now, days)|
  {
    var n := WindowDays(days);
    var cutoff := Cutoff(now, n);
    var recent := RecentOf(rs, cutoff);
    var start := Day(cutoff);
    DayShift(cutoff, n - 1);
    forall i | 0 <= i < |recent| ensures start <= Day(recent[i].createdAt) < start + n {
      assert recent[i] in recent;
      DayMonotone(cutoff, recent[i].createdAt);
      DayMonotone(recent[i].createdAt, now);
    }
    DaysSumCovers(recent, start, n);
    TimelineTotalIsDaysSum(recent, start, tl, n);
    assert tl[..n] == tl;
  }

  lemma {:induction false} TimelineTotalIsDaysSum(recent: seq<StoredAnalysis>, start: int, tl: seq<TimelineEntry>, n: nat)
    requires n <= |tl|
    requires forall i :: 0 <= i < |tl| ==> tl[i] == EntryOf(recent, start + i)
    ensures TimelineTotal(tl[..n]) == DaysSum(recent, start, n)
  {
    if n > 0 {
      TimelineTotalIsDaysSum(recent, start, tl, n - 1);
      assert tl[..n][..n - 1] == tl[..n - 1];
    }
  }

  /** `str(model)` for a truthy model prediction; a string is itself, other values render. */
  function ModelKey(model: Json, render: Json -> string): string
  {
    if model.JStr? then model.s else render(model)
  }

  /** The keys of the truthy model predictions of the rows, in row order. */
  function ModelKeys(rs: seq<StoredAnalysis>, render: Json -> string): seq<string>
  {
    if rs == [] then []
    else
      var m := Get(rs[|rs| - 1].result, PredictionKey);
      ModelKeys(rs[..|rs| - 1], render) + (if TruthySome(m) then [ModelKey(m.value, render)] else [])
  }

  /** The top five model predictions with their counts, most frequent first, ties by first sight. */
  function TopModels(rs: seq<StoredAnalysis>, render: Json -> string): seq<(string, nat)>
  {
    Take(MostCommon(CountAll(ModelKeys(rs, render))), 5)
  }

  /** At most five distinct models, each with its true count, in non-increasing order of count. */
  lemma TopModelsShape(rs: seq<StoredAnalysis>, render: Json -> string)
    ensures var top := TopModels(rs, render);
      var keys := ModelKeys(rs, render);
      |top| <= 5 && DistinctKeys(top) && CountOrdered(top)
      && (forall k :: 0 <= k < |top| ==> top[k].0 in keys && top[k].1 == Occurrences(keys, top[k].0))
  {
    var keys := ModelKeys(rs, render);
    var mc := MostCommon(CountAll(keys));
    MostCommonShape(keys);
    var top := Take(mc, 5);
    assert forall k :: 0 <= k < |top| ==> top[k] == mc[k];
  }

  datatype Alert = HighAiRate | VolumeSpike(day: int)

  /** The busiest day of a timeline, the first one among equals. */
  function PeakOf(tl: seq<TimelineEntry>): (e: TimelineEntry)
    requires tl != []
    ensures e in tl
    ensures forall k :: 0 <= k < |tl| ==> tl[k].total <= e.total
  {
    FirstMaxShape(tl, (x: TimelineEntry) => x.total as int);
    tl[FirstMax(tl, (x: TimelineEntry) => x.total as int)]
  }

  /**
   * The dashboard alerts: a high AI rate over at least 10 recent rows, and a volume spike
   * over at least 25 when the busiest day holds `max(10, int(0.35 * total))` rows or more.
   */
  function AlertsOf(totalRecent: nat, aiRate: real, tl: seq<TimelineEntry>): (a: seq<Alert>)
    requires tl != []
    ensures HighAiRate in a <==> totalRecent >= 10 && aiRate >= 0.7
    ensures (exists d :: VolumeSpike(d) in a) <==>
      totalRecent >= 25 && PeakOf(tl).total >= MaxInt(10, Trunc(totalRecent as real * 0.35))
    ensures forall d :: VolumeSpike(d) in a ==> d == PeakOf(tl).day
    ensures |a| <= 2
  {
    var high := if totalRecent >= 10 && aiRate >= 0.7 then [HighAiRate] else [];
    var peak := PeakOf(tl);
    var spike := if totalRecent >= 25 && peak.total >= MaxInt(10, Trunc(totalRecent as real * 0.35))
      then [VolumeSpike(peak.day)] else [];
    high + spike
  }

  /** The headline numbers of the dashboard window. */
  datatype Summary = Summary(totalAllTime: nat, totalWindow: nat, aiWindow: nat, humanWindow: nat,
                             aiRateWindow: real, averageConfidenceWindow: real)

  datatype DashboardData = DashboardData(
    windowDays: int,
    summary: Summary,
    byTypeWindow: TypeCounts,
    bySourceWindow: map<string, nat>,
    topModelsWindow: seq<(string, nat)>,
    timeline: seq<TimelineEntry>,
    alertsWindow: seq<Alert>)

  /** The sources of the rows, in row order. */
  function Sources(rs: seq<StoredAnalysis>): (s: seq<string>)
    ensures |s| == |rs|
    ensures forall i :: 0 <= i < |rs| ==> s[i] == rs[i].source
  {
    seq(|rs|, i requires 0 <= i < |rs| => rs[i].source)
  }

  /** The per-day tallies `get_dashboard` collects: exactly the days that have rows. */
  ghost predicate DayTallies(rs: seq<StoredAnalysis>, byDay: map<int, DayBucket>)
  {
    forall d :: (d in byDay <==> DayTotal(rs, d) > 0) && (d in byDay ==> byDay[d] == DayBucket(DayTotal(rs, d), DayAi(rs, d)))
  }

  /** The per-source counts: exactly the sources that occur, each with how often it does. */
  ghost predicate SourceTallies(rs: seq<StoredAnalysis>, bySource: map<string, nat>)
  {
    Tallies(Sources(rs), bySource)
  }

  /** The counts of a sequence: exactly its values, each with how often it occurs. */
  ghost predicate Tallies(s: seq<string>, counts: map<string, nat>)
  {
    forall k :: (k in counts <==> k in s) && (k in counts ==> counts[k] == Occurrences(s, k))
  }

  lemma SourcesSnoc(rs: seq<StoredAnalysis>, i: nat)
    requires i < |rs|
    ensures Sources(rs[..i + 1]) == Sources(rs[..i]) + [rs[i].source]
  {
    assert rs[..i + 1][..i] == rs[..i];
  }

  lemma OccurrencesSnoc(s: seq<string>, x: string, k: string)
    ensures Occurrences(s + [x], k) == Occurrences(s, k) + (if x == k then 1 else 0)
  {
    assert (s + [x])[..|s|] == s;
  }

  /** `by_type[t] += 1` */
  function Counted(c: TypeCounts, t: ContentType): TypeCounts
  {
    match t
    case TextContent => c.(text := c.text + 1)
    case ImageContent => c.(image := c.image + 1)
    case AudioContent => c.(audio := c.audio + 1)
    case VideoContent => c.(video := c.video + 1)
  }

  /** One more row: the count of its type grows by one and the others stay. */
  lemma TypeStep(rs: seq<StoredAnalysis>, i: nat)
    requires i < |rs|
    ensures TypeCountsOf(rs[..i + 1]) == Counted(TypeCountsOf(rs[..i]), rs[i].contentType)
  {
    assert rs[..i + 1][..i] == rs[..i];
  }

  /** One more row: its source's count grows by one, or the source enters with count 1. */
  lemma SourceStep(rs: seq<StoredAnalysis>, i: nat, m: map<string, nat>, m': map<string, nat>)
    requires i < |rs|
    requires SourceTallies(rs[..i], m)
    requires m' == m[rs[i].source := Lookup(m, rs[i].source, 0) + 1]
    ensures SourceTallies(rs[..i + 1], m')
  {
    SourcesSnoc(rs, i);
    TallyStep(Sources(rs[..i]), Sources(rs[..i + 1]), rs[i].source, m, m');
  }

  /** Counting one more occurrence of x in a map of occurrence counts keeps it exact. */
  lemma TallyStep(before: seq<string>, after: seq<string>, x: string, m: map<string, nat>, m': map<string, nat>)
    requires Tallies(before, m) && after == before + [x]
    requires m' == m[x := Lookup(m, x, 0) + 1]
    ensures Tallies(after, m')
  {
    forall k ensures (k in m' <==> k in before + [x]) && (k in m' ==> m'[k] == Occurrences(before + [x], k)) {
      OccurrencesSnoc(before, x, k);
    }
  }

  /** One more row: its day's tally grows by one row, and by one AI row when it is AI. */
  lemma DayStep(rs: seq<StoredAnalysis>, i: nat, m: map<int, DayBucket>, m': map<int, DayBucket>)
    requires i < |rs|
    requires DayTallies(rs[..i], m)
    requires var day := Day(rs[i].createdAt);
      var b := Lookup(m, day, DayBucket(0, 0));
      m' == m[day := DayBucket(b.total + 1, b.ai + (if IsAi(rs[i]) then 1 else 0))]
    ensures DayTallies(rs[..i + 1], m')
  {
    assert rs[..i + 1][..i] == rs[..i];
  }

  /**
   * The first loop of `get_dashboard`: per-type counts, per-source counts and per-day tallies
   * of the window's rows.
   */
  method TallyWindow(recent: seq<StoredAnalysis>)
    returns (byType: TypeCounts, bySource: map<string, nat>, byDay: map<int, DayBucket>)
    ensures byType == TypeCountsOf(recent)
    ensures SourceTallies(recent, bySource)
    ensures DayTallies(recent, byDay)
  {
    byType, bySource, byDay := TypeCounts(0, 0, 0, 0), map[], map[];
    var i := 0;
    while i < |recent|
      invariant 0 <= i <= |recent|
      invariant byType == TypeCountsOf(recent[..i])
      invariant SourceTallies(recent[..i], bySource)
      invariant DayTallies(recent[..i], byDay)
    {
      var r := recent[i];
      TypeStep(recent, i);
      byType := Counted(byType, r.contentType);
      var sources := bySource[r.source := Lookup(bySource, r.source, 0) + 1];
      SourceStep(recent, i, bySource, sources);
      bySource := sources;
      var day := Day(r.createdAt);
      var bucket := Lookup(byDay, day, DayBucket(0, 0));
      var days := byDay[day := DayBucket(bucket.total + 1, bucket.ai + (if IsAi(r) then 1 else 0))];
      DayStep(recent, i, byDay, days);
      byDay := days;
      i := i + 1;
    }
    assert recent[..i] == recent;
  }

  /** `d.get(k, default)` */
  function Lookup<K, V>(m: map<K, V>, k: K, default: V): (v: V)
    ensures k in m ==> v == m[k]
    ensures k !in m ==> v == default
  {
    if k in m then m[k] else default
  }

  /** A timeline of n entries, one per consecutive day from start, each that day's tally of the rows. */
  ghost predicate TimelineOf(tl: seq<TimelineEntry>, rs: seq<StoredAnalysis>, start: int, n: nat)
  {
    |tl| == n && forall i :: 0 <= i < n ==> tl[i] == EntryOf(rs, start + i)
  }

  /** The timeline loop: one entry per day of the window, read from the day tallies. */
  method BuildTimeline(recent: seq<StoredAnalysis>, byDay: map<int, DayBucket>, start: int, days: nat)
    returns (tl: seq<TimelineEntry>)
    requires DayTallies(recent, byDay)
    ensures TimelineOf(tl, recent, start, days)
  {
    tl := [];
    var i := 0;
    while i < days
      invariant 0 <= i <= days
      invariant TimelineOf(tl, recent, start, i)
    {
      var bucket := Lookup(byDay, start + i, DayBucket(0, 0));
      tl := tl + [TimelineEntry(start + i, bucket.total, bucket.ai, MaxInt(bucket.total - bucket.ai, 0))];
      i := i + 1;
    }
  }

  /** `now - timedelta(days=days - 1)` */
  function Cutoff(now: int, days: int): int
  {
    now - (days - 1) * DaySeconds
  }

  /** The rows of the dashboard window: created on or after the cutoff of the clamped days. */
  function Window(rs: seq<StoredAnalysis>, now: int, days: int): seq<StoredAnalysis>
  {
    RecentOf(rs, Cutoff(now, WindowDays(days)))
  }

  /** The share of AI rows rounded to three places, 0.0 for an empty window; within [0, 1]. */
  function AiRate(ai: nat, total: nat): (r: real)
    requires ai <= total
    ensures 0.0 <= r <= 1.0
    ensures total == 0 ==> r == 0.0
    ensures ai == total && total > 0 ==> r == 1.0
  {
    if total > 0 then
      RatioFacts(ai, total);
      RoundUnit(ai as real / total as real, Digits3);
      if ai == total then RoundOfInt(1, Digits3); Round(ai as real / total as real, Digits3)
      else Round(ai as real / total as real, Digits3)
    else 0.0
  }

  /**
   * The window summary: the table's rows, the window's rows split into AI and human, the AI
   * rate and the mean confidence (0.0 where a confidence does not convert; the dashboard
   * fails then).
   */
  function SummaryOf(rs: seq<StoredAnalysis>, recent: seq<StoredAnalysis>): (s: Summary)
    ensures s.totalAllTime == |rs| && s.totalWindow == |recent| && s.aiWindow == CountAi(recent)
    ensures s.aiWindow + s.humanWindow == s.totalWindow
    ensures 0.0 <= s.aiRateWindow <= 1.0
    ensures MeanConfidence(recent).Some? ==> s.averageConfidenceWindow == MeanConfidence(recent).value
  {
    var ai := CountAi(recent);
    var avg := MeanConfidence(recent);
    Summary(|rs|, |recent|, ai, |recent| - ai, AiRate(ai, |recent|), if avg.Some? then avg.value else 0.0)
  }

  /** The analysis table and its capacity. */
  class Store {
    const maxItems: int
    var records: seq<StoredAnalysis>

    /** The rows are in creation order and their ids distinct. */
    ghost predicate Valid()
      reads this
    {
      Ascending(records, CreatedAt) && IdsDistinct(records)
    }

    constructor (maxItems: int, table: seq<StoredAnalysis>)
      requires Ascending(table, CreatedAt) && IdsDistinct(table)
      ensures this.maxItems == maxItems && records == table && Valid()
    {
      this.maxItems := maxItems;
      records := table;
    }

    /**
     * `_save_result`: the row goes in at its place in creation order, then the oldest rows
     * beyond the capacity are deleted. An id the table already holds makes the insert fail.
     */
    method SaveResult(kind: ContentType, result: Json, contentHash: string, inputSize: nat, source: string,
                      sourceUrl: Option<string>, filename: Option<string>, newId: string, now: int)
      returns (r: Result<string, string>)
      requires Valid() && result.JObj?
      modifies this
      ensures Valid()
      ensures RecordById(old(records), newId).Some? ==> r.Err? && records == old(records)
      ensures RecordById(old(records), newId).None? ==>
        r == Ok(newId) &&
        records == KeepNewest(Place(NewRecord(kind, result, contentHash, inputSize, source, sourceUrl, filename, newId, now),
                                    old(records), CreatedAt), maxItems)
      ensures |records| <= MaxInt(maxItems, 0) || records == old(records)
    {
      if RecordById(records, newId).Some? {
        return Err("analysis_id already stored");
      }
      var row := NewRecord(kind, result, contentHash, inputSize, source, sourceUrl, filename, newId, now);
      PlaceAscending(row, records, CreatedAt);
      PlaceUnique(row, records, CreatedAt, AnalysisId);
      var table := Place(row, records, CreatedAt);
      var kept := KeepNewest(table, maxItems);
      SuffixKeeps(table, |table| - |kept|, CreatedAt, AnalysisId);
      records := kept;
      return Ok(newId);
    }

    /** `save_text_result`: the size is the text's length and the hash the text digest. */
    method SaveText(text: string, result: Json, source: string, sourceUrl: Option<string>, newId: string, now: int,
                    digest: string -> string)
      returns (r: Result<string, string>)
      requires Valid() && result.JObj?
      modifies this
      ensures Valid()
      ensures RecordById(old(records), newId).None? ==>
        r == Ok(newId) &&
        records == KeepNewest(Place(NewRecord(TextContent, result, digest(text), |text|, source, sourceUrl, None, newId, now),
                                    old(records), CreatedAt), maxItems)
      ensures RecordById(old(records), newId).Some? ==> r.Err? && records == old(records)
    {
      r := SaveResult(TextContent, result, digest(text), |text|, source, sourceUrl, None, newId, now);
    }

    /**
     * `save_image_result`, `save_audio_result` and `save_video_result`: the size is the byte
     * count, the hash the bytes' digest, and the filename is kept.
     */
    method SaveMedia(kind: ContentType, data: seq<bv8>, filename: string, result: Json, source: string,
                     sourceUrl: Option<string>, newId: string, now: int, digest: seq<bv8> -> string)
      returns (r: Result<string, string>)
      requires kind != TextContent
      requires Valid() && result.JObj?
      modifies this
      ensures Valid()
      ensures RecordById(old(records), newId).None? ==>
        r == Ok(newId) &&
        records == KeepNewest(Place(NewRecord(kind, result, digest(data), |data|, source, sourceUrl, Some(filename), newId, now),
                                    old(records), CreatedAt), maxItems)
      ensures RecordById(old(records), newId).Some? ==> r.Err? && records == old(records)
    {
      r := SaveResult(kind, result, digest(data), |data|, source, sourceUrl, Some(filename), newId, now);
    }

    function GetRecord(id: string): Option<StoredAnalysis>
      reads this
    {
      RecordById(records, id)
    }

    function GetHistory(limit: nat, offset: nat): (seq<HistoryItem>, nat)
      reads this
    {
      HistoryOf(records, limit, offset)
    }

    function GetStats(): Result<Stats, string>
      reads this
    {
      StatsOf(records)
    }

    /**
     * `get_dashboard(days)`: the window is the clamped number of days ending today; the
     * timeline has one entry per day, the summary splits the window into AI and human rows,
     * and a confidence `float()` rejects makes the call fail.
     */
    method GetDashboard(days: int, now: int, render: Json -> string) returns (r: Result<DashboardData, string>)
      ensures r.Ok? <==> MeanConfidence(Window(records, now, days)).Some?
      ensures r.Ok? ==> r.value.windowDays == WindowDays(days)
      ensures r.Ok? ==> TimelineOf(r.value.timeline, Window(records, now, days), Day(Cutoff(now, WindowDays(days))), WindowDays(days))
      ensures r.Ok? ==> r.value.summary == SummaryOf(records, Window(records, now, days))
      ensures r.Ok? ==> r.value.byTypeWindow == TypeCountsOf(Window(records, now, days))
      ensures r.Ok? ==> SourceTallies(Window(records, now, days), r.value.bySourceWindow)
      ensures r.Ok? ==> r.value.topModelsWindow == TopModels(Window(records, now, days), render)
      ensures r.Ok? ==> r.value.timeline != []
      ensures r.Ok? ==> r.value.alertsWindow == AlertsOf(r.value.summary.totalWindow, r.value.summary.aiRateWindow, r.value.timeline)
    {
      var n := WindowDays(days);
      var cutoff := Cutoff(now, n);
      var recent := RecentOf(records, cutoff);
      var byType, bySource, byDay := TallyWindow(recent);
      var timeline := BuildTimeline(recent, byDay, Day(cutoff), n);
      var avg := MeanConfidence(recent);
      if avg.None? {
        return Err("confidence is not a number");
      }
      var summary := SummaryOf(records, recent);
      r := Ok(DashboardData(n, summary, byType, bySource, TopModels(recent, render), timeline,
                            AlertsOf(summary.totalWindow, summary.aiRateWindow, timeline)));
    }

    /** `reset`: the table is emptied. */
    method Reset()
      modifies this
      ensures records == [] && Valid()
    {
      records := [];
    }
  }

  /** With capacity 3, five saves in time order leave the last three rows. */
  lemma FiveSavesKeepLastThree(rows: seq<StoredAnalysis>)
    requires |rows| == 5 && Ascending(rows, CreatedAt)
    ensures SaveAll(rows, 3, CreatedAt) == rows[2..]
  {
    SaveAllKeepsNewest(rows, 3, CreatedAt);
  }
}
