// `EvaluationStore.get_summary` (backend/app/services/evaluation_store.py): the calibration
// reports inside the window, in time order, counted and summarized per content type, with an
// alert for each type whose F1 dropped by more than 0.1 between its last two reports.

module EvaluationStore {
  import opened Common
  import opened Json
  import opened Collections

  /** The longest window `get_summary` accepts, in days. */
  const MaxWindowDays := 365

  /** Seconds in a day, for `timedelta(days=...)`. */
  const DaySeconds: real := 86400.0

  /** The largest F1 drop between a type's last two reports that raises no alert. */
  const F1Drop: real := 0.1

  /** `max(1, min(days, 365))` */
  function WindowDays(days: int): (w: int)
    ensures 1 <= w <= MaxWindowDays
    ensures 1 <= days <= MaxWindowDays ==> w == days
    ensures days < 1 ==> w == 1
    ensures days > MaxWindowDays ==> w == MaxWindowDays
  {
    if days < 1 then 1 else if days > MaxWindowDays then MaxWindowDays else days
  }

  /** The earliest instant a report may carry: the window's first day, counted back from now. */
  function Cutoff(now: real, windowDays: int): real
  {
    now - (windowDays - 1) as real * DaySeconds
  }

  /** A timestamp as `datetime.fromisoformat` reads it: its wall-clock seconds and UTC offset, if any. */
  datatype Stamp = Stamp(wallSeconds: real, offsetSeconds: Option<real>)

  /** The instant of a timestamp; one without an offset is read as UTC. */
  function Instant(s: Stamp): (t: real)
    ensures s.offsetSeconds.None? ==> t == s.wallSeconds
  {
    match s.offsetSeconds
    case None => s.wallSeconds
    case Some(offset) => s.wallSeconds - offset
  }

  /** `raw.replace("Z", "+00:00")` */
  function ReplaceZ(raw: string): (r: string)
    ensures 'Z' !in raw ==> r == raw
    ensures 'Z' !in r
  {
    if raw == [] then []
    else (if raw[0] == 'Z' then "+00:00" else [raw[0]]) + ReplaceZ(raw[1..])
  }

  /** The best-metrics block of a report; a key that is not there is None. */
  datatype BestMetrics = BestMetrics(precision: Option<real>, recall: Option<real>, f1: Option<real>,
                                     accuracy: Option<real>)

  /** A calibration report as decoded from its file; a key that is not there is None. */
  datatype Payload = Payload(generatedAt: Option<Json>, contentType: Option<string>, sampleCount: Option<int>,
                             recommendedThreshold: Option<real>, bestMetrics: BestMetrics)

  /** One row of the summary, the report's fields with their defaults filled in. */
  datatype Row = Row(at: real, contentType: string, sampleCount: int, recommendedThreshold: real,
                     precision: real, recall: real, f1: real, accuracy: real)

  /** An optional value, or a default. */
  function Or<T>(v: Option<T>, default: T): (r: T)
    ensures v.Some? ==> r == v.value
    ensures v.None? ==> r == default
  {
    if v.Some? then v.value else default
  }

  /** The row a report's fields give once its timestamp is read. */
  function RowFrom(p: Payload, at: real): Row
  {
    Row(at, Or(p.contentType, "unknown"), Or(p.sampleCount, 0), Or(p.recommendedThreshold, 0.5),
        Or(p.bestMetrics.precision, 0.0), Or(p.bestMetrics.recall, 0.0), Or(p.bestMetrics.f1, 0.0),
        Or(p.bestMetrics.accuracy, 0.0))
  }

  /**
   * The loop body for one file: a file that does not read or decode (None), a timestamp that
   * is not a string or does not parse, and one before the cutoff are all skipped.
   */
  function RowOf(file: Option<Payload>, cutoff: real, parse: string -> Option<Stamp>): (r: Option<Row>)
    ensures r.Some? <==>
      file.Some? && file.value.generatedAt.Some? && file.value.generatedAt.value.JStr?
      && parse(ReplaceZ(file.value.generatedAt.value.s)).Some?
      && Instant(parse(ReplaceZ(file.value.generatedAt.value.s)).value) >= cutoff
    ensures r.Some? ==> r.value.at == Instant(parse(ReplaceZ(file.value.generatedAt.value.s)).value)
    ensures r.Some? ==> r.value == RowFrom(file.value, r.value.at)
    ensures r.Some? ==> r.value.at >= cutoff
  {
    if file.None? then None
    else
      var raw := file.value.generatedAt;
      if raw.None? || !raw.value.JStr? then None
      else
        var stamp := parse(ReplaceZ(raw.value.s));
        if stamp.None? then None
        else
          var at := Instant(stamp.value);
          if at < cutoff then None else Some(RowFrom(file.value, at))
  }

  /** The rows of the admitted files, in file order. */
  function Collected(files: seq<Option<Payload>>, cutoff: real, parse: string -> Option<Stamp>): (rows: seq<Row>)
    ensures |rows| <= |files|
  {
    if files == [] then []
    else
      var r := RowOf(files[|files| - 1], cutoff, parse);
      Collected(files[..|files| - 1], cutoff, parse) + (if r.Some? then [r.value] else [])
  }

  /** A file that yields a row. */
  predicate Admitted(file: Option<Payload>, cutoff: real, parse: string -> Option<Stamp>)
  {
    RowOf(file, cutoff, parse).Some?
  }

  /** One row per admitted file, and every row inside the window. */
  lemma {:induction false} CollectedShape(files: seq<Option<Payload>>, cutoff: real, parse: string -> Option<Stamp>)
    ensures |Collected(files, cutoff, parse)| == CountAdmitted(files, cutoff, parse)
    ensures forall i :: 0 <= i < |Collected(files, cutoff, parse)| ==> Collected(files, cutoff, parse)[i].at >= cutoff
  {
    if files != [] {
      CollectedShape(files[..|files| - 1], cutoff, parse);
    }
  }

  /** The number of admitted files. */
  function CountAdmitted(files: seq<Option<Payload>>, cutoff: real, parse: string -> Option<Stamp>): nat
  {
    if files == [] then 0
    else CountAdmitted(files[..|files| - 1], cutoff, parse) + (if Admitted(files[|files| - 1], cutoff, parse) then 1 else 0)
  }

  /** `rows.sort(key=generated_at)`: earlier first, equal instants in file order. */
  function NotLater(): (le: (Row, Row) -> bool)
  {
    (a: Row, b: Row) => a.at <= b.at
  }

  /** The rows `get_summary` works on, sorted by instant. */
  function Rows(files: seq<Option<Payload>>, cutoff: real, parse: string -> Option<Stamp>): seq<Row>
  {
    SortBy(Collected(files, cutoff, parse), NotLater())
  }

  /** The sorted rows are the collected ones, in ascending time order. */
  lemma RowsSorted(files: seq<Option<Payload>>, cutoff: real, parse: string -> Option<Stamp>)
    ensures SortedBy(Rows(files, cutoff, parse), NotLater())
    ensures multiset(Rows(files, cutoff, parse)) == multiset(Collected(files, cutoff, parse))
  {
    SortBySorted(Collected(files, cutoff, parse), NotLater());
  }

  /** The rows of one content type, in order. */
  function OfType(rows: seq<Row>, t: string): seq<Row>
  {
    if rows == [] then []
    else
      var last := rows[|rows| - 1];
      OfType(rows[..|rows| - 1], t) + (if last.contentType == t then [last] else [])
  }

  /** The content types in order of first appearance, each once: the keys of the per-type dicts. */
  function TypeSeq(rows: seq<Row>): seq<string>
  {
    if rows == [] then []
    else
      var init := TypeSeq(rows[..|rows| - 1]);
      var t := rows[|rows| - 1].contentType;
      if t in init then init else init + [t]
  }

  /** Some row has the type. */
  predicate Present(rows: seq<Row>, t: string)
  {
    OfType(rows, t) != []
  }

  /** The rows of a type all have it, and a type is present once a row of it is seen. */
  lemma {:induction false} OfTypeFacts(rows: seq<Row>, t: string)
    ensures |OfType(rows, t)| <= |rows|
    ensures forall i :: 0 <= i < |OfType(rows, t)| ==> OfType(rows, t)[i].contentType == t
  {
    if rows != [] {
      OfTypeFacts(rows[..|rows| - 1], t);
    }
  }

  /** Each type is listed once, and exactly the types of the rows are listed. */
  lemma {:induction false} TypeSeqFacts(rows: seq<Row>)
    ensures Distinct(TypeSeq(rows))
    ensures forall t :: t in TypeSeq(rows) <==> Present(rows, t)
  {
    if rows != [] {
      var init := rows[..|rows| - 1];
      var t := rows[|rows| - 1].contentType;
      TypeSeqFacts(init);
      if t !in TypeSeq(init) {
        DistinctSnoc(TypeSeq(init), t);
      }
      assert Present(rows, t);
      forall u | u != t ensures Present(rows, u) == Present(init, u) {
      }
    }
  }

  /** Appending an element that is not there keeps a sequence distinct. */
  lemma DistinctSnoc(s: seq<string>, x: string)
    requires Distinct(s) && x !in s
    ensures Distinct(s + [x])
  {
    var r := s + [x];
    forall i, j | 0 <= i < j < |r| ensures r[i] != r[j] {
      if j == |s| {
        assert r[i] in s;
      } else {
        assert r[i] == s[i] && r[j] == s[j];
      }
    }
  }

  /** `by_type_counts` after the loop over the rows. */
  function TypeCounts(rows: seq<Row>): map<string, nat>
  {
    if rows == [] then map[]
    else
      var m := TypeCounts(rows[..|rows| - 1]);
      var t := rows[|rows| - 1].contentType;
      m[t := (if t in m then m[t] else 0) + 1]
  }

  /** `latest_by_type` after the loop over the rows: the last row of each type. */
  function LatestByType(rows: seq<Row>): map<string, Row>
  {
    if rows == [] then map[]
    else
      var m := LatestByType(rows[..|rows| - 1]);
      m[rows[|rows| - 1].contentType := rows[|rows| - 1]]
  }

  /** A type has a count exactly when it is present, and the count is its number of rows. */
  lemma {:induction false} TypeCountsFacts(rows: seq<Row>, t: string)
    ensures t in TypeCounts(rows) <==> Present(rows, t)
    ensures t in TypeCounts(rows) ==> TypeCounts(rows)[t] == |OfType(rows, t)|
  {
    if rows != [] {
      TypeCountsFacts(rows[..|rows| - 1], t);
    }
  }

  /** A type has a latest row exactly when it is present, and it is the last row of that type. */
  lemma {:induction false} LatestFacts(rows: seq<Row>, t: string)
    ensures t in LatestByType(rows) <==> Present(rows, t)
    ensures t in LatestByType(rows) ==> LatestByType(rows)[t] == OfType(rows, t)[|OfType(rows, t)| - 1]
  {
    if rows != [] {
      LatestFacts(rows[..|rows| - 1], t);
    }
  }

  /** The counts over some keys of a map holding them. */
  function SumOver(ks: seq<string>, m: map<string, nat>): nat
  {
    if ks == [] then 0 else SumOver(ks[..|ks| - 1], m) + (if ks[|ks| - 1] in m then m[ks[|ks| - 1]] else 0)
  }

  /** Changing the count of a key that is not summed leaves the sum as it was. */
  lemma {:induction false} SumOverOther(ks: seq<string>, m: map<string, nat>, t: string, v: nat)
    requires t !in ks
    ensures SumOver(ks, m[t := v]) == SumOver(ks, m)
  {
    if ks != [] {
      SumOverOther(ks[..|ks| - 1], m, t, v);
    }
  }

  /** Adding one to the count of a key summed once adds one to the sum. */
  lemma {:induction false} SumOverBump(ks: seq<string>, m: map<string, nat>, t: string)
    requires t in m
    requires Distinct(ks) && t in ks
    ensures SumOver(ks, m[t := m[t] + 1]) == SumOver(ks, m) + 1
  {
    var init := ks[..|ks| - 1];
    assert Distinct(init) by {
      forall i, j | 0 <= i < j < |init| ensures init[i] != init[j] {
        assert init[i] == ks[i] && init[j] == ks[j];
      }
    }
    if ks[|ks| - 1] == t {
      assert t !in init by {
        forall i | 0 <= i < |init| ensures init[i] != t {
          assert init[i] == ks[i];
        }
      }
      SumOverOther(init, m, t, m[t] + 1);
    } else {
      assert t in init by {
        var i :| 0 <= i < |ks| && ks[i] == t;
        assert init[i] == t;
      }
      SumOverBump(init, m, t);
    }
  }

  /** The per-type counts add up to the number of rows. */
  lemma {:induction false} CountsSumToTotal(rows: seq<Row>)
    ensures SumOver(TypeSeq(rows), TypeCounts(rows)) == |rows|
  {
    if rows != [] {
      var init := rows[..|rows| - 1];
      var t := rows[|rows| - 1].contentType;
      var ks := TypeSeq(init);
      var m := TypeCounts(init);
      CountsSumToTotal(init);
      TypeSeqFacts(init);
      TypeCountsFacts(init, t);
      if t in ks {
        SumOverBump(ks, m, t);
      } else {
        SumOverOther(ks, m, t, 1);
        assert TypeSeq(rows) == ks + [t];
        assert (ks + [t])[..|ks|] == ks;
      }
    }
  }

  /** In time-ordered rows a type's latest row is no older than any row of that type. */
  lemma {:induction false} LatestIsNewest(rows: seq<Row>, i: nat)
    requires SortedBy(rows, NotLater())
    requires i < |rows|
    ensures rows[i].contentType in LatestByType(rows)
      && rows[i].at <= LatestByType(rows)[rows[i].contentType].at
  {
    var n := |rows| - 1;
    var t := rows[i].contentType;
    if rows[n].contentType == t {
      if i < n {
        SortedPairwise(rows, NotLater(), i, n);
      }
    } else {
      var init := rows[..n];
      assert SortedBy(init, NotLater()) by {
        forall k | 0 <= k < |init| - 1 ensures init[k].at <= init[k + 1].at {
          assert init[k] == rows[k] && init[k + 1] == rows[k + 1];
        }
      }
      assert init[i] == rows[i];
      LatestIsNewest(init, i);
    }
  }

  /** An `f1_regression` alert for a content type, with the two F1 values it compares. */
  datatype Alert = F1Regression(contentType: string, previousF1: real, latestF1: real)

  /** A series whose last F1 is more than 0.1 below the one before it. */
  predicate F1Fell(series: seq<Row>)
  {
    |series| >= 2 && series[|series| - 1].f1 + F1Drop < series[|series| - 2].f1
  }

  /** The alert for one type's series: its last two rows, when the F1 fell by more than 0.1. */
  function AlertFor(t: string, series: seq<Row>): (a: seq<Alert>)
    ensures |a| <= 1
    ensures a != [] <==> F1Fell(series)
    ensures a != [] ==> a[0] == F1Regression(t, series[|series| - 2].f1, series[|series| - 1].f1)
  {
    if |series| < 2 then []
    else
      var previous := series[|series| - 2];
      var latest := series[|series| - 1];
      if latest.f1 + F1Drop < previous.f1 then [F1Regression(t, previous.f1, latest.f1)] else []
  }

  /** The alerts over some content types, in their order. */
  function AlertsOver(ts: seq<string>, rows: seq<Row>): seq<Alert>
  {
    if ts == [] then [] else AlertsOver(ts[..|ts| - 1], rows) + AlertFor(ts[|ts| - 1], OfType(rows, ts[|ts| - 1]))
  }

  /** The alerts `get_summary` raises over the rows. */
  function AlertsOf(rows: seq<Row>): seq<Alert>
  {
    AlertsOver(TypeSeq(rows), rows)
  }

  /** An alert names one of the content types and compares that type's last two rows. */
  lemma {:induction false} AlertsOverShape(ts: seq<string>, rows: seq<Row>)
    ensures forall a :: a in AlertsOver(ts, rows) ==>
      a.contentType in ts && a in AlertFor(a.contentType, OfType(rows, a.contentType))
  {
    if ts != [] {
      AlertsOverShape(ts[..|ts| - 1], rows);
    }
  }

  /** A content type among ts whose F1 fell gets its alert. */
  lemma {:induction false} AlertsOverRaised(ts: seq<string>, rows: seq<Row>, t: string)
    requires t in ts
    ensures AlertFor(t, OfType(rows, t)) != [] ==> AlertFor(t, OfType(rows, t))[0] in AlertsOver(ts, rows)
  {
    if ts[|ts| - 1] != t {
      var i :| 0 <= i < |ts| && ts[i] == t;
      assert ts[..|ts| - 1][i] == t;
      AlertsOverRaised(ts[..|ts| - 1], rows, t);
    }
  }

  /** Some alert names the type. */
  predicate Alerted(rows: seq<Row>, t: string)
  {
    exists a :: a in AlertsOf(rows) && a.contentType == t
  }

  /** A type is alerted exactly when its last two rows show the F1 falling by more than 0.1. */
  lemma AlertedIff(rows: seq<Row>, t: string)
    ensures Alerted(rows, t) <==> F1Fell(OfType(rows, t))
  {
    var s := OfType(rows, t);
    AlertsOverShape(TypeSeq(rows), rows);
    if F1Fell(s) {
      TypeSeqFacts(rows);
      assert Present(rows, t);
      AlertsOverRaised(TypeSeq(rows), rows, t);
      assert AlertFor(t, s)[0].contentType == t;
    }
  }

  /** An alert carries the previous and the latest F1 of its type's series. */
  lemma AlertValues(rows: seq<Row>, a: Alert)
    requires a in AlertsOf(rows)
    ensures var s := OfType(rows, a.contentType);
      F1Fell(s) && a == F1Regression(a.contentType, s[|s| - 2].f1, s[|s| - 1].f1)
  {
    AlertsOverShape(TypeSeq(rows), rows);
  }

  /** What `get_summary` returns; a trend entry is its row (its date text is left out). */
  datatype Summary = Summary(windowDays: int, totalReports: nat, byContentType: map<string, nat>,
                             latestByContentType: map<string, Row>, trend: seq<Row>, alerts: seq<Alert>)

  /** The summary over the rows in time order. */
  function SummaryOf(days: int, now: real, files: seq<Option<Payload>>, parse: string -> Option<Stamp>)
    : (s: Summary)
    ensures 1 <= s.windowDays <= MaxWindowDays
    ensures s.totalReports == |s.trend|
  {
    var w := WindowDays(days);
    var rows := Rows(files, Cutoff(now, w), parse);
    Summary(w, |rows|, TypeCounts(rows), LatestByType(rows), rows, AlertsOf(rows))
  }

  /**
   * The trend holds one entry per admitted report, in ascending time order, all inside the
   * window.
   */
  lemma SummaryTrend(days: int, now: real, files: seq<Option<Payload>>, parse: string -> Option<Stamp>)
    ensures var s := SummaryOf(days, now, files, parse);
      |s.trend| == CountAdmitted(files, Cutoff(now, s.windowDays), parse)
      && SortedBy(s.trend, NotLater())
      && forall i :: 0 <= i < |s.trend| ==> s.trend[i].at >= Cutoff(now, s.windowDays)
  {
    var w := WindowDays(days);
    var cutoff := Cutoff(now, w);
    var rows := Rows(files, cutoff, parse);
    CollectedShape(files, cutoff, parse);
    RowsSorted(files, cutoff, parse);
    forall i | 0 <= i < |rows| ensures rows[i].at >= cutoff {
      assert rows[i] in multiset(Collected(files, cutoff, parse));
    }
  }

  /** The per-type counts add up to the total, and the counted types are the latest ones. */
  lemma SummaryCounts(rows: seq<Row>)
    ensures SumOver(TypeSeq(rows), TypeCounts(rows)) == |rows|
    ensures TypeCounts(rows).Keys == LatestByType(rows).Keys
  {
    CountsSumToTotal(rows);
    forall t ensures t in TypeCounts(rows) <==> t in LatestByType(rows) {
      TypeCountsFacts(rows, t);
      LatestFacts(rows, t);
    }
  }

  /** In the summary, each type's latest entry is its newest report. */
  lemma SummaryLatest(days: int, now: real, files: seq<Option<Payload>>, parse: string -> Option<Stamp>)
    ensures var s := SummaryOf(days, now, files, parse);
      forall i :: 0 <= i < |s.trend| ==>
        s.trend[i].contentType in s.latestByContentType &&
        s.trend[i].at <= s.latestByContentType[s.trend[i].contentType].at
  {
    var w := WindowDays(days);
    var rows := Rows(files, Cutoff(now, w), parse);
    RowsSorted(files, Cutoff(now, w), parse);
    forall i | 0 <= i < |rows|
      ensures rows[i].contentType in LatestByType(rows) && rows[i].at <= LatestByType(rows)[rows[i].contentType].at
    {
      LatestIsNewest(rows, i);
    }
  }

  /** The loop over the report files, appending the rows of those admitted. */
  method CollectRows(files: seq<Option<Payload>>, cutoff: real, parse: string -> Option<Stamp>) returns (rows: seq<Row>)
    ensures rows == Collected(files, cutoff, parse)
  {
    rows := [];
    var i := 0;
    while i < |files|
      invariant 0 <= i <= |files|
      invariant rows == Collected(files[..i], cutoff, parse)
    {
      assert files[..i + 1][..i] == files[..i];
      var r := RowOf(files[i], cutoff, parse);
      if r.Some? {
        rows := rows + [r.value];
      }
      i := i + 1;
    }
    assert files[..i] == files;
  }

  /** The loop filling `by_type_counts` and `latest_by_type`. */
  method TallyTypes(rows: seq<Row>) returns (counts: map<string, nat>, latest: map<string, Row>)
    ensures counts == TypeCounts(rows)
    ensures latest == LatestByType(rows)
  {
    counts := map[];
    latest := map[];
    var i := 0;
    while i < |rows|
      invariant 0 <= i <= |rows|
      invariant counts == TypeCounts(rows[..i])
      invariant latest == LatestByType(rows[..i])
    {
      assert rows[..i + 1][..i] == rows[..i];
      var t := rows[i].contentType;
      counts := counts[t := (if t in counts then counts[t] else 0) + 1];
      latest := latest[t := rows[i]];
      i := i + 1;
    }
    assert rows[..i] == rows;
  }

  /** The per-type series so far: each key seen, in order, with the rows of its type. */
  ghost predicate SeriesOf(order: seq<string>, series: map<string, seq<Row>>, rows: seq<Row>)
  {
    order == TypeSeq(rows)
    && (forall t :: t in series <==> t in order)
    && (forall t :: t in series ==> series[t] == OfType(rows, t))
  }

  /** The series grow by one row, under its type. */
  lemma SeriesStep(order: seq<string>, series: map<string, seq<Row>>, rows: seq<Row>, i: nat)
    requires i < |rows|
    requires SeriesOf(order, series, rows[..i])
    ensures var t := rows[i].contentType;
      SeriesOf(if t in series then order else order + [t],
               series[t := (if t in series then series[t] else []) + [rows[i]]], rows[..i + 1])
  {
    var t := rows[i].contentType;
    var series' := series[t := (if t in series then series[t] else []) + [rows[i]]];
    TypeSeqSnoc(rows, i);
    TypeSeqFacts(rows[..i]);
    assert t !in series ==> OfType(rows[..i], t) == [];
    forall u | u in series' ensures series'[u] == OfType(rows[..i + 1], u) {
      OfTypeSnoc(rows, i, u);
    }
  }

  /** One more row extends the type order when its type is new. */
  lemma TypeSeqSnoc(rows: seq<Row>, i: nat)
    requires i < |rows|
    ensures TypeSeq(rows[..i + 1]) ==
      if rows[i].contentType in TypeSeq(rows[..i]) then TypeSeq(rows[..i]) else TypeSeq(rows[..i]) + [rows[i].contentType]
  {
    assert rows[..i + 1][..i] == rows[..i];
  }

  /** One more row joins the rows of its own type and no other. */
  lemma OfTypeSnoc(rows: seq<Row>, i: nat, u: string)
    requires i < |rows|
    ensures OfType(rows[..i + 1], u) == OfType(rows[..i], u) + (if rows[i].contentType == u then [rows[i]] else [])
  {
    assert rows[..i + 1][..i] == rows[..i];
  }

  /** `by_type_series.setdefault(type, []).append(row)` over the rows. */
  method GroupSeries(rows: seq<Row>) returns (order: seq<string>, series: map<string, seq<Row>>)
    ensures SeriesOf(order, series, rows)
  {
    order := [];
    series := map[];
    var i := 0;
    while i < |rows|
      invariant 0 <= i <= |rows|
      invariant SeriesOf(order, series, rows[..i])
    {
      SeriesStep(order, series, rows, i);
      var t := rows[i].contentType;
      if t !in series {
        order := order + [t];
      }
      series := series[t := (if t in series then series[t] else []) + [rows[i]]];
      i := i + 1;
    }
    assert rows[..i] == rows;
  }

  /** The loop over the series, in key order, raising the F1 alerts. */
  method RaiseAlerts(order: seq<string>, series: map<string, seq<Row>>, ghost rows: seq<Row>) returns (alerts: seq<Alert>)
    requires SeriesOf(order, series, rows)
    ensures alerts == AlertsOf(rows)
  {
    alerts := [];
    var i := 0;
    while i < |order|
      invariant 0 <= i <= |order|
      invariant alerts == AlertsOver(order[..i], rows)
    {
      assert order[..i + 1][..i] == order[..i];
      var s := series[order[i]];
      if |s| >= 2 && s[|s| - 1].f1 + F1Drop < s[|s| - 2].f1 {
        alerts := alerts + [F1Regression(order[i], s[|s| - 2].f1, s[|s| - 1].f1)];
      }
      i := i + 1;
    }
    assert order[..i] == order;
  }

  /** `get_summary(days)` over the report files, in path order, at the instant `now`. */
  method GetSummary(days: int, now: real, files: seq<Option<Payload>>, parse: string -> Option<Stamp>)
    returns (summary: Summary)
    ensures summary == SummaryOf(days, now, files, parse)
  {
    var w := WindowDays(days);
    var cutoff := Cutoff(now, w);
    var rows := CollectRows(files, cutoff, parse);
    rows := SortBy(rows, NotLater());
    var counts, latest := TallyTypes(rows);
    var order, series := GroupSeries(rows);
    var alerts := RaiseAlerts(order, series, rows);
    summary := Summary(w, |rows|, counts, latest, rows, alerts);
  }
}
