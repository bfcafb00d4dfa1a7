// The cost-governance snapshot (scripts/cost_governance_snapshot.py): GitHub Actions runs
// summarised by conclusion and by workflow, Vercel deployments counted, and threshold alerts
// raised on both. Fetching the runs and deployments is left out: they are inputs.

module CostGovernance {
  import opened Common
  import opened Text
  import opened Tables
  import opened Collections
  import opened Numerals
  import opened OpsReports

  // ---------------------------------------------------------------------------------------
  // `_summarize_github`: the loop over the runs
  // ---------------------------------------------------------------------------------------

  /** One `by_workflow` entry while the loop runs. */
  datatype Workflow = Workflow(workflow: string, runs: nat, failedRuns: nat, runtimeMinutes: real)

  /** The position of the entry for name, or -1 before `setdefault` creates it. */
  function RowIndex(rows: seq<Workflow>, name: string): (i: int)
    ensures -1 <= i < |rows|
    ensures i >= 0 ==> rows[i].workflow == name
    ensures i == -1 ==> forall k :: 0 <= k < |rows| ==> rows[k].workflow != name
  {
    if rows == [] then -1
    else if rows[|rows| - 1].workflow == name then |rows| - 1
    else RowIndex(rows[..|rows| - 1], name)
  }

  /** The entry for name, or the empty one `setdefault` would create. */
  function EntryFor(rows: seq<Workflow>, name: string): Workflow
  {
    var i := RowIndex(rows, name);
    if i >= 0 then rows[i] else Workflow(name, 0, 0, 0.0)
  }

  /**
   * `setdefault(name, ...)`, then one more run, its runtime and, when it failed, a failure:
   * the entry for name gains exactly that, a new name is appended at the end, and every other
   * entry is left as it was.
   */
  function Record(rows: seq<Workflow>, name: string, failed: bool, runtime: real): (r: seq<Workflow>)
    ensures |r| == |rows| + (if RowIndex(rows, name) >= 0 then 0 else 1)
    ensures forall k :: 0 <= k < |rows| ==> r[k].workflow == rows[k].workflow
    ensures forall k :: 0 <= k < |rows| && rows[k].workflow != name ==> r[k] == rows[k]
    ensures var e := EntryFor(rows, name);
      EntryFor(r, name) == Workflow(name, e.runs + 1, e.failedRuns + (if failed then 1 else 0), e.runtimeMinutes + runtime)
  {
    var i := RowIndex(rows, name);
    if i >= 0 then
      var r := Bump(rows, i, failed, runtime);
      RowIndexSameNames(rows, r, name);
      r
    else
      var r := Bump(rows + [Workflow(name, 0, 0, 0.0)], |rows|, failed, runtime);
      r
  }

  /** Entries under the same names, in the same order, have the entry for a name at the same place. */
  lemma {:induction false} RowIndexSameNames(a: seq<Workflow>, b: seq<Workflow>, name: string)
    requires |a| == |b| && forall k :: 0 <= k < |a| ==> a[k].workflow == b[k].workflow
    ensures RowIndex(a, name) == RowIndex(b, name)
    decreases |a|
  {
    if a != [] {
      RowIndexSameNames(a[..|a| - 1], b[..|b| - 1], name);
    }
  }

  /** Entry k with one more run, its runtime and, when it failed, one more failure. */
  function Bump(rows: seq<Workflow>, k: nat, failed: bool, runtime: real): seq<Workflow>
    requires k < |rows|
  {
    var e := rows[k];
    rows[k := Workflow(e.workflow, e.runs + 1, e.failedRuns + (if failed then 1 else 0), e.runtimeMinutes + runtime)]
  }

  /** The counters and the workflow entries after some runs. */
  datatype Totals = Totals(success: nat, failed: nat, cancelled: nat, other: nat, runtime: real, rows: seq<Workflow>)

  /** `str(run.get("name") or "unknown")` */
  function NameOf(run: Run): string { OrDefault(run.name, "unknown") }

  /** `str(run.get("conclusion") or "unknown")` */
  function ConclusionOf(run: Run): string { OrDefault(run.conclusion, "unknown") }

  /** The counter of a conclusion class. */
  function ClassTotal(t: Totals, c: ConclusionClass): nat
  {
    match c
    case Succeeded => t.success
    case Failed => t.failed
    case Cancelled => t.cancelled
    case Other => t.other
  }

  /**
   * One run through the loop body: the run's conclusion class gains one and no other class
   * changes, its runtime is added, and it is recorded under its workflow name.
   */
  function Step(t: Totals, run: Run, seconds: string -> real): (r: Totals)
    ensures forall c :: ClassTotal(r, c) == ClassTotal(t, c) + (if c == Classify(ConclusionOf(run)) then 1 else 0)
    ensures r.runtime == t.runtime + DurationMinutes(run, seconds)
    ensures r.rows == Record(t.rows, NameOf(run), Classify(ConclusionOf(run)) == Failed, DurationMinutes(run, seconds))
  {
    var runtime := DurationMinutes(run, seconds);
    var c := Classify(ConclusionOf(run));
    Totals(t.success + (if c == Succeeded then 1 else 0), t.failed + (if c == Failed then 1 else 0),
           t.cancelled + (if c == Cancelled then 1 else 0), t.other + (if c == Other then 1 else 0),
           t.runtime + runtime, Record(t.rows, NameOf(run), c == Failed, runtime))
  }

  function TotalsOf(runs: seq<Run>, seconds: string -> real): Totals
  {
    if runs == [] then Totals(0, 0, 0, 0, 0.0, [])
    else Step(TotalsOf(runs[..|runs| - 1], seconds), runs[|runs| - 1], seconds)
  }

  /** The runs of the entries, added up. */
  function SumRuns(rows: seq<Workflow>): nat
  {
    if rows == [] then 0 else rows[0].runs + SumRuns(rows[1..])
  }

  lemma {:induction false} SumRunsUpdate(rows: seq<Workflow>, k: nat, x: Workflow)
    requires k < |rows|
    ensures SumRuns(rows[k := x]) + rows[k].runs == SumRuns(rows) + x.runs
  {
    if k > 0 {
      SumRunsUpdate(rows[1..], k - 1, x);
      assert rows[k := x][1..] == rows[1..][k - 1 := x];
    } else {
      assert rows[k := x][1..] == rows[1..];
    }
  }

  lemma {:induction false} SumRunsAppend(rows: seq<Workflow>, x: Workflow)
    ensures SumRuns(rows + [x]) == SumRuns(rows) + x.runs
  {
    if rows == [] {
      assert [x][1..] == [];
    } else {
      assert (rows + [x])[1..] == rows[1..] + [x];
      SumRunsAppend(rows[1..], x);
    }
  }

  /** Distinct workflow names, every entry with at least one run, no more failures than runs, no negative time. */
  predicate WellFormed(rows: seq<Workflow>)
  {
    (forall i, j :: 0 <= i < j < |rows| ==> rows[i].workflow != rows[j].workflow)
    && (forall i :: 0 <= i < |rows| ==> 1 <= rows[i].runs && rows[i].failedRuns <= rows[i].runs)
    && (forall i :: 0 <= i < |rows| ==> rows[i].runtimeMinutes >= 0.0)
  }

  /** Bumping one entry of well-formed entries, under its own name, keeps them well formed. */
  lemma {:induction false} BumpFacts(rows: seq<Workflow>, k: nat, failed: bool, runtime: real)
    requires k < |rows| && runtime >= 0.0
    requires WellFormed(rows[k := rows[k].(runs := 1, failedRuns := 0)])
    requires rows[k].failedRuns <= rows[k].runs && rows[k].runtimeMinutes >= 0.0
    ensures WellFormed(Bump(rows, k, failed, runtime)) && SumRuns(Bump(rows, k, failed, runtime)) == SumRuns(rows) + 1
  {
    var e := rows[k];
    var x := Workflow(e.workflow, e.runs + 1, e.failedRuns + (if failed then 1 else 0), e.runtimeMinutes + runtime);
    SumRunsUpdate(rows, k, x);
    var before := rows[k := rows[k].(runs := 1, failedRuns := 0)];
    var after := rows[k := x];
    assert after == Bump(rows, k, failed, runtime);
    forall i | 0 <= i < |rows|
      ensures after[i].workflow == before[i].workflow
      ensures 1 <= after[i].runs && after[i].failedRuns <= after[i].runs && after[i].runtimeMinutes >= 0.0
    {
      if i != k {
        assert after[i] == before[i];
      }
    }
  }

  /** Resetting an entry's counts to one clean run keeps well-formed entries well formed. */
  lemma ResetKeepsWellFormed(rows: seq<Workflow>, k: nat)
    requires k < |rows| && WellFormed(rows)
    ensures WellFormed(rows[k := rows[k].(runs := 1, failedRuns := 0)])
  {
    var after := rows[k := rows[k].(runs := 1, failedRuns := 0)];
    assert forall i :: 0 <= i < |rows| ==> after[i].workflow == rows[i].workflow;
  }

  /** An entry with one clean run under a new name keeps well-formed entries well formed. */
  lemma FreshKeepsWellFormed(rows: seq<Workflow>, name: string)
    requires WellFormed(rows)
    requires forall k :: 0 <= k < |rows| ==> rows[k].workflow != name
    ensures WellFormed(rows + [Workflow(name, 1, 0, 0.0)])
  {
  }

  /** Recording a run keeps the entries well formed and adds one run to their total. */
  lemma RecordFacts(rows: seq<Workflow>, name: string, failed: bool, runtime: real)
    requires WellFormed(rows) && runtime >= 0.0
    ensures WellFormed(Record(rows, name, failed, runtime))
    ensures SumRuns(Record(rows, name, failed, runtime)) == SumRuns(rows) + 1
  {
    var i := RowIndex(rows, name);
    if i >= 0 {
      ResetKeepsWellFormed(rows, i);
      BumpFacts(rows, i, failed, runtime);
    } else {
      var rows' := rows + [Workflow(name, 0, 0, 0.0)];
      SumRunsAppend(rows, Workflow(name, 0, 0, 0.0));
      FreshKeepsWellFormed(rows, name);
      assert rows'[|rows| := rows'[|rows|].(runs := 1, failedRuns := 0)] == rows + [Workflow(name, 1, 0, 0.0)];
      BumpFacts(rows', |rows|, failed, runtime);
    }
  }

  /** The runs whose conclusion falls in class c. */
  function InClass(c: ConclusionClass): Run -> bool
  {
    (run: Run) => Classify(ConclusionOf(run)) == c
  }

  /** How many runs have a conclusion in class c. */
  function ClassCount(runs: seq<Run>, c: ConclusionClass): nat
  {
    |Filter(runs, InClass(c))|
  }

  /** Each conclusion counter holds the number of runs of its class. */
  lemma {:induction false} ClassTotalCounts(runs: seq<Run>, seconds: string -> real, c: ConclusionClass)
    ensures ClassTotal(TotalsOf(runs, seconds), c) == ClassCount(runs, c)
  {
    if runs != [] {
      var init := runs[..|runs| - 1];
      var run := runs[|runs| - 1];
      var one := if Classify(ConclusionOf(run)) == c then 1 else 0;
      assert ClassCount(runs, c) == ClassCount(init, c) + one by {
        assert runs == init + [run];
        FilterAppend(init, run, InClass(c));
      }
      assert ClassTotal(TotalsOf(runs, seconds), c) == ClassTotal(TotalsOf(init, seconds), c) + one by {
        StepClassTotal(TotalsOf(init, seconds), run, seconds, c);
      }
      ClassTotalCounts(init, seconds, c);
    }
  }

  lemma StepClassTotal(t: Totals, run: Run, seconds: string -> real, c: ConclusionClass)
    ensures ClassTotal(Step(t, run, seconds), c) == ClassTotal(t, c) + (if Classify(ConclusionOf(run)) == c then 1 else 0)
  {
  }

  /**
   * Every run lands in exactly one conclusion bucket and in exactly one workflow entry: each
   * bucket holds the runs of its class, and the buckets and the entries' run counts both add
   * up to the number of runs.
   */
  lemma {:induction false} TotalsFacts(runs: seq<Run>, seconds: string -> real)
    ensures var t := TotalsOf(runs, seconds);
      t.success == ClassCount(runs, Succeeded) && t.failed == ClassCount(runs, Failed) &&
      t.cancelled == ClassCount(runs, Cancelled) && t.other == ClassCount(runs, Other)
    ensures var t := TotalsOf(runs, seconds);
      t.success + t.failed + t.cancelled + t.other == |runs| &&
      SumRuns(t.rows) == |runs| && WellFormed(t.rows) && t.runtime >= 0.0 && t.failed <= |runs|
  {
    ClassTotalCounts(runs, seconds, Succeeded);
    ClassTotalCounts(runs, seconds, Failed);
    ClassTotalCounts(runs, seconds, Cancelled);
    ClassTotalCounts(runs, seconds, Other);
    TotalsShape(runs, seconds);
  }

  /** The buckets and the entries' run counts both add up to the number of runs. */
  lemma {:induction false} TotalsShape(runs: seq<Run>, seconds: string -> real)
    ensures var t := TotalsOf(runs, seconds);
      t.success + t.failed + t.cancelled + t.other == |runs| &&
      SumRuns(t.rows) == |runs| && WellFormed(t.rows) && t.runtime >= 0.0 && t.failed <= |runs|
  {
    if runs != [] {
      var init := runs[..|runs| - 1];
      TotalsShape(init, seconds);
      var run := runs[|runs| - 1];
      RecordFacts(TotalsOf(init, seconds).rows, NameOf(run), Classify(ConclusionOf(run)) == Failed,
                  DurationMinutes(run, seconds));
    }
  }

  // ---------------------------------------------------------------------------------------
  // `_summarize_github`: the summary
  // ---------------------------------------------------------------------------------------

  /** A reported workflow row: its figures rounded, with its failure rate. */
  datatype WorkflowRow = WorkflowRow(workflow: string, runs: nat, failedRuns: nat, failureRate: real, runtimeMinutes: real)

  datatype GithubSummary = GithubSummary(totalRuns: nat, successRuns: nat, failedRuns: nat, cancelledRuns: nat,
                                         otherRuns: nat, failureRate: real, totalRuntimeMinutes: real,
                                         workflows: seq<WorkflowRow>)

  const MaxWorkflows: nat := 12

  /** The order of `sort(key=runtime_minutes, reverse=True)`: a may precede b. */
  function Slower(a: Workflow, b: Workflow): bool
  {
    a.runtimeMinutes >= b.runtimeMinutes
  }

  /** `failure_rate = round(failed_runs / (runs or 1), 4)` and the runtime rounded to two decimals. */
  function Finish(w: Workflow): (r: WorkflowRow)
    ensures r.workflow == w.workflow && r.runs == w.runs && r.failedRuns == w.failedRuns
    ensures r.runtimeMinutes == Round(w.runtimeMinutes, Digits2)
    ensures w.failedRuns <= w.runs ==> 0.0 <= r.failureRate <= 1.0
  {
    var runs := if w.runs == 0 then 1 else w.runs;
    RateOfRows(w.failedRuns, runs);
    WorkflowRow(w.workflow, w.runs, w.failedRuns, Round(SafeDiv(w.failedRuns as real, runs as real), Digits4),
                Round(w.runtimeMinutes, Digits2))
  }

  /** A count out of a larger positive count, as a rate rounded to four decimals, is in [0, 1]. */
  lemma RateOfRows(failed: nat, runs: nat)
    requires runs > 0
    ensures failed <= runs ==> 0.0 <= Round(SafeDiv(failed as real, runs as real), Digits4) <= 1.0
  {
    if failed <= runs {
      RatioFacts(failed, runs);
      RoundUnit(failed as real / runs as real, Digits4);
    }
  }

  function FinishAll(rows: seq<Workflow>): (r: seq<WorkflowRow>)
    ensures |r| == |rows|
    ensures forall i :: 0 <= i < |rows| ==> r[i] == Finish(rows[i])
  {
    seq(|rows|, i requires 0 <= i < |rows| => Finish(rows[i]))
  }

  /** The overall failure rate `round(failed / (total or 1), 4)`. */
  function FailureRateOf(failed: nat, total: nat): (rate: real)
    requires failed <= total
    ensures 0.0 <= rate <= 1.0
    ensures total == 0 ==> rate == 0.0
  {
    var denominator := if total == 0 then 1 else total;
    RatioFacts(failed, denominator);
    RoundUnit(failed as real / denominator as real, Digits4);
    RoundOfInt(0, Digits4);
    Round(SafeDiv(failed as real, denominator as real), Digits4)
  }

  /** `_summarize_github` */
  function SummaryOf(runs: seq<Run>, seconds: string -> real): (s: GithubSummary)
    ensures s.totalRuns == |runs|
    ensures s.successRuns + s.failedRuns + s.cancelledRuns + s.otherRuns == s.totalRuns
    ensures 0.0 <= s.failureRate <= 1.0
    ensures |s.workflows| <= MaxWorkflows
  {
    var t := TotalsOf(runs, seconds);
    TotalsFacts(runs, seconds);
    GithubSummary(|runs|, t.success, t.failed, t.cancelled, t.other, FailureRateOf(t.failed, |runs|),
                  Round(t.runtime, Digits2), Reported(t.rows))
  }

  lemma {:induction false} SumRunsInsert(x: Workflow, s: seq<Workflow>)
    ensures SumRuns(Insert(x, s, Slower)) == x.runs + SumRuns(s)
  {
    if s != [] && !Slower(x, s[0]) {
      SumRunsInsert(x, s[1..]);
      assert Insert(x, s, Slower)[1..] == Insert(x, s[1..], Slower);
    } else if s != [] {
      assert ([x] + s)[1..] == s;
    }
  }

  lemma {:induction false} SumRunsSortBy(s: seq<Workflow>)
    ensures SumRuns(SortBy(s, Slower)) == SumRuns(s)
  {
    if s != [] {
      SumRunsSortBy(s[1..]);
      SumRunsInsert(s[0], SortBy(s[1..], Slower));
    }
  }

  /**
   * The reported rows of any entries: `FinishAll` of the slowest first, cut to twelve. As
   * many rows as entries, up to twelve, each the finished form of one of the entries.
   */
  function Reported(rows: seq<Workflow>): (w: seq<WorkflowRow>)
    ensures |w| == if |rows| < MaxWorkflows then |rows| else MaxWorkflows
    ensures forall i :: 0 <= i < |w| ==> exists k :: 0 <= k < |rows| && w[i] == Finish(rows[k])
  {
    var sorted := SortBy(rows, Slower);
    var w := Take(FinishAll(sorted), MaxWorkflows);
    FinishedFrom(rows, sorted, w);
    w
  }

  /** A prefix of the finished sorted entries holds only finished entries. */
  lemma FinishedFrom(rows: seq<Workflow>, sorted: seq<Workflow>, w: seq<WorkflowRow>)
    requires sorted == SortBy(rows, Slower) && |w| <= |sorted| && w == FinishAll(sorted)[..|w|]
    ensures forall i :: 0 <= i < |w| ==> exists k :: 0 <= k < |rows| && w[i] == Finish(rows[k])
  {
    forall i | 0 <= i < |w| ensures exists k :: 0 <= k < |rows| && w[i] == Finish(rows[k]) {
      assert sorted[i] in multiset(rows);
      var k :| 0 <= k < |rows| && rows[k] == sorted[i];
      assert w[i] == Finish(rows[k]);
    }
  }

  lemma ReportedOrdered(rows: seq<Workflow>)
    ensures var w := Reported(rows);
      forall i, j :: 0 <= i < j < |w| ==> w[i].runtimeMinutes >= w[j].runtimeMinutes
  {
    var sorted := SortBy(rows, Slower);
    assert Total(Slower) && Transitive(Slower);
    SortBySorted(rows, Slower);
    var w := Reported(rows);
    forall i, j | 0 <= i < j < |w| ensures w[i].runtimeMinutes >= w[j].runtimeMinutes {
      SortedPairwise(sorted, Slower, i, j);
      RoundMonotone(sorted[j].runtimeMinutes, sorted[i].runtimeMinutes, Digits2);
    }
  }

  lemma ReportedRates(rows: seq<Workflow>)
    requires WellFormed(rows)
    ensures var w := Reported(rows);
      forall i :: 0 <= i < |w| ==> 0.0 <= w[i].failureRate <= 1.0 && w[i].failedRuns <= w[i].runs
  {
    var sorted := SortBy(rows, Slower);
    var w := Reported(rows);
    forall i | 0 <= i < |w| ensures 0.0 <= w[i].failureRate <= 1.0 && w[i].failedRuns <= w[i].runs {
      assert sorted[i] in multiset(rows);
    }
  }

  /**
   * The reported workflows are the slowest ones, slowest first, each with a failure rate in
   * [0, 1]; before the cut to twelve, the workflows' runs add up to the total.
   */
  lemma WorkflowsFacts(runs: seq<Run>, seconds: string -> real)
    ensures var s := SummaryOf(runs, seconds); var w := s.workflows;
      (forall i, j :: 0 <= i < j < |w| ==> w[i].runtimeMinutes >= w[j].runtimeMinutes) &&
      (forall i :: 0 <= i < |w| ==> 0.0 <= w[i].failureRate <= 1.0 && w[i].failedRuns <= w[i].runs)
    ensures SumRuns(SortBy(TotalsOf(runs, seconds).rows, Slower)) == |runs|
  {
    var t := TotalsOf(runs, seconds);
    TotalsFacts(runs, seconds);
    SumRunsSortBy(t.rows);
    assert SummaryOf(runs, seconds).workflows == Reported(t.rows);
    ReportedOrdered(t.rows);
    ReportedRates(t.rows);
  }

  /** No runs: nothing counted, a zero failure rate and no workflow rows. */
  lemma NoRunsSummary(seconds: string -> real)
    ensures var s := SummaryOf([], seconds);
      s.totalRuns == 0 && s.failedRuns == 0 && s.failureRate == 0.0 && s.workflows == []
  {
  }

  lemma TotalsSnoc(runs: seq<Run>, i: nat, seconds: string -> real)
    requires i < |runs|
    ensures TotalsOf(runs[..i + 1], seconds) == Step(TotalsOf(runs[..i], seconds), runs[i], seconds)
  {
    assert runs[..i + 1][..i] == runs[..i];
  }

  /** `setdefault` on `by_workflow`, then the entry's counters for one more run. */
  method RecordRun(byWorkflow: seq<Workflow>, name: string, failed: bool, runtime: real) returns (rows: seq<Workflow>)
    ensures rows == Record(byWorkflow, name, failed, runtime)
  {
    rows := byWorkflow;
    var k := RowIndex(rows, name);
    if k < 0 {
      rows := rows + [Workflow(name, 0, 0, 0.0)];
      k := |rows| - 1;
    }
    var entry := rows[k];
    entry := entry.(runs := entry.runs + 1, runtimeMinutes := entry.runtimeMinutes + runtime);
    if failed {
      entry := entry.(failedRuns := entry.failedRuns + 1);
    }
    rows := rows[k := entry];
  }

  /** One pass of the loop body: the conclusion's counter, the runtime, and the workflow's entry. */
  method StepRun(t: Totals, run: Run, seconds: string -> real) returns (t': Totals)
    ensures t' == Step(t, run, seconds)
  {
    var name := OrDefault(run.name, "unknown");
    var conclusion := OrDefault(run.conclusion, "unknown");
    var runtime := DurationMinutes(run, seconds);
    var success, failed, cancelled, other := t.success, t.failed, t.cancelled, t.other;
    var isFailure := conclusion in {"failure", "timed_out", "action_required"};
    if conclusion == "success" {
      success := success + 1;
    } else if isFailure {
      failed := failed + 1;
    } else if conclusion in {"cancelled", "skipped"} {
      cancelled := cancelled + 1;
    } else {
      other := other + 1;
    }
    var rows := RecordRun(t.rows, name, isFailure, runtime);
    t' := Totals(success, failed, cancelled, other, t.runtime + runtime, rows);
  }

  /** The loop of `_summarize_github`, filling the counters and `by_workflow`. */
  method TallyRuns(runs: seq<Run>, seconds: string -> real) returns (t: Totals)
    ensures t == TotalsOf(runs, seconds)
  {
    t := Totals(0, 0, 0, 0, 0.0, []);
    for r := 0 to |runs|
      invariant t == TotalsOf(runs[..r], seconds)
    {
      TotalsSnoc(runs, r, seconds);
      t := StepRun(t, runs[r], seconds);
    }
    assert runs[..|runs|] == runs;
  }

  /** The rows of the summary, each rounded and given its failure rate. */
  method FinishRows(rows: seq<Workflow>) returns (finished: seq<WorkflowRow>)
    ensures finished == FinishAll(rows)
  {
    finished := [];
    for i := 0 to |rows|
      invariant |finished| == i
      invariant forall k :: 0 <= k < i ==> finished[k] == Finish(rows[k])
    {
      finished := finished + [Finish(rows[i])];
    }
  }

  /** `_summarize_github` */
  method SummarizeGithub(runs: seq<Run>, seconds: string -> real) returns (s: GithubSummary)
    ensures s == SummaryOf(runs, seconds)
  {
    var t := TallyRuns(runs, seconds);
    TotalsFacts(runs, seconds);
    var rows := SortBy(t.rows, Slower);
    var finished := FinishRows(rows);
    s := GithubSummary(|runs|, t.success, t.failed, t.cancelled, t.other, FailureRateOf(t.failed, |runs|),
                       Round(t.runtime, Digits2), Take(finished, MaxWorkflows));
  }

  // ---------------------------------------------------------------------------------------
  // `_fetch_vercel_summary`
  // ---------------------------------------------------------------------------------------

  /** A listed deployment: a dict with its optional `readyState` and `target`, or something else. */
  datatype Deployment = NotADict | Deployment(readyState: Option<string>, target: Option<string>)

  /** What the deployments request gives back. */
  datatype VercelResponse =
    | HttpError(code: int, body: string)
    | RequestError(message: string)
    | Payload(deployments: Option<seq<Deployment>>)

  datatype VercelSummary = VercelSummary(status: string, reason: string, error: string, totalDeployments: nat,
                                         failedDeployments: nat, productionDeployments: nat)

  /** A non-empty ready state other than ready or succeeded, in any case. */
  predicate FailedState(state: string)
  {
    state != "" && Lower(state) != "ready" && Lower(state) != "succeeded"
  }

  /** Failure is read case-insensitively. */
  lemma FailedStateIgnoresCase(state: string)
    ensures FailedState(Lower(state)) == FailedState(state)
  {
    LowerIdempotent(state);
  }

  predicate FailedDeployment(d: Deployment)
  {
    d.Deployment? && FailedState(OrDefault(d.readyState, ""))
  }

  predicate ProductionDeployment(d: Deployment)
  {
    d.Deployment? && OrDefault(d.target, "") == "production"
  }

  /** The counting loop over the deployments. */
  method CountDeployments(deployments: seq<Deployment>) returns (failed: nat, production: nat)
    ensures failed == CountIf(deployments, FailedDeployment)
    ensures production == CountIf(deployments, ProductionDeployment)
  {
    failed, production := 0, 0;
    for i := 0 to |deployments|
      invariant failed == CountIf(deployments[..i], FailedDeployment)
      invariant production == CountIf(deployments[..i], ProductionDeployment)
    {
      CountIfSnoc(deployments, i, FailedDeployment);
      CountIfSnoc(deployments, i, ProductionDeployment);
      var dep := deployments[i];
      if !dep.Deployment? {
        continue;
      }
      var state := OrDefault(dep.readyState, "");
      var target := OrDefault(dep.target, "");
      if state != "" && Lower(state) != "ready" && Lower(state) != "succeeded" {
        failed := failed + 1;
      }
      if target == "production" {
        production := production + 1;
      }
    }
    assert deployments[..|deployments|] == deployments;
  }

  /** The summary without a token or project, or after the request. */
  function VercelSummaryOf(token: string, projectId: string, response: VercelResponse): (v: VercelSummary)
    ensures token == "" || projectId == "" ==>
      v == VercelSummary("unavailable", "missing_token_or_project", "", 0, 0, 0)
    ensures v.status == "ok" <==> token != "" && projectId != "" && response.Payload?
    ensures v.status != "ok" ==> v.totalDeployments == 0 && v.failedDeployments == 0 && v.productionDeployments == 0
    ensures v.failedDeployments <= v.totalDeployments && v.productionDeployments <= v.totalDeployments
  {
    if token == "" || projectId == "" then VercelSummary("unavailable", "missing_token_or_project", "", 0, 0, 0)
    else
      match response
      case HttpError(code, body) => VercelSummary("error", "http_" + IntToString(code), Take(body, 300), 0, 0, 0)
      case RequestError(message) => VercelSummary("error", "request_error", message, 0, 0, 0)
      case Payload(listed) =>
        var deployments := if listed.Some? then listed.value else [];
        VercelSummary("ok", "", "", |deployments|, CountIf(deployments, FailedDeployment),
                      CountIf(deployments, ProductionDeployment))
  }

  /** `_fetch_vercel_summary` once the response is in. */
  method FetchVercelSummary(token: string, projectId: string, response: VercelResponse) returns (v: VercelSummary)
    ensures v == VercelSummaryOf(token, projectId, response)
  {
    if token == "" || projectId == "" {
      return VercelSummary("unavailable", "missing_token_or_project", "", 0, 0, 0);
    }
    if response.HttpError? {
      return VercelSummary("error", "http_" + IntToString(response.code), Take(response.body, 300), 0, 0, 0);
    }
    if response.RequestError? {
      return VercelSummary("error", "request_error", response.message, 0, 0, 0);
    }
    var deployments := if response.deployments.Some? then response.deployments.value else [];
    var failed, production := CountDeployments(deployments);
    v := VercelSummary("ok", "", "", |deployments|, failed, production);
  }

  // ---------------------------------------------------------------------------------------
  // `_build_alerts` and the exit rule
  // ---------------------------------------------------------------------------------------

  datatype Thresholds = Thresholds(warnActionsMinutes: real, criticalActionsMinutes: real, warnFailureRate: real,
                                   warnVercelDeployments: int, criticalVercelDeployments: int)

  /** The alerts, in the order `_build_alerts` appends them. */
  function AlertsOf(g: GithubSummary, v: VercelSummary, th: Thresholds): seq<Alert>
  {
    var minutes := g.totalRuntimeMinutes;
    (if minutes >= th.criticalActionsMinutes then [Alert("critical", "github_actions", RuntimeMinutes(minutes, th.criticalActionsMinutes))]
     else if minutes >= th.warnActionsMinutes then [Alert("warn", "github_actions", RuntimeMinutes(minutes, th.warnActionsMinutes))]
     else [])
    + (if g.failureRate >= th.warnFailureRate then [Alert("warn", "github_actions", FailureRate(g.failureRate, th.warnFailureRate))]
       else [])
    + (if v.status != "ok" then []
       else if v.totalDeployments >= th.criticalVercelDeployments then
         [Alert("critical", "vercel", DeploymentVolume(v.totalDeployments, th.criticalVercelDeployments))]
       else if v.totalDeployments >= th.warnVercelDeployments then
         [Alert("warn", "vercel", DeploymentVolume(v.totalDeployments, th.warnVercelDeployments))]
       else [])
  }

  /**
   * At most one runtime alert, critical whenever the critical threshold is reached; at most
   * one failure-rate alert, always a warning; Vercel alerts only for a summary that is "ok",
   * again critical whenever its critical threshold is reached.
   */
  lemma AlertsShape(g: GithubSummary, v: VercelSummary, th: Thresholds)
    ensures var a := AlertsOf(g, v, th);
      Graded(a) && |a| <= 3 &&
      (forall i, j :: 0 <= i < |a| && 0 <= j < |a| && a[i].cause.RuntimeMinutes? && a[j].cause.RuntimeMinutes? ==> i == j) &&
      (forall i, j :: 0 <= i < |a| && 0 <= j < |a| && a[i].cause.FailureRate? && a[j].cause.FailureRate? ==> i == j) &&
      (forall i, j :: 0 <= i < |a| && 0 <= j < |a| && a[i].source == "vercel" && a[j].source == "vercel" ==> i == j) &&
      (forall i :: 0 <= i < |a| && a[i].cause.RuntimeMinutes? ==>
         (a[i].level == "critical" <==> g.totalRuntimeMinutes >= th.criticalActionsMinutes)) &&
      (forall i :: 0 <= i < |a| && a[i].cause.FailureRate? ==> a[i].level == "warn") &&
      (forall i :: 0 <= i < |a| && a[i].source == "vercel" ==>
         v.status == "ok" && (a[i].level == "critical" <==> v.totalDeployments >= th.criticalVercelDeployments))
  {
  }

  /** A runtime alert is raised exactly when either runtime threshold is reached. */
  lemma RuntimeAlertRaised(g: GithubSummary, v: VercelSummary, th: Thresholds)
    ensures (exists i :: 0 <= i < |AlertsOf(g, v, th)| && AlertsOf(g, v, th)[i].cause.RuntimeMinutes?) <==>
      g.totalRuntimeMinutes >= th.criticalActionsMinutes || g.totalRuntimeMinutes >= th.warnActionsMinutes
  {
    var a := AlertsOf(g, v, th);
    if g.totalRuntimeMinutes >= th.criticalActionsMinutes || g.totalRuntimeMinutes >= th.warnActionsMinutes {
      assert a[0].cause.RuntimeMinutes?;
    }
  }

  /** `_build_alerts` */
  method BuildAlerts(g: GithubSummary, v: VercelSummary, th: Thresholds) returns (alerts: seq<Alert>)
    ensures alerts == AlertsOf(g, v, th)
  {
    alerts := [];
    var minutes := g.totalRuntimeMinutes;
    if minutes >= th.criticalActionsMinutes {
      alerts := alerts + [Alert("critical", "github_actions", RuntimeMinutes(minutes, th.criticalActionsMinutes))];
    } else if minutes >= th.warnActionsMinutes {
      alerts := alerts + [Alert("warn", "github_actions", RuntimeMinutes(minutes, th.warnActionsMinutes))];
    }
    var failureRate := g.failureRate;
    if failureRate >= th.warnFailureRate {
      alerts := alerts + [Alert("warn", "github_actions", FailureRate(failureRate, th.warnFailureRate))];
    }
    if v.status == "ok" {
      var totalDeployments := v.totalDeployments;
      if totalDeployments >= th.criticalVercelDeployments {
        alerts := alerts + [Alert("critical", "vercel", DeploymentVolume(totalDeployments, th.criticalVercelDeployments))];
      } else if totalDeployments >= th.warnVercelDeployments {
        alerts := alerts + [Alert("warn", "vercel", DeploymentVolume(totalDeployments, th.warnVercelDeployments))];
      }
    }
  }

  /** The start of `run`: the repository is parsed first, then a GitHub token is required. */
  function Preflight(repo: string, ghToken: string): (r: Result<(string, string), string>)
    ensures ParseRepo(repo).Err? ==> r == ParseRepo(repo)
    ensures ParseRepo(repo).Ok? && ghToken == "" ==> r == Err("Missing GitHub token. Set --gh-token or GITHUB_TOKEN.")
    ensures r.Ok? <==> ParseRepo(repo).Ok? && ghToken != ""
  {
    match ParseRepo(repo)
    case Err(e) => Err(e)
    case Ok(parts) => if ghToken == "" then Err("Missing GitHub token. Set --gh-token or GITHUB_TOKEN.") else Ok(parts)
  }

  /** `since = now - timedelta(days=max(window_days, 1))`, in seconds: always at least a day back. */
  function Since(now: int, windowDays: int): (since: int)
    ensures since <= now - 86400
    ensures windowDays >= 1 ==> since == now - windowDays * 86400
  {
    now - MaxInt(windowDays, 1) * 86400
  }
}
