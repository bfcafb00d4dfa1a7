// The benchmark dataset health report (benchmark/eval/dataset_health.py): per-task targets from
// the command line, required-field validation of every dataset row, counts per task, the
// growth alerts and the healthy / needs-attention status. Reading the dataset files is left
// out: the datasets are an input, in the order of their sorted file names.

module DatasetHealth {
  import opened Common
  import opened Text
  import opened Numerals
  import opened Tables
  import opened Collections

  // ---------------------------------------------------------------------------------------
  // `_parse_task_targets`
  // ---------------------------------------------------------------------------------------

  /** A dict from task to target, as its items in insertion order. */
  type Targets = seq<(string, int)>

  /** Why `_parse_task_targets` raises ValueError on one `--task-target` value. */
  datatype TargetError = MissingEquals(value: string) | EmptyTask(value: string) | BadCount(value: string)

  /** The messages of the two errors the function raises itself; `BadCount` is `int`'s own. */
  function Message(e: TargetError): (m: string)
    requires !e.BadCount?
  {
    match e
    case MissingEquals(value) => "Invalid --task-target '" + value + "'. Use task=count format."
    case EmptyTask(value) => "Invalid --task-target '" + value + "'."
  }

  /** The targets when no `--task-target` is given. */
  function DefaultTargets(): (d: Targets)
    ensures |d| == 5 && DistinctKeys(d)
  {
    [("ai_vs_human_detection", 400), ("source_attribution", 200), ("tamper_detection", 250),
     ("audio_ai_vs_human_detection", 75), ("video_ai_vs_human_detection", 75)]
  }

  /** One value: split at its first '=', the task stripped and non-empty, the count an integer. */
  function ParseTarget(value: string): (r: Result<(string, int), TargetError>)
    ensures '=' !in value ==> r == Err(MissingEquals(value))
    ensures r.Ok? ==> r.value.0 != "" && Strip(r.value.0) == r.value.0
  {
    if '=' !in value then Err(MissingEquals(value))
    else
      var (task, count) := SplitOnce(value, '=');
      var t := Strip(task);
      StripIdempotent(task);
      if t == "" then Err(EmptyTask(value))
      else match ParseInt(Strip(count))
        case None => Err(BadCount(value))
        case Some(n) => Ok((t, n))
  }

  /** A trimmed task without '=', joined to a formatted count, parses back into both. */
  lemma ParseTargetRoundTrip(task: string, n: int)
    requires task != "" && Strip(task) == task && '=' !in task
    ensures ParseTarget(task + "=" + IntToString(n)) == Ok((task, n))
  {
    var value := task + "=" + IntToString(n);
    assert value[|task|] == '=';
    assert forall k :: 0 <= k < |task| ==> value[k] == task[k];
    assert IndexOf(value, '=') == |task|;
    assert value[..|task|] == task && value[|task| + 1..] == IntToString(n);
    StripOfTrimmed(IntToString(n));
    IntRoundTrip(n);
  }

  /** The position of key k among the items, or -1. */
  function KeyPosition(d: Targets, k: string): (i: int)
    ensures -1 <= i < |d|
    ensures i >= 0 ==> d[i].0 == k
    ensures i == -1 ==> forall j :: 0 <= j < |d| ==> d[j].0 != k
  {
    if d == [] then -1
    else if d[|d| - 1].0 == k then |d| - 1
    else KeyPosition(d[..|d| - 1], k)
  }

  /** `targets[k] = v`: an existing key keeps its place and takes the new value; a new key goes last. */
  function Put(d: Targets, k: string, v: int): (r: Targets)
    ensures KeyPosition(d, k) >= 0 ==> r == d[KeyPosition(d, k) := (k, v)]
    ensures KeyPosition(d, k) < 0 ==> r == d + [(k, v)]
  {
    var i := KeyPosition(d, k);
    if i >= 0 then d[i := (k, v)] else d + [(k, v)]
  }

  /** The value held for a key. */
  function Lookup(d: Targets, k: string): Option<int>
  {
    var i := KeyPosition(d, k);
    if i >= 0 then Some(d[i].1) else None
  }

  lemma PutFacts(d: Targets, k: string, v: int)
    requires DistinctKeys(d)
    ensures DistinctKeys(Put(d, k, v))
    ensures Lookup(Put(d, k, v), k) == Some(v)
    ensures forall other :: other != k ==> Lookup(Put(d, k, v), other) == Lookup(d, other)
  {
    var r := Put(d, k, v);
    var i := KeyPosition(d, k);
    forall other | other != k ensures Lookup(r, other) == Lookup(d, other) {
      var j := KeyPosition(d, other);
      if j >= 0 {
        KeyPositionOfDistinct(r, j, other);
      }
    }
    if i >= 0 {
      KeyPositionOfDistinct(r, i, k);
    } else {
      KeyPositionOfDistinct(r, |d|, k);
    }
  }

  lemma KeyPositionOfDistinct(d: Targets, i: nat, k: string)
    requires DistinctKeys(d) && i < |d| && d[i].0 == k
    ensures KeyPosition(d, k) == i
  {
  }

  /** One value parsed into a task and its count, or the error it raises. */
  type Parser = string -> Result<(string, int), TargetError>

  /** The loop over the values, each parsed by `parse` and stored; the first failing value stops it. */
  function Fold(values: seq<string>, parse: Parser): Result<Targets, TargetError>
  {
    if values == [] then Ok([])
    else match Fold(values[..|values| - 1], parse)
      case Err(e) => Err(e)
      case Ok(d) =>
        match parse(values[|values| - 1])
        case Err(e) => Err(e)
        case Ok(p) => Ok(Put(d, p.0, p.1))
  }

  /** `_parse_task_targets` */
  function TargetsOf(values: seq<string>): Result<Targets, TargetError>
  {
    if values == [] then Ok(DefaultTargets()) else Fold(values, ParseTarget)
  }

  /** The values parse exactly when each of them does; the error is that of the first one that does not. */
  lemma {:induction false} FoldOutcome(values: seq<string>, parse: Parser)
    ensures Fold(values, parse).Ok? <==> forall i :: 0 <= i < |values| ==> parse(values[i]).Ok?
    ensures Fold(values, parse).Err? ==> exists i :: 0 <= i < |values| && parse(values[i]) == Err(Fold(values, parse).error)
                                           && forall j :: 0 <= j < i ==> parse(values[j]).Ok?
  {
    if values != [] {
      var init := values[..|values| - 1];
      FoldOutcome(init, parse);
      assert forall j :: 0 <= j < |init| ==> init[j] == values[j];
      if Fold(init, parse).Err? {
        var i :| 0 <= i < |init| && parse(init[i]) == Err(Fold(init, parse).error)
                 && forall j :: 0 <= j < i ==> parse(init[j]).Ok?;
        assert parse(values[i]) == Err(Fold(values, parse).error);
      } else if parse(values[|values| - 1]).Err? {
        assert parse(values[|values| - 1]) == Err(Fold(values, parse).error);
      }
    }
  }

  /** Some value parses into the task. */
  predicate Names(values: seq<string>, parse: Parser, i: int, task: string)
  {
    0 <= i < |values| && parse(values[i]).Ok? && parse(values[i]).value.0 == task
  }

  /** Value i is the last one that names the task. */
  predicate LastNaming(values: seq<string>, parse: Parser, i: int, task: string)
  {
    Names(values, parse, i, task) && forall j :: i < j < |values| ==> !Names(values, parse, j, task)
  }

  /** A successful parse holds each task once. */
  lemma {:induction false} FoldDistinct(values: seq<string>, parse: Parser)
    requires Fold(values, parse).Ok?
    ensures DistinctKeys(Fold(values, parse).value)
  {
    if values != [] {
      var init := values[..|values| - 1];
      FoldDistinct(init, parse);
      var p := parse(values[|values| - 1]).value;
      PutFacts(Fold(init, parse).value, p.0, p.1);
    }
  }

  /** A successful parse holds exactly the tasks some value names. */
  lemma {:induction false} FoldHasTask(values: seq<string>, parse: Parser, task: string)
    requires Fold(values, parse).Ok?
    ensures Lookup(Fold(values, parse).value, task).Some? <==> exists i :: Names(values, parse, i, task)
  {
    if values != [] {
      var init := values[..|values| - 1];
      var last := |values| - 1;
      FoldHasTask(init, parse, task);
      FoldDistinct(init, parse);
      var d := Fold(init, parse).value;
      var p := parse(values[last]).value;
      PutFacts(d, p.0, p.1);
      var r := Put(d, p.0, p.1);
      assert Fold(values, parse) == Ok(r);
      if exists i :: Names(values, parse, i, task) {
        var i :| Names(values, parse, i, task);
        if i < last && p.0 != task {
          assert Names(init, parse, i, task);
        }
      }
      if Lookup(r, task).Some? {
        if p.0 == task {
          assert Names(values, parse, last, task);
        } else {
          var i :| Names(init, parse, i, task);
          assert Names(values, parse, i, task);
        }
      }
    }
  }

  /** The count a successful parse holds for a task is that of the last value naming it. */
  lemma {:induction false} FoldLastWins(values: seq<string>, parse: Parser, task: string, i: nat)
    requires Fold(values, parse).Ok? && LastNaming(values, parse, i, task)
    ensures Lookup(Fold(values, parse).value, task) == Some(parse(values[i]).value.1)
  {
    var init := values[..|values| - 1];
    var last := |values| - 1;
    FoldDistinct(init, parse);
    var d := Fold(init, parse).value;
    var p := parse(values[last]).value;
    PutFacts(d, p.0, p.1);
    assert Fold(values, parse) == Ok(Put(d, p.0, p.1));
    if i < last {
      assert !Names(values, parse, last, task);
      assert LastNaming(init, parse, i, task) by {
        forall j | i < j < |init| ensures !Names(init, parse, j, task) {
          assert !Names(values, parse, j, task);
        }
      }
      FoldLastWins(init, parse, task, i);
    }
  }

  /** `_parse_task_targets` */
  method ParseTaskTargets(values: seq<string>) returns (r: Result<Targets, TargetError>)
    ensures r == TargetsOf(values)
  {
    if values == [] {
      return Ok(DefaultTargets());
    }
    var targets: Targets := [];
    for i := 0 to |values|
      invariant Fold(values[..i], ParseTarget) == Ok(targets)
    {
      assert values[..i + 1][..i] == values[..i];
      var parsed := ParseTarget(values[i]);
      if parsed.Err? {
        assert Fold(values[..i + 1], ParseTarget) == Err(parsed.error);
        FoldStops(values, ParseTarget, i + 1);
        return Err(parsed.error);
      }
      targets := Put(targets, parsed.value.0, parsed.value.1);
    }
    assert values[..|values|] == values;
    r := Ok(targets);
  }

  /** Once the loop has failed, the later values do not change the outcome. */
  lemma {:induction false} FoldStops(values: seq<string>, parse: Parser, i: nat)
    requires i <= |values| && Fold(values[..i], parse).Err?
    ensures Fold(values, parse) == Fold(values[..i], parse)
    decreases |values| - i
  {
    if i < |values| {
      assert values[..i + 1][..i] == values[..i];
      FoldStops(values, parse, i + 1);
    } else {
      assert values[..i] == values;
    }
  }

  // ---------------------------------------------------------------------------------------
  // `_validate_rows`
  // ---------------------------------------------------------------------------------------

  /** A dataset row: the keys it has, each with the text `str()` gives for its value. */
  type Row = map<string, string>

  const RequiredFields: seq<string> := ["sample_id", "task", "domain", "label_is_ai", "modality", "input_ref"]

  /** The fields the row lacks, in the order given. */
  function MissingOf(fields: seq<string>, row: Row): (m: seq<string>)
    ensures forall f :: f in m <==> f in fields && f !in row
    ensures |m| <= |fields|
  {
    if fields == [] then []
    else (if fields[0] !in row then [fields[0]] else []) + MissingOf(fields[1..], row)
  }

  /** `[field for field in REQUIRED_FIELDS if field not in row]` */
  function Missing(row: Row): seq<string>
  {
    MissingOf(RequiredFields, row)
  }

  /** The row has every required field. */
  predicate HasAllFields(row: Row)
  {
    forall f :: f in RequiredFields ==> f in row
  }

  predicate Incomplete(row: Row) { !HasAllFields(row) }

  /** A row raises an issue, that is lacks some field, exactly when its missing list is non-empty. */
  lemma IncompleteMeaning(row: Row)
    ensures Incomplete(row) <==> Missing(row) != []
  {
    if Incomplete(row) {
      var f :| f in RequiredFields && f !in row;
      assert f in Missing(row);
    }
    if Missing(row) != [] {
      assert Missing(row)[0] in Missing(row);
    }
  }

  /** `row.get("sample_id", f"{dataset_name}#{index}")` */
  function SampleLabel(row: Row, dataset: string, index: nat): string
  {
    if "sample_id" in row then row["sample_id"] else dataset + "#" + NatToString(index)
  }

  function Issue(dataset: string, sampleId: string, missing: seq<string>): string
  {
    dataset + ":" + sampleId + " missing required fields: " + Join(missing, ", ")
  }

  /** The issue of an incomplete row at position `index`, counting from 1. */
  function RowIssue(row: Row, dataset: string, index: nat): string
  {
    Issue(dataset, SampleLabel(row, dataset, index), Missing(row))
  }

  /** The issue of each kept element, in order, each told its position counting from 1. */
  function Gather<T>(s: seq<T>, keep: T -> bool, issueAt: (T, nat) -> string): seq<string>
  {
    if s == [] then []
    else
      var x := s[|s| - 1];
      Gather(s[..|s| - 1], keep, issueAt) + (if keep(x) then [issueAt(x, |s|)] else [])
  }

  /** One issue per kept element. */
  lemma {:induction false} GatherCount<T>(s: seq<T>, keep: T -> bool, issueAt: (T, nat) -> string)
    ensures |Gather(s, keep, issueAt)| == CountIf(s, keep)
  {
    if s != [] {
      GatherCount(s[..|s| - 1], keep, issueAt);
    }
  }

  /** Element i is kept and the issue is its own. */
  predicate RaisedBy<T>(s: seq<T>, keep: T -> bool, issueAt: (T, nat) -> string, issue: string, i: int)
  {
    0 <= i < |s| && keep(s[i]) && issue == issueAt(s[i], i + 1)
  }

  /** The gathered issues are exactly those of the kept elements. */
  lemma {:induction false} GatherMeaning<T>(s: seq<T>, keep: T -> bool, issueAt: (T, nat) -> string, issue: string)
    ensures issue in Gather(s, keep, issueAt) <==> exists i :: RaisedBy(s, keep, issueAt, issue, i)
  {
    if s != [] {
      var init := s[..|s| - 1];
      var last := |s| - 1;
      GatherMeaning(init, keep, issueAt, issue);
      if issue in Gather(s, keep, issueAt) {
        if issue in Gather(init, keep, issueAt) {
          var i :| RaisedBy(init, keep, issueAt, issue, i);
          assert RaisedBy(s, keep, issueAt, issue, i);
        } else {
          assert RaisedBy(s, keep, issueAt, issue, last);
        }
      }
      if exists i :: RaisedBy(s, keep, issueAt, issue, i) {
        var i :| RaisedBy(s, keep, issueAt, issue, i);
        if i < last {
          assert RaisedBy(init, keep, issueAt, issue, i);
        }
      }
    }
  }

  /** The issues of one dataset's rows. */
  function IssuesOf(rows: seq<Row>, dataset: string): seq<string>
  {
    Gather(rows, Incomplete, (row: Row, index: nat) => RowIssue(row, dataset, index))
  }

  /** Exactly one issue per incomplete row. */
  lemma IssuesCount(rows: seq<Row>, dataset: string)
    ensures |IssuesOf(rows, dataset)| == CountIf(rows, Incomplete)
  {
    GatherCount(rows, Incomplete, (row: Row, index: nat) => RowIssue(row, dataset, index));
  }

  /** The issues are exactly those of the incomplete rows, each naming its row and its missing fields. */
  lemma IssuesMeaning(rows: seq<Row>, dataset: string, issue: string)
    ensures issue in IssuesOf(rows, dataset) <==>
      exists i :: 0 <= i < |rows| && Incomplete(rows[i]) && issue == RowIssue(rows[i], dataset, i + 1)
  {
    var issueAt := (row: Row, index: nat) => RowIssue(row, dataset, index);
    GatherMeaning(rows, Incomplete, issueAt, issue);
    if exists i :: 0 <= i < |rows| && Incomplete(rows[i]) && issue == RowIssue(rows[i], dataset, i + 1) {
      var i :| 0 <= i < |rows| && Incomplete(rows[i]) && issue == RowIssue(rows[i], dataset, i + 1);
      assert RaisedBy(rows, Incomplete, issueAt, issue, i);
    }
  }

  /** `_validate_rows` */
  method ValidateRows(rows: seq<Row>, dataset: string) returns (issues: seq<string>)
    ensures issues == IssuesOf(rows, dataset)
  {
    issues := [];
    for index := 0 to |rows|
      invariant issues == IssuesOf(rows[..index], dataset)
    {
      assert rows[..index + 1][..index] == rows[..index];
      var row := rows[index];
      var missing := MissingOf(RequiredFields, row);
      IncompleteMeaning(row);
      if missing != [] {
        var sampleId := if "sample_id" in row then row["sample_id"] else dataset + "#" + NatToString(index + 1);
        issues := issues + [dataset + ":" + sampleId + " missing required fields: " + Join(missing, ", ")];
      }
    }
    assert rows[..|rows|] == rows;
  }

  // ---------------------------------------------------------------------------------------
  // `run`: counts, alerts and status
  // ---------------------------------------------------------------------------------------

  /** One dataset file: its name and its rows. */
  datatype Dataset = Dataset(name: string, rows: seq<Row>)

  /** `str(row.get(key, "unknown"))` */
  function Field(row: Row, key: string): string
  {
    if key in row then row[key] else "unknown"
  }

  /** A `Counter` of the rows' values for key. */
  function Counter(rows: seq<Row>, key: string): map<string, nat>
  {
    if rows == [] then map[]
    else
      var c := Counter(rows[..|rows| - 1], key);
      var v := Field(rows[|rows| - 1], key);
      c[v := CountOf(c, v) + 1]
  }

  /** `counter.get(v, 0)` */
  function CountOf(c: map<string, nat>, v: string): nat
  {
    if v in c then c[v] else 0
  }

  /** The counter of a value is the number of rows holding it. */
  lemma {:induction false} CounterCounts(rows: seq<Row>, key: string, v: string)
    ensures CountOf(Counter(rows, key), v) == CountIf(rows, (r: Row) => Field(r, key) == v)
  {
    if rows != [] {
      CounterCounts(rows[..|rows| - 1], key, v);
    }
  }

  function AllRows(datasets: seq<Dataset>): seq<Row>
  {
    if datasets == [] then [] else AllRows(datasets[..|datasets| - 1]) + datasets[|datasets| - 1].rows
  }

  function AllIssues(datasets: seq<Dataset>): seq<string>
  {
    if datasets == [] then []
    else AllIssues(datasets[..|datasets| - 1]) + IssuesOf(datasets[|datasets| - 1].rows, datasets[|datasets| - 1].name)
  }

  /** No issues at all exactly when every row of every dataset is complete. */
  lemma {:induction false} NoIssuesIffComplete(datasets: seq<Dataset>)
    ensures AllIssues(datasets) == [] <==> Complete(AllRows(datasets))
  {
    if datasets != [] {
      var init := datasets[..|datasets| - 1];
      var d := datasets[|datasets| - 1];
      NoIssuesIffComplete(init);
      IssuesCount(d.rows, d.name);
      CountIfZero(d.rows, Incomplete);
      CompleteConcat(AllRows(init), d.rows);
    }
  }

  /** Every row has all required fields. */
  predicate Complete(rows: seq<Row>)
  {
    forall i :: 0 <= i < |rows| ==> !Incomplete(rows[i])
  }

  lemma CompleteConcat(a: seq<Row>, b: seq<Row>)
    ensures Complete(a + b) <==> Complete(a) && Complete(b)
  {
    if Complete(a) && Complete(b) {
      forall i | 0 <= i < |a + b| ensures !Incomplete((a + b)[i]) {
        if i >= |a| {
          assert (a + b)[i] == b[i - |a|];
        }
      }
    }
    if Complete(a + b) {
      forall i | 0 <= i < |a| ensures !Incomplete(a[i]) {
        assert (a + b)[i] == a[i];
      }
      forall i | 0 <= i < |b| ensures !Incomplete(b[i]) {
        assert (a + b)[|a| + i] == b[i];
      }
    }
  }

  /** Nothing counted exactly when nothing holds. */
  lemma {:induction false} CountIfZero<T>(s: seq<T>, p: T -> bool)
    ensures CountIf(s, p) == 0 <==> forall i :: 0 <= i < |s| ==> !p(s[i])
  {
    if s != [] {
      CountIfZero(s[..|s| - 1], p);
      assert forall i :: 0 <= i < |s| - 1 ==> s[..|s| - 1][i] == s[i];
    }
  }

  /** The loop over the datasets: the samples, the issues and the task counter. */
  method Accumulate(datasets: seq<Dataset>) returns (total: nat, issues: seq<string>, byTask: map<string, nat>)
    ensures total == |AllRows(datasets)|
    ensures issues == AllIssues(datasets)
    ensures byTask == Counter(AllRows(datasets), "task")
  {
    total, issues, byTask := 0, [], map[];
    for k := 0 to |datasets|
      invariant total == |AllRows(datasets[..k])| && issues == AllIssues(datasets[..k])
      invariant byTask == Counter(AllRows(datasets[..k]), "task")
    {
      assert datasets[..k + 1][..k] == datasets[..k];
      var rows := datasets[k].rows;
      total := total + |rows|;
      var found := ValidateRows(rows, datasets[k].name);
      issues := issues + found;
      byTask := CountRows(byTask, AllRows(datasets[..k]), rows);
    }
    assert datasets[..|datasets|] == datasets;
  }

  /** The inner loop: each row of one dataset adds one to its task's count. */
  method CountRows(c0: map<string, nat>, before: seq<Row>, rows: seq<Row>) returns (c: map<string, nat>)
    requires c0 == Counter(before, "task")
    ensures c == Counter(before + rows, "task")
  {
    c := c0;
    assert before + rows[..0] == before;
    for i := 0 to |rows|
      invariant c == Counter(before + rows[..i], "task")
    {
      CounterStep(before, rows, i, "task");
      var task := Field(rows[i], "task");
      c := c[task := (if task in c then c[task] else 0) + 1];
    }
    assert rows[..|rows|] == rows;
  }

  /** One more row adds one to the count of its value. */
  lemma CounterStep(before: seq<Row>, rows: seq<Row>, i: nat, key: string)
    requires i < |rows|
    ensures var c := Counter(before + rows[..i], key); var v := Field(rows[i], key);
      Counter(before + rows[..i + 1], key) == c[v := (if v in c then c[v] else 0) + 1]
  {
    assert (before + rows[..i + 1])[..|before + rows[..i + 1]| - 1] == before + rows[..i];
    assert (before + rows[..i + 1])[|before + rows[..i + 1]| - 1] == rows[i];
  }

  /** One line of `task_rows`. */
  datatype TaskRow = TaskRow(task: string, count: nat, target: int, meetsTarget: bool)

  /** The alerts the report can raise. */
  datatype HealthAlert =
    | BelowWarning(total: nat, warnTotal: int)
    | BelowTarget(total: nat, targetTotal: int)
    | TaskBelowTarget(task: string, count: nat, target: int)

  /** The order of `sorted(task_targets.items())`; the tasks are distinct, so the task decides. */
  function TaskOrder(a: (string, int), b: (string, int)): bool
  {
    StrLe(a.0, b.0)
  }

  lemma TaskOrderIsOrder()
    ensures Total(TaskOrder) && Transitive(TaskOrder)
  {
    forall a: (string, int), b: (string, int) ensures TaskOrder(a, b) || TaskOrder(b, a) {
      StrLeTotal(a.0, b.0);
    }
    forall a: (string, int), b: (string, int), c: (string, int) | TaskOrder(a, b) && TaskOrder(b, c)
      ensures TaskOrder(a, c)
    {
      StrLeTransitive(a.0, b.0, c.0);
    }
  }

  function RowOf(item: (string, int), byTask: map<string, nat>): TaskRow
  {
    var count := CountOf(byTask, item.0);
    TaskRow(item.0, count, item.1, count >= item.1)
  }

  function TaskRows(items: seq<(string, int)>, byTask: map<string, nat>): (r: seq<TaskRow>)
    ensures |r| == |items|
    ensures forall i :: 0 <= i < |items| ==> r[i] == RowOf(items[i], byTask)
  {
    seq(|items|, i requires 0 <= i < |items| => RowOf(items[i], byTask))
  }

  /** The alerts for the tasks below target, in task-row order. */
  function TaskAlerts(rows: seq<TaskRow>): seq<HealthAlert>
  {
    if rows == [] then []
    else
      var r := rows[|rows| - 1];
      TaskAlerts(rows[..|rows| - 1]) + (if r.meetsTarget then [] else [TaskBelowTarget(r.task, r.count, r.target)])
  }

  /** The two total alerts, then one per task below its target. */
  function AlertsOf(total: nat, warnTotal: int, targetTotal: int, rows: seq<TaskRow>): seq<HealthAlert>
  {
    TotalAlerts(total, warnTotal, targetTotal) + TaskAlerts(rows)
  }

  function TotalAlerts(total: nat, warnTotal: int, targetTotal: int): (a: seq<HealthAlert>)
    ensures a == [] <==> total >= warnTotal && total >= targetTotal
  {
    (if total < warnTotal then [BelowWarning(total, warnTotal)] else [])
    + (if total < targetTotal then [BelowTarget(total, targetTotal)] else [])
  }

  /** The two alerts on the total: below the warning total, then below the target total. */
  method RaiseTotalAlerts(total: nat, warnTotal: int, targetTotal: int) returns (alerts: seq<HealthAlert>)
    ensures alerts == TotalAlerts(total, warnTotal, targetTotal)
  {
    alerts := [];
    if total < warnTotal {
      alerts := alerts + [BelowWarning(total, warnTotal)];
    }
    if total < targetTotal {
      alerts := alerts + [BelowTarget(total, targetTotal)];
    }
  }

  /** One task alert per task row below target. */
  lemma {:induction false} TaskAlertsCount(rows: seq<TaskRow>)
    ensures |TaskAlerts(rows)| == CountIf(rows, (r: TaskRow) => !r.meetsTarget)
    ensures TaskAlerts(rows) == [] <==> forall i :: 0 <= i < |rows| ==> rows[i].meetsTarget
  {
    if rows != [] {
      TaskAlertsCount(rows[..|rows| - 1]);
      assert forall i :: 0 <= i < |rows| - 1 ==> rows[..|rows| - 1][i] == rows[i];
    }
  }

  /** The task rows are in task-name order and each row's count is the number of rows of that task. */
  lemma TaskRowsShape(targets: Targets, datasets: seq<Dataset>)
    ensures var rows := TaskRows(SortBy(targets, TaskOrder), Counter(AllRows(datasets), "task"));
      |rows| == |targets| &&
      (forall i, j :: 0 <= i < j < |rows| ==> StrLe(rows[i].task, rows[j].task)) &&
      (forall i :: 0 <= i < |rows| ==>
         rows[i].count == CountIf(AllRows(datasets), (r: Row) => Field(r, "task") == rows[i].task) &&
         (rows[i].meetsTarget <==> rows[i].count >= rows[i].target))
  {
    var sorted := SortBy(targets, TaskOrder);
    TaskOrderIsOrder();
    SortBySorted(targets, TaskOrder);
    var rows := TaskRows(sorted, Counter(AllRows(datasets), "task"));
    forall i, j | 0 <= i < j < |rows| ensures StrLe(rows[i].task, rows[j].task) {
      SortedPairwise(sorted, TaskOrder, i, j);
    }
    forall i | 0 <= i < |rows|
      ensures rows[i].count == CountIf(AllRows(datasets), (r: Row) => Field(r, "task") == rows[i].task)
    {
      CounterCounts(AllRows(datasets), "task", rows[i].task);
    }
  }

  /** `round((total_samples / target_total) * 100.0, 2) if target_total else 0.0` */
  function ProgressPct(total: nat, targetTotal: int): (pct: real)
    ensures targetTotal == 0 ==> pct == 0.0
  {
    if targetTotal == 0 then 0.0 else Round((total as real / targetTotal as real) * 100.0, Digits2)
  }

  /** Reaching a positive target is at least 100 percent; falling short of it is at most 100. */
  lemma ProgressReached(total: nat, targetTotal: int)
    requires targetTotal > 0
    ensures total >= targetTotal ==> ProgressPct(total, targetTotal) >= 100.0
    ensures total <= targetTotal ==> 0.0 <= ProgressPct(total, targetTotal) <= 100.0
  {
    var ratio := total as real / targetTotal as real;
    RoundOfInt(100, Digits2);
    RoundOfInt(0, Digits2);
    if total >= targetTotal {
      RatioAtLeastOne(total, targetTotal);
      RoundMonotone(100.0, ratio * 100.0, Digits2);
    }
    if total <= targetTotal {
      RatioFacts(total, targetTotal);
      RoundMonotone(ratio * 100.0, 100.0, Digits2);
      RoundMonotone(0.0, ratio * 100.0, Digits2);
    }
  }

  /** The report `run` writes, less its paths, time stamp and display-only counters. */
  datatype Report = Report(totalSamples: nat, progressPct: real, taskRows: seq<TaskRow>,
                           validationIssues: seq<string>, alerts: seq<HealthAlert>, healthy: bool)

  function ReportOf(targets: Targets, datasets: seq<Dataset>, warnTotal: int, targetTotal: int): Report
  {
    var total := |AllRows(datasets)|;
    var rows := TaskRows(SortBy(targets, TaskOrder), Counter(AllRows(datasets), "task"));
    var alerts := AlertsOf(total, warnTotal, targetTotal, rows);
    var issues := AllIssues(datasets);
    Report(total, ProgressPct(total, targetTotal), rows, issues, alerts, alerts == [] && issues == [])
  }

  /** `run` with `--enforce`: 1 exactly when there are alerts or validation issues. */
  function ExitCode(enforce: bool, r: Report): (code: int)
    ensures code == 1 <==> enforce && (r.alerts != [] || r.validationIssues != [])
    ensures code == 0 || code == 1
  {
    if enforce && (r.alerts != [] || r.validationIssues != []) then 1 else 0
  }

  /** For a report as `run` builds it, enforcement fails exactly when the status is not healthy. */
  lemma ExitCodeIffUnhealthy(targets: Targets, datasets: seq<Dataset>, warnTotal: int, targetTotal: int, enforce: bool)
    ensures var r := ReportOf(targets, datasets, warnTotal, targetTotal);
      ExitCode(enforce, r) == 1 <==> enforce && !r.healthy
  {
  }

  /**
   * The report is healthy exactly when the total reaches both the warning and the target total,
   * every task reaches its target and every row has all required fields.
   */
  lemma HealthyMeaning(targets: Targets, datasets: seq<Dataset>, warnTotal: int, targetTotal: int)
    ensures var r := ReportOf(targets, datasets, warnTotal, targetTotal);
      r.healthy <==>
        r.totalSamples >= warnTotal && r.totalSamples >= targetTotal
        && (forall i :: 0 <= i < |r.taskRows| ==> r.taskRows[i].count >= r.taskRows[i].target)
        && Complete(AllRows(datasets))
  {
    var rows := TaskRows(SortBy(targets, TaskOrder), Counter(AllRows(datasets), "task"));
    AlertsEmptyIff(|AllRows(datasets)|, warnTotal, targetTotal, rows);
    NoIssuesIffComplete(datasets);
  }

  /** No alert at all exactly when the total reaches both totals and every task its target. */
  lemma AlertsEmptyIff(total: nat, warnTotal: int, targetTotal: int, rows: seq<TaskRow>)
    requires forall i :: 0 <= i < |rows| ==> (rows[i].meetsTarget <==> rows[i].count >= rows[i].target)
    ensures AlertsOf(total, warnTotal, targetTotal, rows) == [] <==>
      total >= warnTotal && total >= targetTotal && forall i :: 0 <= i < |rows| ==> rows[i].count >= rows[i].target
  {
    TaskAlertsCount(rows);
  }

  /** The task rows and the task alerts: the loop over the sorted targets. */
  method BuildTaskRows(items: seq<(string, int)>, byTask: map<string, nat>) returns (rows: seq<TaskRow>, alerts: seq<HealthAlert>)
    ensures rows == TaskRows(items, byTask) && alerts == TaskAlerts(rows)
  {
    rows, alerts := [], [];
    for i := 0 to |items|
      invariant |rows| == i && (forall k :: 0 <= k < i ==> rows[k] == RowOf(items[k], byTask))
      invariant alerts == TaskAlerts(rows)
    {
      var task := items[i].0;
      var target := items[i].1;
      var count := if task in byTask then byTask[task] else 0;
      var meetsTarget := count >= target;
      var row := TaskRow(task, count, target, meetsTarget);
      assert (rows + [row])[..i] == rows;
      rows := rows + [row];
      if !meetsTarget {
        alerts := alerts + [TaskBelowTarget(task, count, target)];
      }
    }
  }

  /** The report of `run`, once the targets are parsed. */
  method BuildReport(targets: Targets, datasets: seq<Dataset>, warnTotal: int, targetTotal: int) returns (report: Report)
    ensures report == ReportOf(targets, datasets, warnTotal, targetTotal)
  {
    var total, issues, byTask := Accumulate(datasets);
    var alerts := RaiseTotalAlerts(total, warnTotal, targetTotal);
    var rows, taskAlerts := BuildTaskRows(SortBy(targets, TaskOrder), byTask);
    alerts := alerts + taskAlerts;
    assert alerts == AlertsOf(total, warnTotal, targetTotal, rows);
    report := Report(total, ProgressPct(total, targetTotal), rows, issues, alerts, alerts == [] && issues == []);
  }

  /** `run`, after the arguments are parsed, up to the exit code. */
  method Run(taskTargets: seq<string>, datasets: seq<Dataset>, warnTotal: int, targetTotal: int, enforce: bool)
    returns (r: Result<(Report, int), TargetError>)
    ensures TargetsOf(taskTargets).Err? ==> r == Err(TargetsOf(taskTargets).error)
    ensures TargetsOf(taskTargets).Ok? ==>
      r == Ok((ReportOf(TargetsOf(taskTargets).value, datasets, warnTotal, targetTotal),
               ExitCode(enforce, ReportOf(TargetsOf(taskTargets).value, datasets, warnTotal, targetTotal))))
  {
    var parsed := ParseTaskTargets(taskTargets);
    if parsed.Err? {
      return Err(parsed.error);
    }
    var report := BuildReport(parsed.value, datasets, warnTotal, targetTotal);
    var code := if enforce && (report.alerts != [] || report.validationIssues != []) then 1 else 0;
    r := Ok((report, code));
  }
}
