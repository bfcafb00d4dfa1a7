// The benchmark regression gate (benchmark/eval/check_benchmark_regression.py): each metric of the
// baseline snapshot names a dotted path into the current results, a baseline value and the drop
// it may suffer; the gate looks every path up, compares, and fails when a metric fell too far.

module RegressionGate {
  import opened Common
  import opened Text
  import opened Json
  import opened Tables

  /** Why a lookup ends the run: a key that is not there, or a value `float()` refuses. */
  datatype GateError = KeyError(path: string) | NotANumber(path: string)

  /**
   * `float(node)`: numbers and booleans convert, a string converts when `parseReal` reads it
   * as a float literal, and nothing else converts.
   */
  function ToFloat(node: Json, parseReal: string -> Option<real>): (v: Option<real>)
    ensures IsNumber(node) ==> v == Some(NumberValue(node))
    ensures node.JStr? ==> v == parseReal(node.s)
    ensures node.JNull? || node.JArr? || node.JObj? ==> v.None?
  {
    if IsNumber(node) then Some(NumberValue(node))
    else if node.JStr? then parseReal(node.s)
    else None
  }

  /** What `_value_at_path` returns or raises, stated on the dict walk along the split path. */
  function ValueOf(payload: Json, path: string, parseReal: string -> Option<real>): Result<real, GateError>
  {
    match DictPath(payload, Split(path, '.'))
    case None => Err(KeyError(path))
    case Some(node) =>
      match ToFloat(node, parseReal)
      case None => Err(NotANumber(path))
      case Some(v) => Ok(v)
  }

  /** `_value_at_path`: reassign the node key by key, raising at the first missing key. */
  method ValueAtPath(payload: Json, path: string, parseReal: string -> Option<real>)
    returns (r: Result<real, GateError>)
    ensures r == ValueOf(payload, path, parseReal)
  {
    var keys := Split(path, '.');
    var node := payload;
    var i := 0;
    while i < |keys|
      invariant 0 <= i <= |keys|
      invariant DictPath(payload, keys) == DictPath(node, keys[i..])
    {
      if !HasKey(node, keys[i]) {
        return Err(KeyError(path));
      }
      assert keys[i..][1..] == keys[i + 1..];
      node := Member(node, keys[i]);
      i := i + 1;
    }
    var v := ToFloat(node, parseReal);
    if v.None? {
      return Err(NotANumber(path));
    }
    return Ok(v.value);
  }

  /**
   * The walk raises KeyError exactly when some prefix of the keys leads to a node that is not a
   * dict holding the next key.
   */
  lemma {:induction false} DictPathMissing(node: Json, keys: seq<string>)
    ensures DictPath(node, keys).None? <==>
      exists i :: 0 <= i < |keys| && DictPath(node, keys[..i]).Some? && !HasKey(DictPath(node, keys[..i]).value, keys[i])
    decreases |keys|
  {
    assert keys[..0] == [];
    if keys != [] {
      if HasKey(node, keys[0]) {
        var child := Member(node, keys[0]);
        DictPathMissing(child, keys[1..]);
        forall i | 1 <= i <= |keys|
          ensures DictPath(node, keys[..i]) == DictPath(child, keys[1..][..i - 1])
        {
          assert keys[..i][0] == keys[0] && keys[..i][1..] == keys[1..][..i - 1];
        }
        if DictPath(node, keys).None? {
          var j :| 0 <= j < |keys[1..]| && DictPath(child, keys[1..][..j]).Some?
                   && !HasKey(DictPath(child, keys[1..][..j]).value, keys[1..][j]);
          assert DictPath(node, keys[..j + 1]) == DictPath(child, keys[1..][..j]);
        } else {
          forall i | 0 <= i < |keys| && DictPath(node, keys[..i]).Some?
            ensures HasKey(DictPath(node, keys[..i]).value, keys[i])
          {
            if i > 0 {
              assert DictPath(node, keys[..i]) == DictPath(child, keys[1..][..i - 1]);
              assert keys[i] == keys[1..][i - 1];
            }
          }
        }
      }
    }
  }

  /** A value is found only through dicts that hold every key of the path. */
  lemma ValueOfMissingKey(payload: Json, path: string, parseReal: string -> Option<real>)
    ensures ValueOf(payload, path, parseReal) == Err(KeyError(path)) <==>
      var keys := Split(path, '.');
      exists i :: 0 <= i < |keys| && DictPath(payload, keys[..i]).Some? && !HasKey(DictPath(payload, keys[..i]).value, keys[i])
  {
    assert ValueOf(payload, path, parseReal) == Err(KeyError(path)) <==> DictPath(payload, Split(path, '.')).None?;
    DictPathMissing(payload, Split(path, '.'));
  }

  /** A value nested one dict per key: `{"a": {"b": leaf}}` for the keys a, b. */
  function Nest(keys: seq<string>, leaf: Json): (j: Json)
    ensures keys != [] ==> HasKey(j, keys[0])
  {
    if keys == [] then leaf else JObj([(keys[0], Nest(keys[1..], leaf))])
  }

  /** Walking the keys through their own nesting reaches the leaf. */
  lemma {:induction false} DictPathNest(keys: seq<string>, leaf: Json)
    ensures DictPath(Nest(keys, leaf), keys) == Some(leaf)
    decreases |keys|
  {
    if keys != [] {
      DictPathNest(keys[1..], leaf);
    }
  }

  /** Looking a dotted path up in the results that nest a number along it gives the number back. */
  lemma ValueOfNest(keys: seq<string>, v: real, parseReal: string -> Option<real>)
    requires keys != []
    requires forall k :: 0 <= k < |keys| ==> '.' !in keys[k]
    ensures ValueOf(Nest(keys, JReal(v)), Join(keys, "."), parseReal) == Ok(v)
  {
    SplitJoinedDots(keys);
    DictPathNest(keys, JReal(v));
    assert ToFloat(JReal(v), parseReal) == Some(v);
  }

  /** Keys without dots, joined by dots, split back into themselves. */
  lemma {:induction false} SplitJoinedDots(keys: seq<string>)
    requires keys != []
    requires forall k :: 0 <= k < |keys| ==> '.' !in keys[k]
    ensures Split(Join(keys, "."), '.') == keys
  {
    if |keys| == 1 {
      SplitWithout(keys[0], '.');
    } else {
      var rest := keys[1..];
      SplitJoinedDots(rest);
      SplitAtFirst(keys[0], Join(rest, "."), '.');
      assert [keys[0]] + rest == keys;
    }
  }

  /** A lookup of a metric's path: `_value_at_path` on the current results. */
  type Lookup = string -> Result<real, GateError>

  /** The lookup into one results payload. */
  function PathLookup(payload: Json, parseReal: string -> Option<real>): Lookup
  {
    path => ValueOf(payload, path, parseReal)
  }

  /** A baseline entry: the metric's dotted path, its baseline value and its allowed drop. */
  datatype Metric = Metric(path: string, baseline: real, maxDrop: real)

  /** One row of the report. */
  datatype Check = Check(path: string, baseline: real, current: real, maxDrop: real,
                         minAllowed: real, delta: real, passed: bool)

  /** The comparison for one metric against the value found in the current results. */
  function CheckOf(m: Metric, current: real): (c: Check)
    ensures c.path == m.path && c.baseline == m.baseline && c.current == current && c.maxDrop == m.maxDrop
    ensures c.minAllowed == m.baseline - m.maxDrop
    ensures c.delta == current - m.baseline
    ensures c.passed <==> current >= m.baseline - m.maxDrop
    ensures c.passed <==> c.delta >= -m.maxDrop
  {
    var minAllowed := m.baseline - m.maxDrop;
    Check(m.path, m.baseline, current, m.maxDrop, minAllowed, current - m.baseline, current >= minAllowed)
  }

  /** The checks of the metrics in order, or the error of the first lookup that raises. */
  function ChecksOf(metrics: seq<Metric>, look: Lookup): Result<seq<Check>, GateError>
  {
    if metrics == [] then Ok([])
    else
      match ChecksOf(metrics[..|metrics| - 1], look)
      case Err(e) => Err(e)
      case Ok(checks) =>
        var last := metrics[|metrics| - 1];
        match look(last.path)
        case Err(e) => Err(e)
        case Ok(v) => Ok(checks + [CheckOf(last, v)])
  }

  /** Every metric's path reads a number from the results. */
  predicate AllFound(metrics: seq<Metric>, look: Lookup)
  {
    forall i :: 0 <= i < |metrics| ==> look(metrics[i].path).Ok?
  }

  /** The checks line up with the metrics, each compared against its own value. */
  predicate ChecksFor(checks: seq<Check>, metrics: seq<Metric>, look: Lookup)
    requires AllFound(metrics, look)
  {
    |checks| == |metrics| &&
    forall i :: 0 <= i < |metrics| ==> checks[i] == CheckOf(metrics[i], look(metrics[i].path).value)
  }

  /** The run completes exactly when every path reads a number, with one check per metric. */
  lemma {:induction false} ChecksOk(metrics: seq<Metric>, look: Lookup)
    ensures ChecksOf(metrics, look).Ok? <==> AllFound(metrics, look)
    ensures ChecksOf(metrics, look).Ok? ==> ChecksFor(ChecksOf(metrics, look).value, metrics, look)
  {
    if metrics != [] {
      var n := |metrics| - 1;
      var init := metrics[..n];
      ChecksOk(init, look);
      assert forall i :: 0 <= i < n ==> init[i] == metrics[i];
      if ChecksOf(init, look).Err? {
        assert !AllFound(init, look);
      } else if look(metrics[n].path).Err? {
        assert !AllFound(metrics, look);
      } else {
        var checks := ChecksOf(init, look).value;
        assert ChecksOf(metrics, look).value == checks + [CheckOf(metrics[n], look(metrics[n].path).value)];
      }
    }
  }

  /** A run that does not complete stops with the error of the first metric whose lookup raises. */
  lemma {:induction false} ChecksErr(metrics: seq<Metric>, look: Lookup)
    ensures ChecksOf(metrics, look).Err? ==>
      exists i :: 0 <= i < |metrics| && AllFound(metrics[..i], look) && look(metrics[i].path).Err?
        && ChecksOf(metrics, look).error == look(metrics[i].path).error
  {
    if metrics != [] && ChecksOf(metrics, look).Err? {
      var n := |metrics| - 1;
      var init := metrics[..n];
      ChecksErr(init, look);
      if ChecksOf(init, look).Err? {
        var i :| 0 <= i < n && AllFound(init[..i], look) && look(init[i].path).Err?
                 && ChecksOf(init, look).error == look(init[i].path).error;
        assert init[..i] == metrics[..i] && init[i] == metrics[i];
      } else {
        ChecksOk(init, look);
        assert init == metrics[..n];
      }
    }
  }

  /** A check that failed. */
  predicate Failing(c: Check) { !c.passed }

  /** The report's summary fields. */
  datatype Report = Report(totalChecks: nat, failedChecks: nat, passed: bool, checks: seq<Check>)

  /** The report over the checks. */
  function ReportOf(checks: seq<Check>): (r: Report)
    ensures r.checks == checks && r.totalChecks == |checks|
    ensures r.failedChecks == CountIf(checks, Failing) <= |checks|
    ensures r.passed <==> r.failedChecks == 0
  {
    var failures := CountIf(checks, Failing);
    Report(|checks|, failures, failures == 0, checks)
  }

  /** No failing check counted means no check failed. */
  lemma {:induction false} NoFailures(checks: seq<Check>)
    ensures CountIf(checks, Failing) == 0 <==> forall i :: 0 <= i < |checks| ==> checks[i].passed
  {
    if checks != [] {
      var init := checks[..|checks| - 1];
      NoFailures(init);
      assert forall i :: 0 <= i < |init| ==> init[i] == checks[i];
    }
  }

  /** The report passes exactly when every check does. */
  lemma ReportPassed(checks: seq<Check>)
    ensures ReportOf(checks).passed <==> forall i :: 0 <= i < |checks| ==> checks[i].passed
  {
    NoFailures(checks);
  }

  /** The exit code: 1 when some metric is below its allowed minimum. */
  function ExitCodeOf(r: Report): (code: int)
    ensures code == 0 <==> r.failedChecks == 0
    ensures code == 0 || code == 1
  {
    if r.failedChecks > 0 then 1 else 0
  }

  /** Some metric's value is below its baseline less its allowed drop. */
  predicate SomeBelow(metrics: seq<Metric>, look: Lookup)
  {
    exists i :: 0 <= i < |metrics| && look(metrics[i].path).Ok? &&
      look(metrics[i].path).value < metrics[i].baseline - metrics[i].maxDrop
  }

  /** The gate fails the build exactly when some metric fell by more than its allowed drop. */
  lemma ExitCodeMeaning(metrics: seq<Metric>, look: Lookup)
    requires ChecksOf(metrics, look).Ok?
    ensures ExitCodeOf(ReportOf(ChecksOf(metrics, look).value)) == 1 <==> SomeBelow(metrics, look)
  {
    var checks := ChecksOf(metrics, look).value;
    ChecksOk(metrics, look);
    ReportPassed(checks);
    if ExitCodeOf(ReportOf(checks)) == 1 {
      var i :| 0 <= i < |checks| && !checks[i].passed;
      assert checks[i] == CheckOf(metrics[i], look(metrics[i].path).value);
    }
  }

  /** Results that hold every metric at or above its baseline pass, whatever the allowed drops. */
  lemma NoDropPasses(metrics: seq<Metric>, look: Lookup)
    requires AllFound(metrics, look)
    requires forall i :: 0 <= i < |metrics| ==> metrics[i].maxDrop >= 0.0
    requires forall i :: 0 <= i < |metrics| ==> look(metrics[i].path).value >= metrics[i].baseline
    ensures ChecksOf(metrics, look).Ok?
    ensures ExitCodeOf(ReportOf(ChecksOf(metrics, look).value)) == 0
  {
    ChecksOk(metrics, look);
    ExitCodeMeaning(metrics, look);
  }

  /** One metric of the loop: look it up and compare, or stop with the lookup's error. */
  method CheckMetric(m: Metric, payload: Json, parseReal: string -> Option<real>) returns (r: Result<Check, GateError>)
    ensures ValueOf(payload, m.path, parseReal).Err? ==> r == Err(ValueOf(payload, m.path, parseReal).error)
    ensures ValueOf(payload, m.path, parseReal).Ok? ==> r == Ok(CheckOf(m, ValueOf(payload, m.path, parseReal).value))
  {
    var current := ValueAtPath(payload, m.path, parseReal);
    if current.Err? {
      return Err(current.error);
    }
    var minAllowed := m.baseline - m.maxDrop;
    var passed := current.value >= minAllowed;
    return Ok(Check(m.path, m.baseline, current.value, m.maxDrop, minAllowed, current.value - m.baseline, passed));
  }

  /**
   * `run` after reading both files: the loop appends a check per metric and counts the
   * failures; the report and exit code follow, or the first lookup error ends the run.
   */
  method RunGate(metrics: seq<Metric>, payload: Json, parseReal: string -> Option<real>)
    returns (r: Result<(Report, int), GateError>)
    ensures ChecksOf(metrics, PathLookup(payload, parseReal)).Err? ==>
      r == Err(ChecksOf(metrics, PathLookup(payload, parseReal)).error)
    ensures ChecksOf(metrics, PathLookup(payload, parseReal)).Ok? ==>
      r == Ok((ReportOf(ChecksOf(metrics, PathLookup(payload, parseReal)).value),
               ExitCodeOf(ReportOf(ChecksOf(metrics, PathLookup(payload, parseReal)).value))))
  {
    var look := PathLookup(payload, parseReal);
    var checks: seq<Check> := [];
    var failures := 0;
    var i := 0;
    while i < |metrics|
      invariant 0 <= i <= |metrics|
      invariant ChecksOf(metrics[..i], look) == Ok(checks)
      invariant failures == CountIf(checks, Failing)
    {
      var c := CheckMetric(metrics[i], payload, parseReal);
      assert look(metrics[i].path) == ValueOf(payload, metrics[i].path, parseReal);
      if c.Err? {
        ChecksStop(metrics, i, look);
        return Err(c.error);
      }
      ChecksStep(metrics, i, look, checks);
      if !c.value.passed {
        failures := failures + 1;
      }
      assert (checks + [c.value])[..|checks|] == checks;
      checks := checks + [c.value];
      i := i + 1;
    }
    assert metrics[..i] == metrics;
    var report := Report(|checks|, failures, failures == 0, checks);
    var code := if failures > 0 then 1 else 0;
    return Ok((report, code));
  }

  /** One more metric found extends the checks by its own check. */
  lemma ChecksStep(metrics: seq<Metric>, i: nat, look: Lookup, checks: seq<Check>)
    requires i < |metrics|
    requires ChecksOf(metrics[..i], look) == Ok(checks)
    requires look(metrics[i].path).Ok?
    ensures ChecksOf(metrics[..i + 1], look) == Ok(checks + [CheckOf(metrics[i], look(metrics[i].path).value)])
  {
    assert metrics[..i + 1][..i] == metrics[..i];
  }

  /** A lookup error at metric i, after the earlier ones all succeeded, is the run's error. */
  lemma ChecksStop(metrics: seq<Metric>, i: nat, look: Lookup)
    requires i < |metrics|
    requires ChecksOf(metrics[..i], look).Ok?
    requires look(metrics[i].path).Err?
    ensures ChecksOf(metrics, look) == Err(look(metrics[i].path).error)
  {
    var e := look(metrics[i].path).error;
    assert metrics[..i + 1][..i] == metrics[..i];
    assert ChecksOf(metrics[..i + 1], look) == Err(e);
    ChecksErrSticks(metrics, i + 1, look, e);
  }

  /** Once the checks of a prefix end in an error, the checks of the whole list end in it. */
  lemma {:induction false} ChecksErrSticks(metrics: seq<Metric>, k: nat, look: Lookup, e: GateError)
    requires k <= |metrics|
    requires ChecksOf(metrics[..k], look) == Err(e)
    ensures ChecksOf(metrics, look) == Err(e)
    decreases |metrics| - k
  {
    if k == |metrics| {
      assert metrics[..k] == metrics;
    } else {
      assert metrics[..k + 1][..k] == metrics[..k];
      ChecksErrSticks(metrics, k + 1, look, e);
    }
  }
}
