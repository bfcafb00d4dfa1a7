// What the two operations reports share (scripts/cost_governance_snapshot.py and
// scripts/slo_observability_report.py, which define these helpers identically): the
// owner/name repository argument, a workflow run's duration, the conclusion classes, the alert
// levels and the fail-on-level exit rule.

module OpsReports {
  import opened Common
  import opened Text

  const RepoError := "Invalid --repo value. Expected owner/name."

  /** `_parse_repo`: split at the first '/', trim both parts, and refuse a missing or empty part. */
  function ParseRepo(repo: string): (r: Result<(string, string), string>)
    ensures r.Err? ==> r.error == RepoError
    ensures '/' !in repo ==> r.Err?
    ensures r.Ok? ==> r.value.0 != "" && r.value.1 != "" && '/' !in r.value.0
    ensures r.Ok? ==> exists i :: 0 <= i < |repo| && repo[i] == '/' && '/' !in repo[..i]
                        && r.value.0 == Strip(repo[..i]) && r.value.1 == Strip(repo[i + 1..])
  {
    var i := IndexOf(repo, '/');
    if i == |repo| then Err(RepoError)
    else
      var owner := Strip(repo[..i]);
      var name := Strip(repo[i + 1..]);
      assert repo[i] == '/' && '/' !in repo[..i];
      StripInside(repo[..i]);
      if owner == "" || name == "" then Err(RepoError) else Ok((owner, name))
  }

  /** Stripping keeps a character out of a string that did not hold it. */
  lemma StripInside(s: string)
    ensures forall c :: c !in s ==> c !in Strip(s)
  {
    StripSub(s);
  }

  /** Trimmed, non-empty parts joined by '/' parse back into themselves. */
  lemma ParseRepoRoundTrip(owner: string, name: string)
    requires owner != "" && name != "" && Strip(owner) == owner && Strip(name) == name
    requires '/' !in owner
    ensures ParseRepo(owner + "/" + name) == Ok((owner, name))
  {
    var repo := owner + "/" + name;
    assert repo[|owner|] == '/';
    assert forall k :: 0 <= k < |owner| ==> repo[k] == owner[k];
    assert IndexOf(repo, '/') == |owner|;
    assert repo[..|owner|] == owner && repo[|owner| + 1..] == name;
  }

  /** A run as the GitHub API lists it; a missing or null field is None. */
  datatype Run = Run(name: Option<string>, conclusion: Option<string>, runStartedAt: Option<string>,
                     createdAt: Option<string>, updatedAt: Option<string>)

  /** `a or b` on optional strings: a when it is a non-empty string, b otherwise. */
  function OrStr(a: Option<string>, b: Option<string>): (r: Option<string>)
    ensures a.Some? && a.value != "" ==> r == a
    ensures !(a.Some? && a.value != "") ==> r == b
  {
    if a.Some? && a.value != "" then a else b
  }

  /** `str(value or default)` on an optional string. */
  function OrDefault(a: Option<string>, default: string): (r: string)
    ensures r == "" ==> default == ""
  {
    if a.Some? && a.value != "" then a.value else default
  }

  /**
   * `_duration_minutes`: the run's start (or, failing that, its creation) to its last update,
   * never negative, and 0.0 when a timestamp is missing. `seconds` reads an ISO timestamp.
   */
  function DurationMinutes(run: Run, seconds: string -> real): (m: real)
    ensures m >= 0.0
    ensures OrStr(run.runStartedAt, run.createdAt).None? || run.updatedAt.None? ==> m == 0.0
    ensures OrStr(run.runStartedAt, run.createdAt).Some? && run.updatedAt.Some? ==>
      m * 60.0 == MaxReal(seconds(run.updatedAt.value) - seconds(OrStr(run.runStartedAt, run.createdAt).value), 0.0)
  {
    var started := OrStr(run.runStartedAt, run.createdAt);
    if started.None? || run.updatedAt.None? then 0.0
    else MaxReal(seconds(run.updatedAt.value) - seconds(started.value), 0.0) / 60.0
  }

  /** A run that ends no later than it starts takes no time; one that ends later takes some. */
  lemma DurationSign(run: Run, seconds: string -> real)
    requires OrStr(run.runStartedAt, run.createdAt).Some? && run.updatedAt.Some?
    ensures DurationMinutes(run, seconds) > 0.0 <==>
      seconds(run.updatedAt.value) > seconds(OrStr(run.runStartedAt, run.createdAt).value)
  {
  }

  /** The buckets a run's conclusion falls in. */
  datatype ConclusionClass = Succeeded | Failed | Cancelled | Other

  /** The if/elif chain on a conclusion. */
  function Classify(conclusion: string): (c: ConclusionClass)
    ensures c == Succeeded <==> conclusion == "success"
    ensures c == Failed <==> conclusion in {"failure", "timed_out", "action_required"}
    ensures c == Cancelled <==> conclusion in {"cancelled", "skipped"}
  {
    if conclusion == "success" then Succeeded
    else if conclusion in {"failure", "timed_out", "action_required"} then Failed
    else if conclusion in {"cancelled", "skipped"} then Cancelled
    else Other
  }

  /** An alert: its level ("warn" or "critical"), the signal it is about, and why. */
  datatype Alert = Alert(level: string, source: string, cause: Cause)

  /** What an alert's message reports, with the figures it prints. */
  datatype Cause =
    | RuntimeMinutes(minutes: real, threshold: real)
    | FailureRate(rate: real, threshold: real)
    | DeploymentVolume(deployments: int, limit: int)
    | NoRuns
    | BelowSlo(successRate: real, slo: real)

  /** `_level_rank`: none, warn and critical rank 0, 1 and 2; anything else ranks 0. */
  function LevelRank(level: string): (rank: nat)
    ensures rank <= 2
    ensures rank == 1 <==> level == "warn"
    ensures rank == 2 <==> level == "critical"
  {
    if level == "warn" then 1 else if level == "critical" then 2 else 0
  }

  /** `any(_level_rank(alert.level) >= threshold for alert in alerts)` */
  predicate AnyAtOrAbove(alerts: seq<Alert>, rank: nat)
  {
    exists i :: 0 <= i < |alerts| && LevelRank(alerts[i].level) >= rank
  }

  /** The exit code: 1 when the fail level is not "none" and some alert reaches its rank. */
  function ExitCode(failLevel: string, alerts: seq<Alert>): (code: int)
    ensures code == 1 <==> failLevel != "none" && AnyAtOrAbove(alerts, LevelRank(failLevel))
    ensures code == 0 || code == 1
  {
    if failLevel != "none" && AnyAtOrAbove(alerts, LevelRank(failLevel)) then 1 else 0
  }

  /** Every alert is a warning or critical. */
  predicate Graded(alerts: seq<Alert>)
  {
    forall i :: 0 <= i < |alerts| ==> alerts[i].level in {"warn", "critical"}
  }

  /**
   * For the levels the command line accepts: "none" never fails, "warn" fails on any alert,
   * and "critical" fails exactly when some alert is critical.
   */
  lemma ExitCodeLevels(alerts: seq<Alert>)
    requires Graded(alerts)
    ensures ExitCode("none", alerts) == 0
    ensures ExitCode("warn", alerts) == 1 <==> alerts != []
    ensures ExitCode("critical", alerts) == 1 <==> exists i :: 0 <= i < |alerts| && alerts[i].level == "critical"
  {
    if alerts != [] {
      assert LevelRank(alerts[0].level) >= 1;
    }
  }

  /** A stricter fail level never fails a run that a laxer one passes. */
  lemma ExitCodeMonotone(alerts: seq<Alert>, lax: string, strict: string)
    requires lax != "none" && strict != "none"
    requires LevelRank(lax) <= LevelRank(strict)
    ensures ExitCode(strict, alerts) <= ExitCode(lax, alerts)
  {
    if ExitCode(strict, alerts) == 1 {
      var i :| 0 <= i < |alerts| && LevelRank(alerts[i].level) >= LevelRank(strict);
      assert LevelRank(alerts[i].level) >= LevelRank(lax);
    }
  }
}
