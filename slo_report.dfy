// The SLO observability report (scripts/slo_observability_report.py): the runs of the smoke and
// the deploy workflow summarised, and alerts raised when either has no runs or misses its
// success-rate objective. Fetching the runs is left out: they are an input.

module SloReport {
  import opened Common
  import opened OpsReports
  import CostGovernance

  /** `_summarize_named_runs` reads a run's name and conclusion as `str(value or "")`. */
  function NameOf(run: Run): string { OrDefault(run.name, "") }

  function ConclusionOf(run: Run): string { OrDefault(run.conclusion, "") }

  /** `[run for run in runs if str(run.get("name") or "") == workflow_name]` */
  function Selected(runs: seq<Run>, workflow: string): (r: seq<Run>)
    ensures |r| <= |runs|
    ensures forall i :: 0 <= i < |r| ==> NameOf(r[i]) == workflow
  {
    if runs == [] then []
    else Selected(runs[..|runs| - 1], workflow)
         + (if NameOf(runs[|runs| - 1]) == workflow then [runs[|runs| - 1]] else [])
  }

  /** Runs of two different workflows never overlap, so together they are at most all runs. */
  lemma {:induction false} SelectedDisjoint(runs: seq<Run>, a: string, b: string)
    requires a != b
    ensures |Selected(runs, a)| + |Selected(runs, b)| <= |runs|
  {
    if runs != [] {
      SelectedDisjoint(runs[..|runs| - 1], a, b);
    }
  }

  /** Every run of the workflow is selected, in order. */
  lemma {:induction false} SelectedKeeps(runs: seq<Run>, workflow: string, i: nat)
    requires i < |runs| && NameOf(runs[i]) == workflow
    ensures runs[i] in Selected(runs, workflow)
  {
    if i < |runs| - 1 {
      SelectedKeeps(runs[..|runs| - 1], workflow, i);
    }
  }

  /** The counters of the loop over the selected runs. */
  datatype Tally = Tally(success: nat, failed: nat, cancelled: nat, minutes: real)

  function TallyOf(selected: seq<Run>, seconds: string -> real): Tally
  {
    if selected == [] then Tally(0, 0, 0, 0.0)
    else
      var t := TallyOf(selected[..|selected| - 1], seconds);
      var run := selected[|selected| - 1];
      var c := Classify(ConclusionOf(run));
      Tally(t.success + (if c == Succeeded then 1 else 0), t.failed + (if c == Failed then 1 else 0),
            t.cancelled + (if c == Cancelled then 1 else 0), t.minutes + DurationMinutes(run, seconds))
  }

  /** A run counts in at most one of the three buckets; runs with any other conclusion in none. */
  lemma {:induction false} TallyBounds(selected: seq<Run>, seconds: string -> real)
    ensures var t := TallyOf(selected, seconds);
      t.success + t.failed + t.cancelled <= |selected| && t.minutes >= 0.0
  {
    if selected != [] {
      TallyBounds(selected[..|selected| - 1], seconds);
    }
  }

  /** The summary of one workflow. */
  datatype NamedSummary = NamedSummary(workflowName: string, runs: nat, successRuns: nat, failedRuns: nat,
                                       cancelledRuns: nat, successRate: real, failureRate: real,
                                       runtimeMinutes: real)

  /** `round((count / total) if total else 0.0, 4)` */
  function RateOf(count: nat, total: nat): (rate: real)
    requires count <= total
    ensures 0.0 <= rate <= 1.0
    ensures total == 0 ==> rate == 0.0
    ensures total > 0 ==> rate == Round(count as real / total as real, Digits4)
    ensures total > 0 && count == total ==> rate == 1.0
  {
    RoundOfInt(0, Digits4);
    RoundOfInt(1, Digits4);
    if total == 0 then 0.0
    else
      RatioFacts(count, total);
      RoundUnit(count as real / total as real, Digits4);
      Round(count as real / total as real, Digits4)
  }

  /** `_summarize_named_runs` */
  function SummaryOf(runs: seq<Run>, workflow: string, seconds: string -> real): (s: NamedSummary)
    ensures s.workflowName == workflow && s.runs == |Selected(runs, workflow)|
    ensures s.successRuns + s.failedRuns + s.cancelledRuns <= s.runs
    ensures 0.0 <= s.successRate <= 1.0 && 0.0 <= s.failureRate <= 1.0
    ensures s.runs == 0 ==> s.successRate == 0.0 && s.failureRate == 0.0 && s.successRuns == 0
  {
    var selected := Selected(runs, workflow);
    var t := TallyOf(selected, seconds);
    TallyBounds(selected, seconds);
    NamedSummary(workflow, |selected|, t.success, t.failed, t.cancelled, RateOf(t.success, |selected|),
                 RateOf(t.failed, |selected|), Round(t.minutes, Digits2))
  }

  /** The smoke and deploy summaries of different workflows count disjoint runs. */
  lemma SummariesDisjoint(runs: seq<Run>, smoke: string, deploy: string, seconds: string -> real)
    requires smoke != deploy
    ensures SummaryOf(runs, smoke, seconds).runs + SummaryOf(runs, deploy, seconds).runs <= |runs|
  {
    SelectedDisjoint(runs, smoke, deploy);
  }

  /** A summary's runtime of runs that each took some time is not negative. */
  lemma SummaryRuntime(runs: seq<Run>, workflow: string, seconds: string -> real)
    ensures SummaryOf(runs, workflow, seconds).runtimeMinutes >= 0.0
  {
    var selected := Selected(runs, workflow);
    TallyBounds(selected, seconds);
    RoundOfInt(0, Digits2);
    RoundMonotone(0.0, TallyOf(selected, seconds).minutes, Digits2);
  }

  method SelectRuns(runs: seq<Run>, workflow: string) returns (selected: seq<Run>)
    ensures selected == Selected(runs, workflow)
  {
    selected := [];
    for i := 0 to |runs|
      invariant selected == Selected(runs[..i], workflow)
    {
      assert runs[..i + 1][..i] == runs[..i];
      if OrDefault(runs[i].name, "") == workflow {
        selected := selected + [runs[i]];
      }
    }
    assert runs[..|runs|] == runs;
  }

  method CountSelected(selected: seq<Run>, seconds: string -> real) returns (t: Tally)
    ensures t == TallyOf(selected, seconds)
  {
    var success, failed, cancelled := 0, 0, 0;
    var minutes := 0.0;
    for i := 0 to |selected|
      invariant Tally(success, failed, cancelled, minutes) == TallyOf(selected[..i], seconds)
    {
      assert selected[..i + 1][..i] == selected[..i];
      var run := selected[i];
      minutes := minutes + DurationMinutes(run, seconds);
      var conclusion := OrDefault(run.conclusion, "");
      if conclusion == "success" {
        success := success + 1;
      } else if conclusion in {"failure", "timed_out", "action_required"} {
        failed := failed + 1;
      } else if conclusion in {"cancelled", "skipped"} {
        cancelled := cancelled + 1;
      }
    }
    assert selected[..|selected|] == selected;
    t := Tally(success, failed, cancelled, minutes);
  }

  /** `_summarize_named_runs` */
  method SummarizeNamedRuns(runs: seq<Run>, workflow: string, seconds: string -> real) returns (s: NamedSummary)
    ensures s == SummaryOf(runs, workflow, seconds)
  {
    var selected := SelectRuns(runs, workflow);
    var t := CountSelected(selected, seconds);
    TallyBounds(selected, seconds);
    var total := |selected|;
    s := NamedSummary(workflow, total, t.success, t.failed, t.cancelled, RateOf(t.success, total),
                      RateOf(t.failed, total), Round(t.minutes, Digits2));
  }

  /** `_build_alerts`: for each signal, no runs is a warning; a missed objective is critical for smoke and a warning for deploy. */
  function AlertsOf(smoke: NamedSummary, deploy: NamedSummary, smokeSlo: real, deploySlo: real): seq<Alert>
  {
    (if smoke.runs == 0 then [Alert("warn", "smoke", NoRuns)]
     else if smoke.successRate < smokeSlo then [Alert("critical", "smoke", BelowSlo(smoke.successRate, smokeSlo))]
     else [])
    + (if deploy.runs == 0 then [Alert("warn", "deploy", NoRuns)]
       else if deploy.successRate < deploySlo then [Alert("warn", "deploy", BelowSlo(deploy.successRate, deploySlo))]
       else [])
  }

  /**
   * At most one alert per signal; an alert for a signal exactly when it has no runs or misses
   * its objective; only a smoke alert can be critical, and it is critical exactly when smoke
   * has runs and misses its objective.
   */
  lemma AlertsShape(smoke: NamedSummary, deploy: NamedSummary, smokeSlo: real, deploySlo: real)
    ensures var a := AlertsOf(smoke, deploy, smokeSlo, deploySlo);
      Graded(a) && |a| <= 2 &&
      (forall i, j :: 0 <= i < |a| && 0 <= j < |a| && a[i].source == a[j].source ==> i == j) &&
      (forall i :: 0 <= i < |a| && a[i].source == "deploy" ==> a[i].level == "warn") &&
      (forall i :: 0 <= i < |a| && a[i].level == "critical" ==>
         a[i].source == "smoke" && smoke.runs > 0 && smoke.successRate < smokeSlo)
    ensures (exists i :: 0 <= i < |AlertsOf(smoke, deploy, smokeSlo, deploySlo)| &&
               AlertsOf(smoke, deploy, smokeSlo, deploySlo)[i].source == "smoke")
            <==> smoke.runs == 0 || smoke.successRate < smokeSlo
    ensures (exists i :: 0 <= i < |AlertsOf(smoke, deploy, smokeSlo, deploySlo)| &&
               AlertsOf(smoke, deploy, smokeSlo, deploySlo)[i].source == "deploy")
            <==> deploy.runs == 0 || deploy.successRate < deploySlo
  {
    var a := AlertsOf(smoke, deploy, smokeSlo, deploySlo);
    if smoke.runs == 0 || smoke.successRate < smokeSlo {
      assert a[0].source == "smoke";
    }
    if deploy.runs == 0 || deploy.successRate < deploySlo {
      assert a[|a| - 1].source == "deploy";
    }
  }

  /** A workflow whose every selected run succeeded meets any objective up to 100%. */
  lemma AllSuccessNoAlert(smoke: NamedSummary, deploy: NamedSummary, smokeSlo: real, deploySlo: real)
    requires smoke.runs > 0 && smoke.successRate == 1.0 && smokeSlo <= 1.0
    requires deploy.runs > 0 && deploy.successRate == 1.0 && deploySlo <= 1.0
    ensures AlertsOf(smoke, deploy, smokeSlo, deploySlo) == []
  {
  }

  method BuildAlerts(smoke: NamedSummary, deploy: NamedSummary, smokeSlo: real, deploySlo: real) returns (alerts: seq<Alert>)
    ensures alerts == AlertsOf(smoke, deploy, smokeSlo, deploySlo)
  {
    alerts := [];
    if smoke.runs == 0 {
      alerts := alerts + [Alert("warn", "smoke", NoRuns)];
    } else if smoke.successRate < smokeSlo {
      alerts := alerts + [Alert("critical", "smoke", BelowSlo(smoke.successRate, smokeSlo))];
    }
    if deploy.runs == 0 {
      alerts := alerts + [Alert("warn", "deploy", NoRuns)];
    } else if deploy.successRate < deploySlo {
      alerts := alerts + [Alert("warn", "deploy", BelowSlo(deploy.successRate, deploySlo))];
    }
  }

  /** The start of `run`: here the token is checked before the repository is parsed. */
  function Preflight(repo: string, ghToken: string): (r: Result<(string, string), string>)
    ensures ghToken == "" ==> r == Err("Missing GitHub token. Set --gh-token or GITHUB_TOKEN.")
    ensures ghToken != "" ==> r == ParseRepo(repo)
  {
    if ghToken == "" then Err("Missing GitHub token. Set --gh-token or GITHUB_TOKEN.") else ParseRepo(repo)
  }

  /**
   * The two reports accept the same arguments and parse them alike; they differ only in which
   * error a bad repository without a token reports, because they check in opposite orders.
   */
  lemma PreflightsAgree(repo: string, ghToken: string)
    ensures Preflight(repo, ghToken).Ok? <==> CostGovernance.Preflight(repo, ghToken).Ok?
    ensures Preflight(repo, ghToken).Ok? ==> Preflight(repo, ghToken) == CostGovernance.Preflight(repo, ghToken)
    ensures Preflight(repo, ghToken) != CostGovernance.Preflight(repo, ghToken) <==>
      ghToken == "" && ParseRepo(repo).Err?
  {
  }
}
