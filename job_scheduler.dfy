// The scheduled X pipeline (backend/app/services/job_scheduler.py): handle slugs for run
// directories, the configured handle list, the retry loop of one handle's run with its
// exponential backoff, and `trigger_once` with the last-run record per handle.

module JobScheduler {
  import opened Common
  import opened Text
  import opened Collections

  /** The characters `[a-z0-9_]` a slug keeps. */
  predicate IsSlugChar(c: char)
  {
    IsAsciiLower(c) || IsAsciiDigit(c) || c == '_'
  }

  /** Length of the run of characters outside `[a-z0-9_]` at the start of s. */
  function NonSlugRun(s: string): (n: nat)
    ensures n <= |s|
    ensures forall i :: 0 <= i < n ==> !IsSlugChar(s[i])
    ensures n < |s| ==> IsSlugChar(s[n])
    ensures s != [] && !IsSlugChar(s[0]) ==> n > 0
  {
    if s == [] || IsSlugChar(s[0]) then 0 else 1 + NonSlugRun(s[1..])
  }

  /** Only slug characters and '-', never two '-' in a row. */
  predicate DashSeparated(s: string)
  {
    (forall i :: 0 <= i < |s| ==> IsSlugChar(s[i]) || s[i] == '-') &&
    (forall i :: 0 <= i < |s| - 1 ==> !(s[i] == '-' && s[i + 1] == '-'))
  }

  lemma DashSeparatedSlice(s: string, a: nat, b: nat)
    requires DashSeparated(s) && a <= b <= |s|
    ensures DashSeparated(s[a..b])
  {
    var t := s[a..b];
    assert forall i :: 0 <= i < |t| ==> t[i] == s[a + i];
  }

  /** `re.sub(r"[^a-z0-9_]+", "-", s)`: each maximal run of other characters becomes one '-'. */
  function SubRuns(s: string): (r: string)
    ensures DashSeparated(r)
    ensures s != [] && IsSlugChar(s[0]) ==> r != [] && r[0] == s[0]
    ensures r == [] <==> s == []
    decreases |s|
  {
    if s == [] then []
    else if IsSlugChar(s[0]) then
      var rest := SubRuns(s[1..]);
      assert forall i :: 0 < i < |rest| + 1 ==> ([s[0]] + rest)[i] == rest[i - 1];
      [s[0]] + rest
    else
      var rest := SubRuns(s[NonSlugRun(s)..]);
      assert forall i :: 0 < i < |rest| + 1 ==> ("-" + rest)[i] == rest[i - 1];
      "-" + rest
  }

  /** The substitution keeps exactly the slug characters of its input, in order. */
  lemma {:induction false} SubRunsKeepsSlugChars(s: string)
    ensures Filter(SubRuns(s), IsSlugChar) == Filter(s, IsSlugChar)
    decreases |s|
  {
    if s != [] {
      if IsSlugChar(s[0]) {
        SubRunsKeepsSlugChars(s[1..]);
        assert ([s[0]] + SubRuns(s[1..]))[1..] == SubRuns(s[1..]);
      } else {
        var n := NonSlugRun(s);
        SubRunsKeepsSlugChars(s[n..]);
        assert ("-" + SubRuns(s[n..]))[1..] == SubRuns(s[n..]);
        FilterDropsRun(s, n);
      }
    }
  }

  /** A leading run of rejected characters does not change what the filter keeps. */
  lemma {:induction false} FilterDropsRun(s: string, n: nat)
    requires n <= |s|
    requires forall i :: 0 <= i < n ==> !IsSlugChar(s[i])
    ensures Filter(s, IsSlugChar) == Filter(s[n..], IsSlugChar)
  {
    if n > 0 {
      assert s[1..][n - 1..] == s[n..];
      FilterDropsRun(s[1..], n - 1);
    }
  }

  /**
   * What `_slug_handle` promises: a non-empty run of `[a-z0-9_]` and single '-' separators,
   * with no '-' at either end.
   */
  predicate SlugShaped(s: string)
  {
    s != [] && s[0] != '-' && s[|s| - 1] != '-' && DashSeparated(s)
  }

  const FallbackSlug := "target"

  /**
   * `_slug_handle`: trimmed, '@' dropped from the front, lower-cased, every run of other
   * characters turned into one '-', '-' stripped from both ends; "target" when nothing is left.
   */
  function SlugHandle(handle: string): (slug: string)
    ensures SlugShaped(slug)
  {
    var raw := Lower(LStripChar(Strip(handle), '@'));
    var t := StripChar(SubRuns(raw), '-');
    SliceOfSubRuns(raw);
    FallbackShaped();
    if t == [] then FallbackSlug else t
  }

  /** Stripping '-' from the substituted text leaves a slug-shaped string or nothing. */
  lemma SliceOfSubRuns(raw: string)
    ensures var t := StripChar(SubRuns(raw), '-'); t == [] || SlugShaped(t)
  {
    StripDashesShaped(SubRuns(raw));
  }

  /** Stripping '-' from both ends of a dash-separated string leaves a slug-shaped string or nothing. */
  lemma StripDashesShaped(r: string)
    requires DashSeparated(r)
    ensures var t := StripChar(r, '-'); t == [] || SlugShaped(t)
  {
    var l := LStripChar(r, '-');
    DashSeparatedSlice(r, |r| - |l|, |r|);
    var t := RStripChar(l, '-');
    DashSeparatedSlice(l, 0, |t|);
  }

  /** "target" is slug-shaped. */
  lemma FallbackShaped()
    ensures SlugShaped(FallbackSlug)
  {
    var f := FallbackSlug;
    assert forall i :: 0 <= i < |f| ==> IsAsciiLower(f[i]);
  }

  /** An empty or blank handle falls back to "target". */
  lemma SlugOfBlank(handle: string)
    requires IsBlank(handle)
    ensures SlugHandle(handle) == FallbackSlug
  {
    StripEmptyIffBlank(handle);
  }

  /** A slug-shaped string is its own slug. */
  lemma SlugOfShaped(s: string)
    requires SlugShaped(s)
    ensures SlugHandle(s) == s
  {
    assert !IsSpace(s[0]) && !IsSpace(s[|s| - 1]);
    StripOfTrimmed(s);
    assert LStripChar(s, '@') == s;
    LowerOfShaped(s);
    SubRunsOfShaped(s);
    assert StripChar(s, '-') == s;
  }

  lemma LowerOfShaped(s: string)
    requires DashSeparated(s)
    ensures Lower(s) == s
  {
    assert forall i :: 0 <= i < |s| ==> !IsUpper(s[i]);
  }

  /** The substitution leaves alone text made of slug characters and single '-'. */
  lemma {:induction false} SubRunsOfShaped(s: string)
    requires DashSeparated(s)
    ensures SubRuns(s) == s
    decreases |s|
  {
    if s != [] {
      DashSeparatedSlice(s, 1, |s|);
      if IsSlugChar(s[0]) {
        SubRunsOfShaped(s[1..]);
        assert s == [s[0]] + s[1..];
      } else {
        assert |s| > 1 ==> IsSlugChar(s[1]);
        assert NonSlugRun(s) == 1;
        SubRunsOfShaped(s[1..]);
        assert s == "-" + s[1..];
      }
    }
  }

  /** `_slug_handle` is idempotent. */
  lemma SlugIdempotent(handle: string)
    ensures SlugHandle(SlugHandle(handle)) == SlugHandle(handle)
  {
    SlugOfShaped(SlugHandle(handle));
  }

  /** One configured entry: trimmed, dropped when blank, '@'-prefixed when it lacks one. */
  function CleanHandle(h: string): (r: Option<string>)
    ensures r.None? <==> IsBlank(h)
    ensures r.Some? ==> r.value != [] && r.value[0] == '@' && Strip(r.value) == r.value
  {
    var cleaned := Strip(h);
    StripEmptyIffBlank(h);
    if cleaned == [] then None
    else
      var r := if StartsWith(cleaned, "@") then cleaned else "@" + cleaned;
      StripOfTrimmed(r);
      Some(r)
  }

  /** The handles `_handles` yields: each non-blank configured entry, cleaned, in order. */
  function ConfiguredHandles(cfg: seq<string>): (hs: seq<string>)
    ensures |hs| <= |cfg|
    ensures forall k :: 0 <= k < |hs| ==> hs[k] != [] && hs[k][0] == '@' && Strip(hs[k]) == hs[k]
  {
    if cfg == [] then []
    else
      var rest := ConfiguredHandles(cfg[..|cfg| - 1]);
      match CleanHandle(cfg[|cfg| - 1])
      case None => rest
      case Some(h) => rest + [h]
  }

  /** Every non-blank entry yields one handle, and only those. */
  lemma {:induction false} HandlesCountNonBlank(cfg: seq<string>)
    ensures |ConfiguredHandles(cfg)| == |cfg| - Occurrences(MapSeq(cfg, IsBlank), true)
  {
    if cfg != [] {
      var init := cfg[..|cfg| - 1];
      HandlesCountNonBlank(init);
      MapSeqSnoc(cfg);
      OccurrencesAppend(MapSeq(init, IsBlank), IsBlank(cfg[|cfg| - 1]));
    }
  }

  lemma MapSeqSnoc(cfg: seq<string>)
    requires cfg != []
    ensures MapSeq(cfg, IsBlank) == MapSeq(cfg[..|cfg| - 1], IsBlank) + [IsBlank(cfg[|cfg| - 1])]
  {
    var a, b := MapSeq(cfg, IsBlank), MapSeq(cfg[..|cfg| - 1], IsBlank) + [IsBlank(cfg[|cfg| - 1])];
    assert |a| == |b|;
    forall i | 0 <= i < |a| ensures a[i] == b[i] {
    }
  }

  lemma OccurrencesAppend(s: seq<bool>, x: bool)
    ensures Occurrences(s + [x], true) == Occurrences(s, true) + (if x then 1 else 0)
  {
    assert multiset(s + [x]) == multiset(s) + multiset{x};
  }

  /** Cleaning the cleaned handles again changes nothing. */
  lemma {:induction false} HandlesIdempotent(cfg: seq<string>)
    ensures ConfiguredHandles(ConfiguredHandles(cfg)) == ConfiguredHandles(cfg)
  {
    if cfg != [] {
      HandlesIdempotent(cfg[..|cfg| - 1]);
      var rest := ConfiguredHandles(cfg[..|cfg| - 1]);
      var c := CleanHandle(cfg[|cfg| - 1]);
      if c.Some? {
        var hs := rest + [c.value];
        assert hs[..|hs| - 1] == rest;
        StripEmptyIffBlank(c.value);
        assert StartsWith(c.value, "@");
      }
    }
  }

  /** `_handles`: the loop over the configured handles. */
  method Handles(cfg: seq<string>) returns (hs: seq<string>)
    ensures hs == ConfiguredHandles(cfg)
  {
    hs := [];
    var i := 0;
    while i < |cfg|
      invariant 0 <= i <= |cfg|
      invariant hs == ConfiguredHandles(cfg[..i])
    {
      assert cfg[..i + 1][..i] == cfg[..i];
      var cleaned := Strip(cfg[i]);
      if cleaned != [] {
        hs := hs + [if StartsWith(cleaned, "@") then cleaned else "@" + cleaned];
      }
      i := i + 1;
    }
    assert cfg[..i] == cfg;
  }

  /** `handle if handle.startswith("@") else f"@{handle}"` (no trimming). */
  function AtHandle(handle: string): (r: string)
    ensures r != [] && r[0] == '@'
    ensures handle != [] && handle[0] == '@' ==> r == handle
    ensures (handle == [] || handle[0] != '@') ==> r[1..] == handle
  {
    if StartsWith(handle, "@") then handle else "@" + handle
  }

  /** `max(60, interval_minutes * 60)`: the pause between rounds of the run loop, in seconds. */
  function IntervalSeconds(minutes: int): (s: int)
    ensures s >= 60
    ensures minutes >= 1 ==> s == minutes * 60
    ensures minutes < 1 ==> s == 60
  {
    MaxInt(60, minutes * 60)
  }

  /** `max(1, retry_attempts)` */
  function AttemptCount(retryAttempts: int): (n: nat)
    ensures n >= 1
    ensures retryAttempts >= 1 ==> n == retryAttempts
  {
    MaxInt(1, retryAttempts)
  }

  /** `max(0.1, retry_backoff_seconds)` */
  function Backoff(seconds: real): (b: real)
    ensures b >= 0.1 && (b == seconds || b == 0.1)
  {
    if seconds > 0.1 then seconds else 0.1
  }

  function Pow2(n: nat): (p: nat)
    ensures p >= 1
  {
    if n == 0 then 1 else 2 * Pow2(n - 1)
  }

  /** The sleeps before the retries: `backoff * 2 ** (attempt - 1)` after each failed attempt. */
  function BackoffDelays(backoff: real, n: nat): (ds: seq<real>)
    ensures |ds| == n
    ensures forall i :: 0 <= i < n ==> ds[i] == backoff * Pow2(i) as real
  {
    if n == 0 then [] else BackoffDelays(backoff, n - 1) + [backoff * Pow2(n - 1) as real]
  }

  /** The delays double, so n of them add up to `backoff * (2^n - 1)`. */
  lemma {:induction false} BackoffTotal(backoff: real, n: nat)
    ensures SumReal(BackoffDelays(backoff, n)) == backoff * (Pow2(n) - 1) as real
  {
    if n > 0 {
      BackoffTotal(backoff, n - 1);
      SumRealAppend(BackoffDelays(backoff, n - 1), backoff * Pow2(n - 1) as real);
    }
  }

  /**
   * One attempt of a run: the collection, the reports and the files written, either done
   * (with the drilldown's alert count and the run's timestamp) or failed with an error.
   */
  datatype Attempt = Collected(alerts: nat, stamp: string) | CollectFailed(error: string)

  /** The record `_run_for_handle` returns and keeps as the handle's last run. */
  datatype RunRecord =
    | RunSucceeded(handle: string, attempt: nat, runDir: string, alerts: nat)
    | RunFailed(handle: string, attempt: nat, error: string)

  /** Every attempt from `lo` up to but not including `hi` failed. */
  predicate FailedBetween(handle: string, collect: (string, nat) -> Attempt, lo: nat, hi: nat)
  {
    forall a :: lo <= a < hi ==> collect(handle, a).CollectFailed?
  }

  lemma FailedExtend(handle: string, collect: (string, nat) -> Attempt, lo: nat, hi: nat)
    requires collect(handle, lo).CollectFailed? && FailedBetween(handle, collect, lo + 1, hi)
    ensures FailedBetween(handle, collect, lo, hi)
  {
  }

  /** Every attempt before `attempt` failed. */
  predicate FailedThrough(handle: string, collect: (string, nat) -> Attempt, attempt: nat)
  {
    FailedBetween(handle, collect, 1, attempt)
  }

  /** `f"{slug}_{timestamp}"`, the run directory's name. */
  function RunDir(handle: string, stamp: string): string
  {
    SlugHandle(handle) + "_" + stamp
  }

  /**
   * The outcome of a run from attempt `attempt` on: the first attempt that succeeds, or the
   * error of the last when every one fails.
   */
  function OutcomeFrom(handle: string, attempt: nat, attempts: nat, collect: (string, nat) -> Attempt): (r: RunRecord)
    requires 1 <= attempt <= attempts
    ensures attempt <= r.attempt <= attempts && r.handle == handle
    ensures FailedBetween(handle, collect, attempt, r.attempt)
    ensures r.RunSucceeded? <==> collect(handle, r.attempt).Collected?
    ensures r.RunSucceeded? ==>
      r.alerts == collect(handle, r.attempt).alerts && r.runDir == RunDir(handle, collect(handle, r.attempt).stamp)
    ensures r.RunFailed? ==> r.attempt == attempts && r.error == collect(handle, attempts).error
    decreases attempts - attempt
  {
    match collect(handle, attempt)
    case Collected(alerts, stamp) => RunSucceeded(handle, attempt, RunDir(handle, stamp), alerts)
    case CollectFailed(error) =>
      if attempt < attempts then
        var r := OutcomeFrom(handle, attempt + 1, attempts, collect);
        FailedExtend(handle, collect, attempt, r.attempt);
        r
      else RunFailed(handle, attempt, error)
  }

  /** The outcome of a whole run: its attempts from the first. */
  function RunOutcome(handle: string, attempts: nat, collect: (string, nat) -> Attempt): (r: RunRecord)
    requires attempts >= 1
    ensures 1 <= r.attempt <= attempts && FailedThrough(handle, collect, r.attempt)
    ensures r.RunSucceeded? <==> collect(handle, r.attempt).Collected?
  {
    OutcomeFrom(handle, 1, attempts, collect)
  }

  /** A run fails only when every one of its attempts fails. */
  lemma RunFailsOnlyWhenAllFail(handle: string, attempts: nat, collect: (string, nat) -> Attempt)
    requires attempts >= 1
    ensures RunOutcome(handle, attempts, collect).RunFailed? <==> FailedThrough(handle, collect, attempts + 1)
  {
    var r := RunOutcome(handle, attempts, collect);
    if r.RunSucceeded? {
      assert collect(handle, r.attempt).Collected?;
    }
  }

  /** The webhook events a run sends when webhooks are on. */
  function WebhookEvents(r: RunRecord, send: bool): (events: seq<string>)
    ensures !send ==> events == []
    ensures send && r.RunFailed? ==> events == ["scheduled_pipeline_failed"]
    ensures send && r.RunSucceeded? ==> 1 <= |events| <= 2 && events[0] == "scheduled_pipeline_success"
    ensures send && r.RunSucceeded? ==> (|events| == 2 <==> r.alerts > 0)
  {
    if !send then []
    else match r
      case RunSucceeded(_, _, _, alerts) =>
        ["scheduled_pipeline_success"] + (if alerts > 0 then ["scheduled_pipeline_alerts"] else [])
      case RunFailed(_, _, _) => ["scheduled_pipeline_failed"]
  }

  /**
   * The retry loop of `_run_for_handle`: attempts in turn until one succeeds, sleeping the
   * doubling backoff after each failure but the last.
   */
  method RunAttempts(handle: string, attempts: nat, backoff: real, collect: (string, nat) -> Attempt)
    returns (r: RunRecord, delays: seq<real>)
    requires attempts >= 1
    ensures r == RunOutcome(handle, attempts, collect)
    ensures delays == BackoffDelays(backoff, r.attempt - 1)
  {
    delays := [];
    var attempt := 1;
    while true
      invariant 1 <= attempt <= attempts
      invariant OutcomeFrom(handle, attempt, attempts, collect) == RunOutcome(handle, attempts, collect)
      invariant delays == BackoffDelays(backoff, attempt - 1)
      decreases attempts - attempt
    {
      match collect(handle, attempt) {
        case Collected(alerts, stamp) =>
          return RunSucceeded(handle, attempt, RunDir(handle, stamp), alerts), delays;
        case CollectFailed(error) =>
          if attempt < attempts {
            delays := delays + [backoff * Pow2(attempt - 1) as real];
            attempt := attempt + 1;
          } else {
            return RunFailed(handle, attempt, error), delays;
          }
      }
    }
  }

  /** What `trigger_once` returns: one run, or the runs of every configured handle. */
  datatype Triggered = Single(run: RunRecord) | Batch(triggered: nat, results: seq<RunRecord>)

  /** `last_runs` after recording each run in turn under its lower-cased handle. */
  function Recorded(m: map<string, RunRecord>, runs: seq<RunRecord>): (m': map<string, RunRecord>)
    ensures forall k :: k in m' <==> k in m || exists i :: 0 <= i < |runs| && Lower(runs[i].handle) == k
  {
    if runs == [] then m
    else
      var last := runs[|runs| - 1];
      var init := Recorded(m, runs[..|runs| - 1]);
      assert forall i :: 0 <= i < |runs| - 1 ==> runs[..|runs| - 1][i] == runs[i];
      init[Lower(last.handle) := last]
  }

  /** The last run recorded for a handle is its latest run in the batch. */
  lemma {:induction false} RecordedLatest(m: map<string, RunRecord>, runs: seq<RunRecord>, i: nat)
    requires i < |runs|
    requires forall j :: i < j < |runs| ==> Lower(runs[j].handle) != Lower(runs[i].handle)
    ensures Recorded(m, runs)[Lower(runs[i].handle)] == runs[i]
  {
    if i < |runs| - 1 {
      var init := runs[..|runs| - 1];
      assert init[i] == runs[i];
      RecordedLatest(m, init, i);
    }
  }

  /** A handle's run with the given attempts and collector. */
  function RunOf(attempts: nat, collect: (string, nat) -> Attempt): (f: string -> RunRecord)
    requires attempts >= 1
    ensures forall h :: f(h) == RunOutcome(h, attempts, collect)
  {
    (h: string) => RunOutcome(h, attempts, collect)
  }

  /** The runs are the outcomes of the first handles, one each, in order. */
  ghost predicate RunsOf(runs: seq<RunRecord>, hs: seq<string>, attempts: nat, collect: (string, nat) -> Attempt)
  {
    attempts >= 1 && Pointwise(runs, hs, RunOf(attempts, collect))
  }

  lemma RunsOfSnoc(runs: seq<RunRecord>, next: seq<RunRecord>, hs: seq<string>, attempts: nat,
                   collect: (string, nat) -> Attempt)
    requires RunsOf(runs, hs, attempts, collect) && |runs| < |hs|
    requires next == runs + [RunOutcome(hs[|runs|], attempts, collect)]
    ensures RunsOf(next, hs, attempts, collect) && next[..|runs|] == runs
  {
    PointwiseSnoc(runs, hs, RunOf(attempts, collect));
  }

  /** The scheduler's state: the last run of each handle, keyed by the lower-cased handle. */
  class Scheduler {
    var lastRuns: map<string, RunRecord>

    constructor ()
      ensures lastRuns == map[]
    {
      lastRuns := map[];
    }

    /**
     * `_run_for_handle`: the run's outcome after at most `max(1, retry_attempts)` attempts, the
     * sleeps between them, the webhook events it sends, and its record as the handle's last run.
     */
    method RunForHandle(handle: string, retryAttempts: int, retryBackoff: real,
                        collect: (string, nat) -> Attempt, sendWebhooks: bool)
      returns (r: RunRecord, delays: seq<real>, events: seq<string>)
      modifies this
      ensures r == RunOutcome(handle, AttemptCount(retryAttempts), collect)
      ensures delays == BackoffDelays(Backoff(retryBackoff), r.attempt - 1)
      ensures events == WebhookEvents(r, sendWebhooks)
      ensures lastRuns == old(lastRuns)[Lower(handle) := r]
    {
      r, delays := RunAttempts(handle, AttemptCount(retryAttempts), Backoff(retryBackoff), collect);
      lastRuns := lastRuns[Lower(handle) := r];
      events := WebhookEvents(r, sendWebhooks);
    }

    /** The loop of `trigger_once` without a handle: each handle run once, in order. */
    method RunAll(hs: seq<string>, retryAttempts: int, retryBackoff: real,
                  collect: (string, nat) -> Attempt, sendWebhooks: bool)
      returns (results: seq<RunRecord>)
      modifies this
      ensures RunsOf(results, hs, AttemptCount(retryAttempts), collect) && |results| == |hs|
      ensures lastRuns == Recorded(old(lastRuns), results)
    {
      results := [];
      var i := 0;
      while i < |hs|
        invariant 0 <= i <= |hs| && |results| == i
        invariant RunsOf(results, hs, AttemptCount(retryAttempts), collect)
        invariant lastRuns == Recorded(old(lastRuns), results)
      {
        var r, _, _ := RunForHandle(hs[i], retryAttempts, retryBackoff, collect, sendWebhooks);
        var next := results + [r];
        RunsOfSnoc(results, next, hs, AttemptCount(retryAttempts), collect);
        results := next;
        i := i + 1;
      }
    }

    /**
     * `trigger_once`: a given non-empty handle is run alone, '@'-prefixed; otherwise every
     * configured handle is run once, in order, and `triggered` counts the runs.
     */
    method TriggerOnce(handle: Option<string>, cfg: seq<string>, retryAttempts: int, retryBackoff: real,
                       collect: (string, nat) -> Attempt, sendWebhooks: bool)
      returns (t: Triggered)
      modifies this
      ensures handle.Some? && handle.value != [] ==>
        t == Single(RunOutcome(AtHandle(handle.value), AttemptCount(retryAttempts), collect)) &&
        lastRuns == old(lastRuns)[Lower(AtHandle(handle.value)) := t.run]
      ensures (handle.None? || handle.value == []) ==>
        t.Batch? && t.triggered == |t.results| == |ConfiguredHandles(cfg)| &&
        RunsOf(t.results, ConfiguredHandles(cfg), AttemptCount(retryAttempts), collect) &&
        lastRuns == Recorded(old(lastRuns), t.results)
    {
      if handle.Some? && handle.value != [] {
        var r, _, _ := RunForHandle(AtHandle(handle.value), retryAttempts, retryBackoff, collect, sendWebhooks);
        return Single(r);
      }
      var hs := Handles(cfg);
      var results := RunAll(hs, retryAttempts, retryBackoff, collect, sendWebhooks);
      t := Batch(|results|, results);
    }
  }
}
