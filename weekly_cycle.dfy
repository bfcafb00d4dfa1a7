// One weekly evidence cycle (backend/scripts/run_weekly_talent_visa_cycle.py): the run id it
// builds, the input it demands, the previous run it picks and when it compares against it.

module WeeklyCycle {
  import opened Common
  import opened Text
  import opened Collections
  import opened PipelineRun

  /** The prefix used when the requested one keeps no character. */
  const DefaultPrefix := "weekly"

  /** Stripping a character from the ends of a run-id string leaves a run-id string. */
  lemma StripCharKeeps(s: string, c: char)
    requires IdChars(s)
    ensures IdChars(StripChar(s, c))
  {
    var l := LStripChar(s, c);
    IdCharsSlice(s, |s| - |l|, |s|);
    IdCharsSlice(l, 0, |RStripChar(l, c)|);
  }

  /** A slice of a run-id string is a run-id string. */
  lemma IdCharsSlice(s: string, a: int, b: int)
    requires IdChars(s) && 0 <= a <= b <= |s|
    ensures IdChars(s[a..b])
  {
    forall i | 0 <= i < b - a ensures IsIdChar(s[a..b][i]) {
      assert s[a..b][i] == s[a + i];
    }
  }

  /**
   * The prefix of a generated id: the run-id characters of the requested prefix, stripped of
   * '_' at both ends, or "weekly" when nothing is left.
   */
  function RunPrefix(prefix: string): (r: string)
    ensures r != [] && IdChars(r) && r[0] != '_' && r[|r| - 1] != '_'
    ensures StripChar(Filter(prefix, IsIdChar), '_') != [] ==> r == StripChar(Filter(prefix, IsIdChar), '_')
    ensures StripChar(Filter(prefix, IsIdChar), '_') == [] ==> r == DefaultPrefix
  {
    var kept := StripChar(Filter(prefix, IsIdChar), '_');
    StripCharKeeps(Filter(prefix, IsIdChar), '_');
    if kept != [] then kept else DefaultPrefix
  }

  /**
   * `_build_run_id`: the trimmed run id when it is not blank, otherwise the prefix, '_' and the
   * clock's `%Y%m%d_%H%M%S` stamp, given here as `timestamp`.
   */
  function BuildRunId(runId: string, prefix: string, timestamp: string): (r: string)
    ensures r != []
    ensures Strip(runId) != "" ==> r == Strip(runId)
    ensures Strip(runId) == "" ==> r == RunPrefix(prefix) + "_" + timestamp
  {
    if Strip(runId) != "" then Strip(runId) else RunPrefix(prefix) + "_" + timestamp
  }

  /** A generated id is made of run-id characters when the stamp is, and starts with its prefix. */
  lemma GeneratedIdShape(prefix: string, timestamp: string)
    requires IdChars(timestamp)
    ensures var r := BuildRunId("", prefix, timestamp);
      IdChars(r) && r[..|RunPrefix(prefix)|] == RunPrefix(prefix) && r[|RunPrefix(prefix)|] == '_'
  {
    GeneratedFromEmpty(prefix, timestamp);
    JoinedShape(RunPrefix(prefix), timestamp);
  }

  /** With no run id given, the id is generated. */
  lemma GeneratedFromEmpty(prefix: string, timestamp: string)
    ensures BuildRunId("", prefix, timestamp) == RunPrefix(prefix) + "_" + timestamp
  {
    assert Strip("") == "";
  }

  /** Two run-id strings joined by '_' make a run-id string that starts with the first and '_'. */
  lemma JoinedShape(p: string, t: string)
    requires IdChars(p) && IdChars(t)
    ensures var r := p + "_" + t; IdChars(r) && r[..|p|] == p && r[|p|] == '_'
  {
    assert IsIdChar('_');
    IdCharsConcat(p, "_");
    IdCharsConcat(p + "_", t);
    assert (p + "_" + t)[..|p|] == p;
  }

  /** Two run-id strings one after the other make a run-id string. */
  lemma IdCharsConcat(a: string, b: string)
    requires IdChars(a) && IdChars(b)
    ensures IdChars(a + b)
  {
    forall i | 0 <= i < |a + b| ensures IsIdChar((a + b)[i]) {
      if i >= |a| {
        assert (a + b)[i] == b[i - |a|];
      }
    }
  }

  /** A non-blank run id is used as it stands, trimmed, and trimming it again changes nothing. */
  lemma GivenIdKept(runId: string, prefix: string, timestamp: string)
    requires Strip(runId) != ""
    ensures BuildRunId(BuildRunId(runId, prefix, timestamp), prefix, timestamp) == BuildRunId(runId, prefix, timestamp)
  {
    StripIdempotent(runId);
  }

  /**
   * The directory name the script checks after the pipeline ran, as written: the id it built
   * and passed to the pipeline with `--run-id`.
   */
  function CheckedRunNameAsWritten(runId: string, prefix: string, timestamp: string): (r: string)
    ensures r == BuildRunId(runId, prefix, timestamp)
  {
    BuildRunId(runId, prefix, timestamp)
  }

  /**
   * The directory name the pipeline writes: it resolves the id it was given (never empty) as an
   * override, whatever the input digest.
   */
  function WrittenRunName(runId: string, prefix: string, timestamp: string, digest: string): (r: string)
    ensures r == SanitizeRunId(BuildRunId(runId, prefix, timestamp))
  {
    ResolveRunId(BuildRunId(runId, prefix, timestamp), digest)
  }

  /**
   * A run id with a character the pipeline drops, such as "a b", makes the pipeline write
   * "ab" while the script looks for "a b" and reports the run directory missing.
   */
  lemma CheckedNameMissesWrittenRun(digest: string)
    ensures CheckedRunNameAsWritten("a b", "weekly", "20260101_000000") == "a b"
    ensures WrittenRunName("a b", "weekly", "20260101_000000", digest) == "ab"
  {
    SampleTrimmed();
    SampleFiltered();
  }

  /** "a b" has no space at either end. */
  lemma SampleTrimmed()
    ensures Strip("a b") == "a b"
  {
    StripOfTrimmed("a b");
  }

  /** The pipeline keeps "ab" of "a b". */
  lemma SampleFiltered()
    ensures Filter("a b", IsIdChar) == "ab"
  {
    var s := "a b";
    assert s[1..] == " b" && s[1..][1..] == "b" && "b"[1..] == "";
  }

  /** The corrected name: the id the script built, resolved the way the pipeline resolves it. */
  function CurrentRunName(runId: string, prefix: string, timestamp: string): (r: string)
    ensures IdChars(r) && |r| <= MaxRunIdLength
  {
    SanitizeRunId(BuildRunId(runId, prefix, timestamp))
  }

  /** The corrected name is the directory the pipeline writes, for every input. */
  lemma CurrentRunNameIsWritten(runId: string, prefix: string, timestamp: string, digest: string)
    ensures CurrentRunName(runId, prefix, timestamp) == WrittenRunName(runId, prefix, timestamp, digest)
    ensures SanitizeRunId(CurrentRunName(runId, prefix, timestamp)) == CurrentRunName(runId, prefix, timestamp)
  {
    SanitizeIdempotent(BuildRunId(runId, prefix, timestamp));
  }

  /** The correction changes the name exactly when the built id is not already a clean, short id. */
  lemma CorrectionOnlyWhenDirty(runId: string, prefix: string, timestamp: string)
    ensures var built := BuildRunId(runId, prefix, timestamp);
      CurrentRunName(runId, prefix, timestamp) == built <==> IdChars(built) && |built| <= MaxRunIdLength
  {
    var built := BuildRunId(runId, prefix, timestamp);
    if IdChars(built) && |built| <= MaxRunIdLength {
      SanitizeKeepsClean(built);
    }
  }

  /** Where the pipeline takes its posts from. */
  datatype Source = InputFile(path: string) | Handle(handle: string)

  /**
   * The input check: an input file wins; otherwise a non-blank handle, trimmed, is collected;
   * with neither the script returns 1 before running anything.
   */
  function SourceOf(inputJson: string, handle: string): (r: Result<Source, int>)
    ensures inputJson != "" ==> r == Ok(InputFile(inputJson))
    ensures inputJson == "" && Strip(handle) == "" ==> r == Err(1)
    ensures inputJson == "" && Strip(handle) != "" ==> r == Ok(Handle(Strip(handle)))
  {
    if inputJson != "" then Ok(InputFile(inputJson))
    else if Strip(handle) == "" then Err(1)
    else Ok(Handle(Strip(handle)))
  }

  /** The script goes on exactly when it has an input file or a handle that is not blank. */
  lemma SourceRequired(inputJson: string, handle: string)
    ensures SourceOf(inputJson, handle).Ok? <==> inputJson != "" || !IsBlank(handle)
    ensures SourceOf(inputJson, handle).Ok? && SourceOf(inputJson, handle).value.Handle? ==>
      SourceOf(inputJson, handle).value.handle != ""
  {
    StripEmptyIffBlank(handle);
  }

  /** A run directory under the output root and its modification time. */
  datatype RunDir = RunDir(name: string, mtime: real)

  /** `_run_dirs`' sort key: the older directory comes first. */
  function OlderOrSame(): (le: (RunDir, RunDir) -> bool)
  {
    (a: RunDir, b: RunDir) => a.mtime <= b.mtime
  }

  /** `_run_dirs`: the directories ordered by modification time, ties in listing order. */
  function RunDirs(dirs: seq<RunDir>): (r: seq<RunDir>)
    ensures multiset(r) == multiset(dirs)
  {
    SortBy(dirs, OlderOrSame())
  }

  /** The previous run: the last of the sorted directories, if there is any. */
  function PreviousRun(dirs: seq<RunDir>): (r: Option<RunDir>)
    ensures r.None? <==> dirs == []
  {
    var sorted := RunDirs(dirs);
    if sorted == [] then None else Some(sorted[|sorted| - 1])
  }

  /** The previous run is one of the directories, and none of them is newer. */
  lemma PreviousIsLatest(dirs: seq<RunDir>)
    requires dirs != []
    ensures PreviousRun(dirs).value in dirs
    ensures forall d :: d in dirs ==> d.mtime <= PreviousRun(dirs).value.mtime
  {
    var sorted := RunDirs(dirs);
    var last := |sorted| - 1;
    assert sorted[last] in multiset(sorted);
    SortBySorted(dirs, OlderOrSame());
    forall d | d in dirs ensures d.mtime <= sorted[last].mtime {
      assert d in multiset(sorted);
      var i :| 0 <= i < |sorted| && sorted[i] == d;
      if i < last {
        SortedPairwise(sorted, OlderOrSame(), i, last);
      }
    }
  }

  /**
   * The comparison runs only when there was a previous run, it still exists, and it is not
   * the directory of the run just made.
   */
  function ShouldCompare(previous: Option<RunDir>, previousExists: bool, current: string): (b: bool)
    ensures b ==> previous.Some? && previous.value.name != current
    ensures previous.None? || !previousExists ==> !b
  {
    previous.Some? && previousExists && previous.value.name != current
  }

  /**
   * The comparison the cycle makes, base and candidate directory names: the latest earlier run
   * against the directory the pipeline just wrote, when they differ.
   */
  function ComparisonOf(dirs: seq<RunDir>, previousExists: bool, runId: string, prefix: string, timestamp: string)
    : (r: Option<(string, string)>)
    ensures r.Some? <==> dirs != [] && previousExists && PreviousRun(dirs).value.name != CurrentRunName(runId, prefix, timestamp)
    ensures r.Some? ==> r.value == (PreviousRun(dirs).value.name, CurrentRunName(runId, prefix, timestamp))
    ensures r.Some? ==> r.value.0 != r.value.1
  {
    var previous := PreviousRun(dirs);
    var current := CurrentRunName(runId, prefix, timestamp);
    if ShouldCompare(previous, previousExists, current) then Some((previous.value.name, current)) else None
  }
}
