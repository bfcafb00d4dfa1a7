// The run-id and report-contract helpers of the evidence pipeline
// (backend/scripts/run_talent_visa_pipeline.py).

module PipelineRun {
  import opened Common
  import opened Text
  import opened Collections
  import TrustGenerate

  /** The longest run id an override may produce. */
  const MaxRunIdLength: nat := 48

  /** A character a run id keeps: a letter, a digit, '-' or '_'. */
  predicate IsIdChar(c: char) { IsAlnum(c) || c == '-' || c == '_' }

  /** Every character is one a run id keeps. */
  predicate IdChars(s: string) { forall i :: 0 <= i < |s| ==> IsIdChar(s[i]) }

  /** A lower-case hexadecimal digit, as `hexdigest` writes them. */
  predicate IsHexDigit(c: char) { IsAsciiDigit(c) || 'a' <= c <= 'f' }

  /** The override's run-id characters, in order, cut to 48. */
  function SanitizeRunId(s: string): (r: string)
    ensures IdChars(r)
    ensures |r| <= MaxRunIdLength
    ensures r <= Filter(s, IsIdChar)
    ensures |Filter(s, IsIdChar)| <= MaxRunIdLength ==> r == Filter(s, IsIdChar)
  {
    Take(Filter(s, IsIdChar), MaxRunIdLength)
  }

  /** A run id that is already clean and short enough comes through unchanged. */
  lemma SanitizeKeepsClean(s: string)
    requires IdChars(s) && |s| <= MaxRunIdLength
    ensures SanitizeRunId(s) == s
  {
    FilterAll(s, IsIdChar);
  }

  /** Sanitizing a sanitized run id changes nothing. */
  lemma SanitizeIdempotent(s: string)
    ensures SanitizeRunId(SanitizeRunId(s)) == SanitizeRunId(s)
  {
    SanitizeKeepsClean(SanitizeRunId(s));
  }

  /** A sanitized override is empty exactly when the override holds no run-id character. */
  lemma SanitizeEmpty(s: string)
    ensures SanitizeRunId(s) == [] <==> forall i :: 0 <= i < |s| ==> !IsIdChar(s[i])
  {
    FilterEmpty(s, IsIdChar);
  }

  /**
   * `_resolve_run_id`: a non-empty override is sanitized; otherwise the id is "run_" and the
   * first 12 characters of `digest`, the hex SHA-256 of the input's canonical JSON.
   */
  function ResolveRunId(override: string, digest: string): (r: string)
    ensures override != "" ==> r == SanitizeRunId(override)
    ensures override == "" ==> r == "run_" + Take(digest, 12)
  {
    if override != "" then SanitizeRunId(override) else "run_" + Take(digest, 12)
  }

  /**
   * Whichever branch is taken, a hexadecimal digest leaves only run-id characters in the id,
   * and the id is never longer than 48.
   */
  lemma ResolvedIdChars(override: string, digest: string)
    requires forall i :: 0 <= i < |digest| ==> IsHexDigit(digest[i])
    ensures IdChars(ResolveRunId(override, digest))
    ensures |ResolveRunId(override, digest)| <= MaxRunIdLength
  {
    if override == "" {
      var r := ResolveRunId(override, digest);
      forall i | 0 <= i < |r| ensures IsIdChar(r[i]) {
        if i >= 4 {
          assert r[i] == digest[i - 4];
        }
      }
    }
  }

  /** The keys `_validate_report_contract` demands of a trust report. */
  const RequiredKeys: set<string> := {"executive_summary", "timeline", "bot_activity", "ai_generated_content",
                                      "claims_and_narratives", "recommended_strategy", "data_gaps",
                                      "confidence_overall"}

  /** `_validate_report_contract`: the required keys the report lacks raise a ValueError. */
  function ValidateReportContract(keys: set<string>): (r: Result<(), set<string>>)
    ensures r.Ok? <==> RequiredKeys <= keys
    ensures r.Err? ==> r.error != {} && r.error <= RequiredKeys && r.error !! keys
    ensures r.Err? ==> forall k :: k in RequiredKeys && k !in keys ==> k in r.error
  {
    var missing := RequiredKeys - keys;
    DiffEmptyIffSubset(RequiredKeys, keys);
    if missing != {} then Err(missing) else Ok(())
  }

  /** Extra keys never make a report fail the contract, and dropping any required key does. */
  lemma ContractMonotone(keys: set<string>, more: set<string>, k: string)
    ensures ValidateReportContract(keys).Ok? ==> ValidateReportContract(keys + more).Ok?
    ensures k in RequiredKeys ==> ValidateReportContract(keys - {k}).Err?
  {
    if k in RequiredKeys {
      assert k !in keys - {k};
    }
  }

  /**
   * The top-level keys of the dict `generate` returns, one per field of the report. `generate`
   * builds that dict as a literal, so its keys do not depend on the report and the argument is
   * unused; the lemma below therefore holds by construction.
   */
  function ReportKeys(r: TrustGenerate.Report): set<string>
  {
    {"executive_summary", "timeline", "bot_activity", "ai_generated_content", "claims_and_narratives",
     "recommended_strategy", "data_gaps", "confidence_overall"}
  }

  /** Every report `generate` can return, serialized, meets the contract. */
  lemma GeneratedReportMeetsContract(r: TrustGenerate.Report)
    ensures ValidateReportContract(ReportKeys(r)).Ok?
  {
  }
}
