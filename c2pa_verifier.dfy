// `C2PAVerifier`: running c2patool over a media file and reading its JSON report into a
// normalized verification result. The C2PA standard itself is the tool's business; this
// module only probes the report the tool prints.

module C2paVerifier {
  import opened Common
  import opened Text
  import opened Numerals
  import opened Json

  datatype C2paStatus = C2paVerified | C2paUnverified | C2paUnsupported | C2paUnavailable | C2paError

  /** `C2PAVerificationResult` without its rationale text. */
  datatype VerificationResult = VerificationResult(
    status: C2paStatus,
    manifestPresent: bool,
    signatureValid: bool,
    issuer: Option<string>,
    assertions: seq<string>,
    manifestId: Option<string>)

  // ---------------------------------------------------------------- probing paths

  /** What one dotted path resolves to, walking dicts only. */
  function PathResolve(payload: Json, path: string): Option<Json>
  {
    DictPath(payload, Split(path, '.'))
  }

  /** A path that resolves to a value other than null. */
  predicate Resolves(payload: Json, path: string)
  {
    var v := PathResolve(payload, path);
    v.Some? && v.value != JNull
  }

  /** What `_first` returns: the value of the first path that resolves to a non-null value. */
  function FirstOf(payload: Json, paths: seq<string>): Option<Json>
  {
    if paths == [] then None
    else if Resolves(payload, paths[0]) then PathResolve(payload, paths[0])
    else FirstOf(payload, paths[1..])
  }

  /** `_first`: walk each path in turn through dicts, and stop at the first non-null value. */
  method First(payload: Json, paths: seq<string>) returns (r: Option<Json>)
    ensures r == FirstOf(payload, paths)
  {
    var i := 0;
    while i < |paths|
      invariant 0 <= i <= |paths|
      invariant FirstOf(payload, paths) == FirstOf(payload, paths[i..])
    {
      assert paths[i..][0] == paths[i] && paths[i..][1..] == paths[i + 1..];
      var keys := Split(paths[i], '.');
      var node := payload;
      var ok := true;
      var j := 0;
      while j < |keys|
        invariant 0 <= j <= |keys|
        invariant DictPath(payload, keys) == DictPath(node, keys[j..])
      {
        assert keys[j..][0] == keys[j] && keys[j..][1..] == keys[j + 1..];
        if !HasKey(node, keys[j]) {
          ok := false;
          break;
        }
        node := Member(node, keys[j]);
        j := j + 1;
      }
      assert ok ==> keys[j..] == [];
      if ok && node != JNull {
        return Some(node);
      }
      i := i + 1;
    }
    return None;
  }

  /**
   * `_first` finds the value of the earliest path that resolves to a non-null value: never
   * null, and None exactly when no path resolves.
   */
  lemma {:induction false} FirstOfShape(payload: Json, paths: seq<string>)
    ensures var r := FirstOf(payload, paths);
      (r.None? <==> forall k :: 0 <= k < |paths| ==> !Resolves(payload, paths[k]))
      && (r.Some? ==>
            (r.value != JNull
             && exists k :: 0 <= k < |paths| && PathResolve(payload, paths[k]) == r
                  && forall j :: 0 <= j < k ==> !Resolves(payload, paths[j])))
    decreases |paths|
  {
    if paths != [] && !Resolves(payload, paths[0]) {
      var rest := paths[1..];
      FirstOfShape(payload, rest);
      forall k | 0 <= k < |rest| ensures rest[k] == paths[k + 1] { }
      var r := FirstOf(payload, paths);
      if r.Some? {
        var k :| 0 <= k < |rest| && PathResolve(payload, rest[k]) == r
          && forall j :: 0 <= j < k ==> !Resolves(payload, rest[j]);
        assert PathResolve(payload, paths[k + 1]) == r;
        forall j | 0 <= j < k + 1 ensures !Resolves(payload, paths[j]) {
          if j > 0 { assert paths[j] == rest[j - 1]; }
        }
      } else {
        forall k | 0 <= k < |paths| ensures !Resolves(payload, paths[k]) {
          if k > 0 { assert paths[k] == rest[k - 1]; }
        }
      }
    }
  }

  // ---------------------------------------------------------------- signature

  const FlagPaths := [
    "validation_results.active_manifest.valid",
    "validation_results.valid",
    "active_manifest.validation.valid",
    "signature.valid",
    "signature.validated",
    "manifest_store.active_manifest.validation.valid"]

  const StatusPaths := [
    "validation_results.active_manifest.status",
    "active_manifest.validation_status",
    "manifest_store.active_manifest.validation_status",
    "signature.status"]

  /** The status words that mean a valid signature. */
  predicate GoodStatus(status: Option<string>)
  {
    status.Some? && status.value in {"valid", "verified", "ok", "success"}
  }

  /** The decision of `_infer_signature_valid` from the first flag and first status found. */
  function SignatureDecision(flag: Option<Json>, status: Option<Json>): bool
  {
    if flag.Some? && flag.value.JBool? then flag.value.b
    else GoodStatus(AsStr(status))
  }

  /** `_infer_signature_valid` */
  function InferSignatureValid(payload: Json): bool
  {
    SignatureDecision(FirstOf(payload, FlagPaths), FirstOf(payload, StatusPaths))
  }

  /**
   * A boolean flag decides whatever the status says; a valid signature needs either a true
   * flag or, with no boolean flag, a status text that is one of the four good words; with
   * neither found the signature is invalid.
   */
  lemma SignatureDecisionShape(flag: Option<Json>, status: Option<Json>, status': Option<Json>)
    ensures var valid := SignatureDecision(flag, status);
      (flag.Some? && flag.value.JBool? ==> valid == flag.value.b && valid == SignatureDecision(flag, status'))
      && (valid ==> flag == Some(JBool(true))
                    || (status.Some? && status.value.JStr? && status.value.s in {"valid", "verified", "ok", "success"}))
      && (flag.None? && status.None? ==> !valid)
  {
  }

  // ---------------------------------------------------------------- assertions

  const AssertionPaths := [
    "active_manifest.assertions",
    "manifest_store.active_manifest.assertions",
    "assertions"]

  /**
   * What one assertion item contributes: a string item itself, or a dict item's first true
   * value among label, name and type (the last one taken as it is) when that is a string.
   */
  function AssertionLabel(item: Json): Option<string>
  {
    if item.JStr? then Some(item.s)
    else if item.JObj? then
      var chosen := OrElse(OrElse(Get(item, "label"), Get(item, "name")), Get(item, "type"));
      if chosen.Some? && chosen.value.JStr? then Some(chosen.value.s) else None
    else None
  }

  /** The labels the items contribute, in order. */
  function AssertionLabels(items: seq<Json>): (r: seq<string>)
    ensures |r| <= |items|
  {
    if items == [] then []
    else
      var found := AssertionLabel(items[|items| - 1]);
      AssertionLabels(items[..|items| - 1]) + (if found.Some? then [found.value] else [])
  }

  /** What `_extract_assertions` returns. */
  function AssertionsOf(payload: Json): seq<string>
  {
    var found := FirstOf(payload, AssertionPaths);
    if found.Some? && found.value.JArr? then AssertionLabels(found.value.items) else []
  }

  /** `_extract_assertions`: the label of each item that has one, appended in order. */
  method ExtractAssertions(payload: Json) returns (result: seq<string>)
    ensures result == AssertionsOf(payload)
  {
    var found := First(payload, AssertionPaths);
    if !(found.Some? && found.value.JArr?) {
      return [];
    }
    result := CollectLabels(found.value.items);
  }

  /** The loop of `_extract_assertions` over the items of the list it found. */
  method CollectLabels(items: seq<Json>) returns (result: seq<string>)
    ensures result == AssertionLabels(items)
  {
    result := [];
    var i := 0;
    while i < |items|
      invariant 0 <= i <= |items|
      invariant result == AssertionLabels(items[..i])
    {
      assert items[..i + 1][..i] == items[..i];
      var piece := AssertionLabel(items[i]);
      if piece.Some? {
        result := result + [piece.value];
      }
      i := i + 1;
    }
    assert items[..i] == items;
  }

  /**
   * Every string item is kept, every kept label comes from some item, and items that are
   * neither strings nor dicts contribute nothing.
   */
  lemma {:induction false} AssertionLabelsShape(items: seq<Json>)
    ensures var r := AssertionLabels(items);
      (forall k :: 0 <= k < |items| && items[k].JStr? ==> items[k].s in r)
      && (forall x :: x in r ==> exists k :: 0 <= k < |items| && AssertionLabel(items[k]) == Some(x))
      && ((forall k :: 0 <= k < |items| ==> !items[k].JStr? && !items[k].JObj?) ==> r == [])
    decreases |items|
  {
    if items != [] {
      var init := items[..|items| - 1];
      AssertionLabelsShape(init);
      forall k | 0 <= k < |init| ensures init[k] == items[k] { }
    }
  }

  // ---------------------------------------------------------------- the payload

  const ManifestPaths := ["active_manifest", "manifest_store.active_manifest", "claim_generator"]

  const IssuerPaths := [
    "active_manifest.claim_generator",
    "manifest_store.active_manifest.claim_generator",
    "claim_generator",
    "active_manifest.issuer",
    "manifest_store.active_manifest.issuer"]

  const ManifestIdPaths := [
    "active_manifest.label",
    "manifest_store.active_manifest.label",
    "active_manifest.id",
    "manifest_store.active_manifest.id"]

  /** Whether the report shows a manifest: a true value at a manifest path, or under "manifests". */
  predicate ManifestPresent(payload: Json)
  {
    TruthySome(FirstOf(payload, ManifestPaths)) || TruthySome(FirstOf(payload, ["manifests"]))
  }

  /** `_parse_payload` */
  function ParsePayload(payload: Json): VerificationResult
  {
    var present := ManifestPresent(payload);
    var valid := InferSignatureValid(payload);
    VerificationResult(
      if present && valid then C2paVerified else C2paUnverified,
      present, valid,
      AsStr(FirstOf(payload, IssuerPaths)),
      AssertionsOf(payload),
      AsStr(FirstOf(payload, ManifestIdPaths)))
  }

  /**
   * A parsed report is verified exactly when it shows a manifest and a valid signature, and
   * unverified otherwise; issuer and manifest id are never blank.
   */
  lemma ParsePayloadShape(payload: Json)
    ensures var r := ParsePayload(payload);
      (r.status == C2paVerified <==> ManifestPresent(payload) && InferSignatureValid(payload))
      && (r.status == C2paVerified || r.status == C2paUnverified)
      && (!r.manifestPresent ==> r.status != C2paVerified)
      && (r.issuer.Some? ==> Strip(r.issuer.value) != [])
      && (r.manifestId.Some? ==> Strip(r.manifestId.value) != [])
  {
  }

  // ---------------------------------------------------------------- tool output

  /** `cleaned[start : end + 1]` from the first '{' to the last '}', when they are in that order. */
  function Braced(cleaned: string): Option<string>
  {
    var start := IndexOf(cleaned, '{');
    var end := LastIndexOf(cleaned, '}');
    if start == |cleaned| || end == -1 || end <= start then None else Some(cleaned[start..end + 1])
  }

  /**
   * `_parse_json_output`, with `json.loads` as the decoder `parse` (None where it raises):
   * decode the stripped text, falling back to its braced part; keep only a dict.
   */
  function ParseJsonOutput(output: string, parse: string -> Option<Json>): (r: Option<Json>)
    ensures r.Some? ==> r.value.JObj?
  {
    var cleaned := Strip(output);
    if cleaned == [] then None
    else
      var parsed := if parse(cleaned).Some? then parse(cleaned)
                    else if Braced(cleaned).Some? then parse(Braced(cleaned).value)
                    else None;
      if parsed.Some? && parsed.value.JObj? then parsed else None
  }

  /**
   * Blank output gives nothing; a result is always a dict; it is the whole text's decoding
   * when that decodes, else the decoding of a part that starts with '{' and ends with '}'.
   */
  lemma ParseJsonOutputShape(output: string, parse: string -> Option<Json>)
    ensures var r := ParseJsonOutput(output, parse);
      var cleaned := Strip(output);
      (cleaned == [] ==> r.None?)
      && (r.Some? ==> r.value.JObj?)
      && (cleaned != [] && parse(cleaned).Some? ==> r == (if parse(cleaned).value.JObj? then parse(cleaned) else None))
      && (r.Some? && parse(cleaned).None? ==>
            exists part :: |part| >= 2 && part[0] == '{' && part[|part| - 1] == '}' && parse(part) == r
              && Braced(cleaned) == Some(part))
  {
    var cleaned := Strip(output);
    var r := ParseJsonOutput(output, parse);
    if r.Some? && parse(cleaned).None? {
      var part := Braced(cleaned).value;
      assert part[0] == '{' && part[|part| - 1] == '}';
    }
  }

  /** What one run of a c2patool command did. */
  datatype ToolRun = RunFailed(detail: string) | Completed(returnCode: int, stdout: string, stderr: string)

  /** The error `_run_c2pa_tool` remembers; NoToolError is its empty string. */
  datatype ToolError =
    | NoToolError
    | ExecutionError(detail: string)
    | CommandFailed(command: nat, details: string)
    | NonJsonOutput

  /** The three command lines, tried in order. */
  const CommandCount := 3

  /** The details of a failed command: its stderr, else its stdout, else its exit code. */
  function FailureDetails(returnCode: int, stdout: string, stderr: string): string
  {
    if Strip(stderr) != [] then Strip(stderr)
    else if Strip(stdout) != [] then Strip(stdout)
    else "exit=" + IntToString(returnCode)
  }

  /** The error a run leaves behind when it does not give a payload. */
  function RunError(i: nat, run: ToolRun, parse: string -> Option<Json>): ToolError
  {
    match run
    case RunFailed(d) => ExecutionError(d)
    case Completed(code, out, err) =>
      if code != 0 then CommandFailed(i, FailureDetails(code, out, err)) else NonJsonOutput
  }

  /** The payload a run gives: the dict its output decodes to, when it exits with 0. */
  function RunPayload(run: ToolRun, parse: string -> Option<Json>): Option<Json>
  {
    if run.Completed? && run.returnCode == 0 then ParseJsonOutput(run.stdout, parse) else None
  }

  /** The outcome of trying commands i.. of runs, with last the error remembered so far. */
  function ToolFrom(runs: seq<ToolRun>, i: nat, parse: string -> Option<Json>, last: ToolError): (Option<Json>, ToolError)
    requires i <= |runs|
    decreases |runs| - i
  {
    if i == |runs| then (None, last)
    else if RunPayload(runs[i], parse).Some? then (RunPayload(runs[i], parse), NoToolError)
    else ToolFrom(runs, i + 1, parse, RunError(i, runs[i], parse))
  }

  /**
   * `_run_c2pa_tool`, with `runs[i]` what the i-th command line does: the first payload
   * one of them gives, or None with the error of the last failure.
   */
  method RunC2paTool(runs: seq<ToolRun>, parse: string -> Option<Json>) returns (payload: Option<Json>, lastError: ToolError)
    requires |runs| == CommandCount
    ensures (payload, lastError) == ToolFrom(runs, 0, parse, NoToolError)
  {
    lastError := NoToolError;
    var i := 0;
    while i < |runs|
      invariant 0 <= i <= |runs|
      invariant ToolFrom(runs, 0, parse, NoToolError) == ToolFrom(runs, i, parse, lastError)
    {
      match runs[i] {
        case RunFailed(d) =>
          lastError := ExecutionError(d);
        case Completed(code, out, err) =>
          if code != 0 {
            lastError := CommandFailed(i, FailureDetails(code, out, err));
          } else {
            var parsed := ParseJsonOutput(out, parse);
            if parsed.None? {
              lastError := NonJsonOutput;
            } else {
              return parsed, NoToolError;
            }
          }
      }
      i := i + 1;
    }
    payload := None;
  }

  /** A payload comes from the first run, from i on, that gives one, and clears the error. */
  lemma {:induction false} ToolFromFound(runs: seq<ToolRun>, i: nat, parse: string -> Option<Json>, last: ToolError)
    requires i <= |runs|
    requires ToolFrom(runs, i, parse, last).0.Some?
    ensures var (payload, err) := ToolFrom(runs, i, parse, last);
      err == NoToolError && payload.value.JObj?
      && exists k :: i <= k < |runs| && RunPayload(runs[k], parse) == payload
           && forall j :: i <= j < k ==> RunPayload(runs[j], parse).None?
    decreases |runs| - i
  {
    var payload := ToolFrom(runs, i, parse, last).0;
    if RunPayload(runs[i], parse).Some? {
      assert RunPayload(runs[i], parse) == payload;
    } else {
      var next := RunError(i, runs[i], parse);
      ToolFromFound(runs, i + 1, parse, next);
      var k :| i + 1 <= k < |runs| && RunPayload(runs[k], parse) == payload
        && forall j :: i + 1 <= j < k ==> RunPayload(runs[j], parse).None?;
      assert RunPayload(runs[k], parse) == payload;
    }
  }

  /** With no payload, no run gave one and the error is that of the last command. */
  lemma {:induction false} ToolFromNone(runs: seq<ToolRun>, i: nat, parse: string -> Option<Json>, last: ToolError)
    requires i <= |runs|
    requires ToolFrom(runs, i, parse, last).0.None?
    ensures forall k :: i <= k < |runs| ==> RunPayload(runs[k], parse).None?
    ensures ToolFrom(runs, i, parse, last).1 == (if i == |runs| then last else RunError(|runs| - 1, runs[|runs| - 1], parse))
    decreases |runs| - i
  {
    if i < |runs| {
      var next := RunError(i, runs[i], parse);
      assert RunPayload(runs[i], parse).None?;
      assert ToolFrom(runs, i, parse, last) == ToolFrom(runs, i + 1, parse, next);
      ToolFromNone(runs, i + 1, parse, next);
      forall k | i <= k < |runs| ensures RunPayload(runs[k], parse).None? {
        if k > i {
          assert i + 1 <= k < |runs|;
        }
      }
    }
  }

  // ---------------------------------------------------------------- verify_bytes

  /** What `verify_bytes` returns, given whether the tool is installed and what its runs do. */
  function VerifyOf(media: seq<bv8>, toolInstalled: bool, runs: seq<ToolRun>, parse: string -> Option<Json>): VerificationResult
    requires |runs| == CommandCount
  {
    if media == [] then VerificationResult(C2paUnsupported, false, false, None, [], None)
    else if !toolInstalled then VerificationResult(C2paUnavailable, false, false, None, [], None)
    else
      var (payload, _) := ToolFrom(runs, 0, parse, NoToolError);
      if payload.None? then VerificationResult(C2paError, false, false, None, [], None)
      else ParsePayload(payload.value)
  }

  /** `verify_bytes` */
  method VerifyBytes(media: seq<bv8>, toolInstalled: bool, runs: seq<ToolRun>, parse: string -> Option<Json>)
    returns (r: VerificationResult)
    requires |runs| == CommandCount
    ensures r == VerifyOf(media, toolInstalled, runs, parse)
  {
    if media == [] {
      return VerificationResult(C2paUnsupported, false, false, None, [], None);
    }
    if !toolInstalled {
      return VerificationResult(C2paUnavailable, false, false, None, [], None);
    }
    var payload, error := RunC2paTool(runs, parse);
    if payload.None? {
      return VerificationResult(C2paError, false, false, None, [], None);
    }
    r := ParsePayload(payload.value);
  }

  /**
   * Empty media is unsupported, with no manifest and no valid signature, whatever the tool
   * would do; and no result is verified without a manifest and a valid signature.
   */
  lemma VerifyShape(media: seq<bv8>, toolInstalled: bool, runs: seq<ToolRun>, parse: string -> Option<Json>,
                    toolInstalled': bool, runs': seq<ToolRun>, parse': string -> Option<Json>)
    requires |runs| == CommandCount && |runs'| == CommandCount
    ensures var r := VerifyOf(media, toolInstalled, runs, parse);
      (media == [] ==> r.status == C2paUnsupported && !r.manifestPresent && !r.signatureValid
                       && r == VerifyOf(media, toolInstalled', runs', parse'))
      && (r.status == C2paVerified ==> r.manifestPresent && r.signatureValid)
  {
    var (payload, _) := ToolFrom(runs, 0, parse, NoToolError);
    if media != [] && toolInstalled && payload.Some? {
      ParsePayloadShape(payload.value);
    }
  }
}
