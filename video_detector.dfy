// The byte-level video detector (backend/app/detection/video/detector.py): sampling, the
// repeated-chunk ratio, container signature flags, the weighted verdict and its explanation.
// The entropy and byte-uniformity scores (a base-2 logarithm and a standard deviation over
// the byte histogram) are given as functions of the sample.

module VideoDetector {
  import opened Common
  import opened Text
  import opened Collections
  import opened DetectionModels

  const DefaultSampleBytes := 2 * 1024 * 1024
  const ChunkSize := 32

  /**
   * `_sample`: the payload itself when it fits, else its first and last halves of the budget.
   * Python's `data[-0:]` is the whole payload, so a budget below 2 keeps everything.
   */
  function Sample(data: seq<bv8>, maxBytes: nat): (r: seq<bv8>)
    ensures |data| <= maxBytes ==> r == data
    ensures maxBytes >= 2 ==> |r| <= maxBytes
    ensures |data| > maxBytes >= 2 ==> |r| == 2 * (maxBytes / 2)
    ensures |data| > maxBytes >= 2 ==>
      r[..maxBytes / 2] == data[..maxBytes / 2] && r[maxBytes / 2..] == data[|data| - maxBytes / 2..]
    ensures |data| > maxBytes && maxBytes < 2 ==> r == data
  {
    if |data| <= maxBytes then data
    else
      var half := maxBytes / 2;
      var tail := if half == 0 then data else data[|data| - half..];
      data[..half] + tail
  }

  /** Sampling what was already sampled with the same budget changes nothing. */
  lemma SampleIdempotent(data: seq<bv8>, maxBytes: nat)
    requires maxBytes >= 2
    ensures Sample(Sample(data, maxBytes), maxBytes) == Sample(data, maxBytes)
  {
  }

  /** `data[i : i + 32]` for every full 32-byte chunk, in order; a partial last chunk is dropped. */
  function Chunks(data: seq<bv8>): (cs: seq<seq<bv8>>)
    ensures |cs| == |data| / ChunkSize
    decreases |data|
  {
    if |data| < ChunkSize then [] else [data[..ChunkSize]] + Chunks(data[ChunkSize..])
  }

  /** How many chunks, counted with multiplicity, occur more than once. */
  function RepeatedCount(cs: seq<seq<bv8>>): (n: nat)
    ensures n <= |cs|
  {
    |Filter(cs, (c: seq<bv8>) => Occurrences(cs, c) > 1)|
  }

  /** `_repeated_chunk_ratio`: the share of repeated chunks, to four decimals. */
  function RepeatedChunkRatio(data: seq<bv8>): (r: real)
    ensures 0.0 <= r <= 1.0
    ensures |data| < 2 * ChunkSize ==> r == 0.0
  {
    if |data| < 2 * ChunkSize then 0.0
    else
      var cs := Chunks(data);
      var ratio := RepeatedCount(cs) as real / |cs| as real;
      RatioFacts(RepeatedCount(cs), |cs|);
      RoundUnit(ratio, Digits4);
      Round(ratio, Digits4)
  }

  /** A payload whose chunks are all different scores 0. */
  lemma {:induction false} DistinctChunksScoreZero(data: seq<bv8>)
    requires |data| >= 2 * ChunkSize && Distinct(Chunks(data))
    ensures RepeatedChunkRatio(data) == 0.0
  {
    var cs := Chunks(data);
    var p := (c: seq<bv8>) => Occurrences(cs, c) > 1;
    forall i | 0 <= i < |cs| ensures !p(cs[i]) {
      DistinctAtMostOnce(cs, cs[i]);
    }
    FilterNone(cs, p);
    RoundOfInt(0, Digits4);
  }

  /** A payload made of one chunk repeated scores 1. */
  lemma {:induction false} UniformChunksScoreOne(data: seq<bv8>)
    requires |data| >= 2 * ChunkSize
    requires forall i :: 0 <= i < |Chunks(data)| ==> Chunks(data)[i] == Chunks(data)[0]
    ensures RepeatedChunkRatio(data) == 1.0
  {
    var cs := Chunks(data);
    var p := (c: seq<bv8>) => Occurrences(cs, c) > 1;
    forall i | 0 <= i < |cs| ensures p(cs[i]) {
      assert cs[i] == cs[0] && cs[1] == cs[0];
      TwiceAtLeastTwo(cs, 0, 1);
    }
    FilterAll(cs, p);
    assert RepeatedCount(cs) == |cs|;
    RatioFacts(RepeatedCount(cs), |cs|);
    RoundOfInt(1, Digits4);
  }

  /** Nothing is kept when the predicate rejects every element. */
  lemma {:induction false} FilterNone<T(!new)>(s: seq<T>, p: T -> bool)
    requires forall i :: 0 <= i < |s| ==> !p(s[i])
    ensures Filter(s, p) == []
  {
    if s != [] {
      FilterNone(s[1..], p);
    }
  }

  // ---------------------------------------------------------------- signature flags

  /** `bytes.lower()`: ASCII upper-case letters only. */
  function LowerByte(b: bv8): bv8
  {
    if 0x41 <= b <= 0x5A then b + 0x20 else b
  }

  function LowerBytes(s: seq<bv8>): (r: seq<bv8>)
    ensures |r| == |s|
  {
    if s == [] then [] else [LowerByte(s[0])] + LowerBytes(s[1..])
  }

  /** `needle in haystack` for byte strings. */
  predicate OccursIn(haystack: seq<bv8>, needle: seq<bv8>)
    decreases |haystack|
  {
    (|needle| <= |haystack| && haystack[..|needle|] == needle) || (haystack != [] && OccursIn(haystack[1..], needle))
  }

  /** Some keyword occurs in the header. */
  predicate AnyOccurs(header: seq<bv8>, keywords: seq<seq<bv8>>)
  {
    exists k :: 0 <= k < |keywords| && OccursIn(header, keywords[k])
  }

  const HeaderBytes := 4096
  const SmallFileBytes := 20 * 1024
  const Ebml: seq<bv8> := [0x1A, 0x45, 0xDF, 0xA3]
  const ContainerExtensions := [".avi", ".mov", ".mkv"]

  /** b"ftyp" */
  const Ftyp: seq<bv8> := [0x66, 0x74, 0x79, 0x70]

  /** b"lavf", b"ffmpeg", b"x264", b"x265", b"nvenc", b"svt" */
  const EncoderKeywords: seq<seq<bv8>> := [
    [0x6C, 0x61, 0x76, 0x66], [0x66, 0x66, 0x6D, 0x70, 0x65, 0x67], [0x78, 0x32, 0x36, 0x34],
    [0x78, 0x32, 0x36, 0x35], [0x6E, 0x76, 0x65, 0x6E, 0x63], [0x73, 0x76, 0x74]]

  /** b"ai", b"synth", b"diffusion", b"runway", b"sora", b"gen" */
  const AiKeywords: seq<seq<bv8>> := [
    [0x61, 0x69], [0x73, 0x79, 0x6E, 0x74, 0x68], [0x64, 0x69, 0x66, 0x66, 0x75, 0x73, 0x69, 0x6F, 0x6E],
    [0x72, 0x75, 0x6E, 0x77, 0x61, 0x79], [0x73, 0x6F, 0x72, 0x61], [0x67, 0x65, 0x6E]]

  /** The first 4096 bytes. */
  function Header(data: seq<bv8>): seq<bv8>
  {
    if |data| <= HeaderBytes then data else data[..HeaderBytes]
  }

  /** `name.lower().endswith(extensions)` */
  predicate EndsWithAny(name: string, extensions: seq<string>)
  {
    exists k :: 0 <= k < |extensions| && EndsWith(name, extensions[k])
  }

  /** The container is recognised: an MP4 `ftyp` box, the EBML magic, or a known extension. */
  predicate KnownContainer(data: seq<bv8>, filename: string)
  {
    OccursIn(Header(data), Ftyp) || OccursIn(Header(data), Ebml) || EndsWithAny(Lower(filename), ContainerExtensions)
  }

  /** The flags `_signature_flags` can raise. */
  datatype SignatureFlag = UnknownContainer | EncoderTag | AiKeywordTag | SmallFile
  {
    function Name(): string
    {
      match this
      case UnknownContainer => "unknown_container_signature"
      case EncoderTag => "generated_encoder_tag"
      case AiKeywordTag => "ai_keyword_tag"
      case SmallFile => "unusually_small_file"
    }
  }

  /** The flags raised by the four checks, in `_signature_flags`' order. */
  function Raised(unknown: bool, encoder: bool, aiKeyword: bool, small: bool): (flags: seq<SignatureFlag>)
    ensures UnknownContainer in flags <==> unknown
    ensures EncoderTag in flags <==> encoder
    ensures AiKeywordTag in flags <==> aiKeyword
    ensures SmallFile in flags <==> small
    ensures Distinct(flags)
  {
    (if unknown then [UnknownContainer] else [])
    + (if encoder then [EncoderTag] else [])
    + (if aiKeyword then [AiKeywordTag] else [])
    + (if small then [SmallFile] else [])
  }

  /** `_signature_flags`: each flag at most once. */
  function SignatureFlags(data: seq<bv8>, filename: string): (flags: seq<SignatureFlag>)
    ensures UnknownContainer in flags <==> !KnownContainer(data, filename)
    ensures EncoderTag in flags <==> AnyOccurs(LowerBytes(Header(data)), EncoderKeywords)
    ensures AiKeywordTag in flags <==> AnyOccurs(LowerBytes(Header(data)), AiKeywords)
    ensures SmallFile in flags <==> |data| < SmallFileBytes
    ensures Distinct(flags)
  {
    var lowerHeader := LowerBytes(Header(data));
    Raised(!KnownContainer(data, filename), AnyOccurs(lowerHeader, EncoderKeywords),
           AnyOccurs(lowerHeader, AiKeywords), |data| < SmallFileBytes)
  }

  /** The flags' names, as the response lists them. */
  function FlagNames(flags: seq<SignatureFlag>): (names: seq<string>)
    ensures |names| == |flags|
    ensures forall i :: 0 <= i < |flags| ==> names[i] == flags[i].Name()
  {
    if flags == [] then [] else [flags[0].Name()] + FlagNames(flags[1..])
  }

  // ---------------------------------------------------------------- prediction

  /** `np.clip(x, 0.0, 1.0)` */
  function Unit(x: real): (r: real)
    ensures 0.0 <= r <= 1.0
  {
    Clamp(x, 0.0, 1.0)
  }

  /** The weighted signal sum before clamping. */
  function RawConfidence(entropyScore: real, byteUniformity: real, repeatedRatio: real, flagCount: nat): real
  {
    Unit(entropyScore - 6.8) * 0.30
    + Unit((byteUniformity - 0.55) / 0.45) * 0.25
    + Unit(repeatedRatio / 0.20) * 0.25
    + MinReal(1.0, flagCount as real * 0.25) * 0.20
  }

  function Clamped(entropyScore: real, byteUniformity: real, repeatedRatio: real, flagCount: nat): (c: real)
    ensures 0.05 <= c <= 0.95
  {
    Clamp(RawConfidence(entropyScore, byteUniformity, repeatedRatio, flagCount), 0.05, 0.95)
  }

  datatype VideoPrediction = VideoPrediction(isAi: bool, confidence: real, model: Option<AIModel>)

  /**
   * `_make_prediction`: AI exactly when the clamped confidence exceeds one half, attributed to
   * the unknown model exactly then; the confidence is reported to three decimals.
   */
  function MakePrediction(entropyScore: real, byteUniformity: real, repeatedRatio: real, flags: seq<SignatureFlag>)
    : (p: VideoPrediction)
    ensures p.isAi <==> Clamped(entropyScore, byteUniformity, repeatedRatio, |flags|) > 0.5
    ensures p.model == (if p.isAi then Some(UnknownModel) else None)
    ensures 0.05 <= p.confidence <= 0.95
    ensures p.confidence == Round(Clamped(entropyScore, byteUniformity, repeatedRatio, |flags|), Digits3)
  {
    var c := Clamped(entropyScore, byteUniformity, repeatedRatio, |flags|);
    var isAi := c > 0.5;
    RoundBetween(c);
    VideoPrediction(isAi, Round(c, Digits3), if isAi then Some(UnknownModel) else None)
  }

  lemma RoundBetween(c: real)
    requires 0.05 <= c <= 0.95
    ensures 0.05 <= Round(c, Digits3) <= 0.95
  {
    RoundMonotone(0.05, c, Digits3);
    RoundMonotone(c, 0.95, Digits3);
    assert 0.05 == Unscaled(50, Digits3);
    assert 0.95 == Unscaled(950, Digits3);
    RoundOfUnits(50, Digits3);
    RoundOfUnits(950, Digits3);
  }

  /** Flags alone never make a video AI: their share is at most 0.20. */
  lemma FlagsAloneAreNotEnough(flags: seq<SignatureFlag>)
    ensures !MakePrediction(0.0, 0.0, 0.0, flags).isAi
  {
  }

  /** Every signal at its strongest gives the top confidence. */
  lemma {:induction false} StrongestSignals(flags: seq<SignatureFlag>)
    requires |flags| >= 4
    ensures MakePrediction(7.8, 1.0, 0.2, flags) == VideoPrediction(true, 0.95, Some(UnknownModel))
  {
    assert RawConfidence(7.8, 1.0, 0.2, |flags|) == 1.0;
    RoundOfUnits(950, Digits3);
    assert Unscaled(950, Digits3) == 0.95;
  }

  // ---------------------------------------------------------------- explanation

  const Fallback := "mixed container and byte-pattern signals"

  /** The reasons `_generate_explanation` lists, in its order. */
  function Reasons(entropyScore: real, repeatedRatio: real, flags: seq<SignatureFlag>): (rs: seq<string>)
    ensures rs == [] <==> entropyScore <= 7.5 && repeatedRatio <= 0.08 && AiKeywordTag !in flags
  {
    (if entropyScore > 7.5 then ["high entropy profile"] else [])
    + (if repeatedRatio > 0.08 then ["repeated chunk patterns"] else [])
    + (if AiKeywordTag in flags then ["AI-related metadata keywords"] else [])
  }

  function ConfidenceLabel(confidence: real): (l: string)
    ensures l == "high" <==> confidence > 0.75
    ensures l == "low" <==> confidence <= 0.5
    ensures l == "moderate" <==> 0.5 < confidence <= 0.75
  {
    if confidence > 0.75 then "high" else if confidence > 0.5 then "moderate" else "low"
  }

  /** The verdict the explanation opens with. */
  function Verdict(isAi: bool): string
  {
    if isAi then "likely AI-generated" else "likely human-captured"
  }

  /** How an explanation of an AI verdict opens: "Video appears likely AI-generated". */
  const AiHead := "Video appears " + Verdict(true)

  /**
   * `_generate_explanation`: the verdict and the confidence level, then the reasons, or the
   * fallback when there is none.
   */
  function Explanation(isAi: bool, confidence: real, entropyScore: real, repeatedRatio: real, flags: seq<SignatureFlag>)
    : (e: string)
    ensures StartsWith(e, "Video appears " + Verdict(isAi) + " (" + ConfidenceLabel(confidence) + " confidence). ")
    ensures StartsWith(e, AiHead) <==> isAi
    ensures Reasons(entropyScore, repeatedRatio, flags) == [] ==> EndsWith(e, "Key indicators: " + Fallback + ".")
    ensures Reasons(entropyScore, repeatedRatio, flags) != [] ==>
      EndsWith(e, "Key indicators: " + Join(Reasons(entropyScore, repeatedRatio, flags), ", ") + ".")
  {
    var head := "Video appears " + Verdict(isAi) + " (" + ConfidenceLabel(confidence) + " confidence). ";
    var e := Explain(head, Reasons(entropyScore, repeatedRatio, flags), Fallback);
    HeadSaysVerdict(e, isAi, ConfidenceLabel(confidence));
    e
  }

  /** An explanation opens with "likely AI-generated" exactly when its verdict is AI. */
  lemma HeadSaysVerdict(e: string, isAi: bool, level: string)
    requires StartsWith(e, "Video appears " + Verdict(isAi) + " (" + level + " confidence). ")
    ensures StartsWith(e, AiHead) <==> isAi
  {
    var head := "Video appears " + Verdict(isAi) + " (" + level + " confidence). ";
    HeadOpening(isAi, level);
    if isAi {
      StartsWithTrans(e, head, AiHead);
    } else {
      StartsWithDiffer(e, head, AiHead, 21);
    }
  }

  lemma HeadOpening(isAi: bool, level: string)
    ensures var head := "Video appears " + Verdict(isAi) + " (" + level + " confidence). ";
      (isAi ==> StartsWith(head, AiHead)) && (!isAi ==> 21 < |head| && head[21] == 'h')
  {
    var head := "Video appears " + Verdict(isAi) + " (" + level + " confidence). ";
    if isAi {
      assert head == AiHead + " (" + level + " confidence). ";
      assert head[..|AiHead|] == AiHead;
    } else {
      assert head[21] == 'h';
    }
  }

  // ---------------------------------------------------------------- detect

  datatype VideoResponse = VideoResponse(
    prediction: VideoPrediction,
    fileSizeMb: real,
    entropyScore: real,
    byteUniformity: real,
    repeatedChunkRatio: real,
    signatureFlags: seq<string>,
    explanation: string,
    filename: string)

  /**
   * `detect`: an empty payload is refused; otherwise the scores are taken from the sample and
   * the flags from the whole payload.
   */
  function Detect(data: seq<bv8>, filename: string, entropyOf: seq<bv8> -> real, uniformityOf: seq<bv8> -> real)
    : (r: Result<VideoResponse, string>)
    ensures r.Err? <==> data == []
    ensures r.Ok? ==> r.value.repeatedChunkRatio == RepeatedChunkRatio(Sample(data, DefaultSampleBytes))
    ensures r.Ok? ==> r.value.signatureFlags == FlagNames(SignatureFlags(data, filename))
    ensures r.Ok? ==> r.value.prediction == MakePrediction(entropyOf(Sample(data, DefaultSampleBytes)),
      uniformityOf(Sample(data, DefaultSampleBytes)), r.value.repeatedChunkRatio, SignatureFlags(data, filename))
    ensures r.Ok? ==> (r.value.prediction.isAi <==> r.value.prediction.model.Some?)
  {
    if data == [] then Err("Uploaded video is empty")
    else
      var sampled := Sample(data, DefaultSampleBytes);
      var entropy := entropyOf(sampled);
      var uniformity := uniformityOf(sampled);
      var ratio := RepeatedChunkRatio(sampled);
      var flags := SignatureFlags(data, filename);
      var p := MakePrediction(entropy, uniformity, ratio, flags);
      Ok(VideoResponse(p, Round(|data| as real / (1024 * 1024) as real, Digits3), entropy, uniformity, ratio, FlagNames(flags),
                       Explanation(p.isAi, p.confidence, entropy, ratio, flags), filename))
  }
}
