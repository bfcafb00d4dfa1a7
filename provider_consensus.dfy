// `ProviderConsensusEngine`: one vote per detection provider (the local detector, three
// external APIs and C2PA provenance) and their weighted consensus. The HTTP exchanges are
// inputs: what the retrying post would return, or for the retry itself the outcome of each try.

module ProviderConsensus {
  import opened Common
  import opened Text
  import opened Collections
  import opened Numerals
  import opened Json
  import C2paVerifier

  datatype Provider = Internal | Copyleaks | RealityDefender | Hive | C2pa

  datatype VoteStatus = VoteOk | VoteUnsupported | VoteUnavailable | VoteError

  datatype EvidenceType = Heuristic | ExternalApi | C2paManifest

  datatype Verification = Verified | Unverified | Unsupported | VerificationError

  /** `ProviderConsensusVote` without its rationale text. */
  datatype Vote = Vote(
    provider: Provider,
    probability: real,
    weight: real,
    status: VoteStatus,
    evidenceType: EvidenceType,
    evidenceRef: Option<string>,
    verification: Verification)

  /** The per-provider weights, and the other settings the engine reads. */
  datatype Settings = Settings(
    internalWeight: real,
    copyleaksWeight: real,
    realityDefenderWeight: real,
    hiveWeight: real,
    c2paWeight: real,
    consensusEnabled: bool,
    consensusThreshold: real,
    copyleaksKey: bool,
    realityDefenderKey: bool,
    hiveKey: bool,
    c2paEnabled: bool)

  /** `_clip`: into [0, 1], leaving values already there alone. */
  function Clip(x: real): (r: real)
    ensures 0.0 <= r <= 1.0
    ensures 0.0 <= x <= 1.0 ==> r == x
    ensures x < 0.0 ==> r == 0.0
    ensures x > 1.0 ==> r == 1.0
  {
    Clamp(x, 0.0, 1.0)
  }

  /** `_vote`: the probability clipped and the weight at least zero. */
  function MakeVote(provider: Provider, probability: real, weight: real, status: VoteStatus,
                    evidenceType: EvidenceType, evidenceRef: Option<string>, verification: Verification): (v: Vote)
    ensures 0.0 <= v.probability <= 1.0 && v.weight >= 0.0
    ensures 0.0 <= probability <= 1.0 ==> v.probability == probability
    ensures weight >= 0.0 ==> v.weight == weight
    ensures v.provider == provider && v.status == status && v.evidenceRef == evidenceRef
  {
    Vote(provider, Clip(probability), MaxReal(0.0, weight), status, evidenceType, evidenceRef, verification)
  }

  // ---------------------------------------------------------------- responses

  /** A provider's HTTP response: status code, decoded body and headers. */
  datatype Reply = Reply(statusCode: int, body: Json, headers: seq<(string, string)>)

  /** `headers.get(key)`: the first header with that name. */
  function HeaderGet(headers: seq<(string, string)>, key: string): (r: Option<string>)
    ensures r.Some? ==> exists k :: 0 <= k < |headers| && headers[k] == (key, r.value)
    ensures r.None? ==> forall k :: 0 <= k < |headers| ==> headers[k].0 != key
  {
    if headers == [] then None
    else if headers[0].0 == key then Some(headers[0].1)
    else
      var r := HeaderGet(headers[1..], key);
      assert forall k :: 0 <= k < |headers[1..]| ==> headers[1..][k] == headers[k + 1];
      r
  }

  const RequestIdHeaders := ["x-request-id", "request-id", "x-correlation-id"]

  /** The headers from names on whose first value is not empty. */
  function FirstHeader(headers: seq<(string, string)>, names: seq<string>): (r: Option<string>)
    ensures r.Some? ==> r.value != [] && exists k :: 0 <= k < |names| && HeaderGet(headers, names[k]) == r
    ensures r.None? ==> forall k :: 0 <= k < |names| ==> HeaderGet(headers, names[k]) in {None, Some([])}
  {
    if names == [] then None
    else
      var v := HeaderGet(headers, names[0]);
      if v.Some? && v.value != [] then v
      else
        var r := FirstHeader(headers, names[1..]);
        assert forall k :: 0 <= k < |names[1..]| ==> names[1..][k] == names[k + 1];
        r
  }

  /** `_request_id`: the first non-empty of the three request-id headers. */
  function RequestId(reply: Reply): Option<string>
  {
    FirstHeader(reply.headers, RequestIdHeaders)
  }

  /** What `_post_with_retry` gave a provider adapter: a response, or the RuntimeError it raised. */
  type Posted = Result<Reply, string>

  // ---------------------------------------------------------------- dotted paths

  /** The walk of `_path_value` over keys: dict keys, and integer indexes into lists. */
  function PathWalk(node: Json, keys: seq<string>): Option<Json>
    decreases |keys|
  {
    if keys == [] then Some(node)
    else if node.JArr? then
      var index := ParseInt(keys[0]);
      if index.None? || index.value < 0 || index.value >= |node.items| then None
      else PathWalk(node.items[index.value], keys[1..])
    else if !HasKey(node, keys[0]) then None
    else PathWalk(Member(node, keys[0]), keys[1..])
  }

  /** What `_path_value` returns, None standing for Python's None where the walk stops. */
  function PathValueOf(payload: Json, path: string): Option<Json>
  {
    PathWalk(payload, Split(path, '.'))
  }

  /** `_path_value`: reassign the node key by key along the dotted path. */
  method PathValue(payload: Json, path: string) returns (r: Option<Json>)
    ensures r == PathValueOf(payload, path)
  {
    var keys := Split(path, '.');
    var node := payload;
    var i := 0;
    while i < |keys|
      invariant 0 <= i <= |keys|
      invariant PathWalk(payload, keys) == PathWalk(node, keys[i..])
    {
      assert keys[i..][0] == keys[i] && keys[i..][1..] == keys[i + 1..];
      if node.JArr? {
        var index := ParseInt(keys[i]);
        if index.None? || index.value < 0 || index.value >= |node.items| {
          return None;
        }
        node := node.items[index.value];
      } else {
        if !HasKey(node, keys[i]) {
          return None;
        }
        node := Member(node, keys[i]);
      }
      i := i + 1;
    }
    r := Some(node);
  }

  /** A walk made of two parts walks the first, then the second from where it ended. */
  lemma {:induction false} PathWalkAppend(node: Json, a: seq<string>, b: seq<string>)
    ensures PathWalk(node, a + b) == (match PathWalk(node, a) case None => None case Some(n) => PathWalk(n, b))
    decreases |a|
  {
    if a == [] {
      assert a + b == b;
    } else {
      assert (a + b)[0] == a[0] && (a + b)[1..] == a[1..] + b;
      if node.JArr? {
        var index := ParseInt(a[0]);
        if !(index.None? || index.value < 0 || index.value >= |node.items|) {
          PathWalkAppend(node.items[index.value], a[1..], b);
        }
      } else if HasKey(node, a[0]) {
        PathWalkAppend(Member(node, a[0]), a[1..], b);
      }
    }
  }

  /** The written-out index of an element of a list steps into that element. */
  lemma PathWalkIndex(items: seq<Json>, k: nat, rest: seq<string>)
    requires k < |items|
    ensures PathWalk(JArr(items), [IntToString(k)] + rest) == PathWalk(items[k], rest)
  {
    IntRoundTrip(k);
    assert ([IntToString(k)] + rest)[0] == IntToString(k);
    assert ([IntToString(k)] + rest)[1..] == rest;
  }

  /** A key that is not a number, or a number outside the list, stops the walk at a list. */
  lemma PathWalkBadIndex(items: seq<Json>, key: string, rest: seq<string>)
    requires ParseInt(key).None? || ParseInt(key).value < 0 || ParseInt(key).value >= |items|
    ensures PathWalk(JArr(items), [key] + rest) == None
  {
    assert ([key] + rest)[0] == key;
  }

  /** Where dicts alone lead somewhere, the walk goes the same way. */
  lemma {:induction false} PathWalkOnDicts(node: Json, keys: seq<string>)
    requires DictPath(node, keys).Some?
    ensures PathWalk(node, keys) == DictPath(node, keys)
    decreases |keys|
  {
    if keys != [] {
      PathWalkOnDicts(Member(node, keys[0]), keys[1..]);
    }
  }

  /** A walk stops with None at a value that is neither a list nor a dict. */
  lemma PathWalkScalar(node: Json, keys: seq<string>)
    requires keys != [] && !node.JArr? && !node.JObj?
    ensures PathWalk(node, keys) == None
  {
  }

  // ---------------------------------------------------------------- _extract_probability

  const DirectKeys := ["probability", "ai_probability", "score", "confidence"]
  const NestedKeys := ["result", "data", "prediction"]

  /** The value under the first of keys that holds a number. */
  function DirectNumber(payload: Json, keys: seq<string>): (r: Option<real>)
    ensures r.Some? ==> exists k :: 0 <= k < |keys| && IsSomeNumber(Get(payload, keys[k]))
                                  && r.value == NumberValue(Get(payload, keys[k]).value)
    ensures r.None? ==> forall k :: 0 <= k < |keys| ==> !IsSomeNumber(Get(payload, keys[k]))
  {
    if keys == [] then None
    else if IsSomeNumber(Get(payload, keys[0])) then Some(NumberValue(Get(payload, keys[0]).value))
    else
      assert forall k :: 0 <= k < |keys[1..]| ==> keys[1..][k] == keys[k + 1];
      DirectNumber(payload, keys[1..])
  }

  /** `_extract_probability`: a direct number first, else the first nested dict that gives one. */
  function ExtractProbability(payload: Json): Option<real>
    decreases payload, 1
  {
    if !payload.JObj? then None
    else if DirectNumber(payload, DirectKeys).Some? then DirectNumber(payload, DirectKeys)
    else NestedProbability(payload, NestedKeys)
  }

  /** The loop over the nested keys of `_extract_probability`. */
  function NestedProbability(payload: Json, keys: seq<string>): Option<real>
    requires payload.JObj?
    decreases payload, 0, |keys|
  {
    if keys == [] then None
    else
      var found := if HasKey(payload, keys[0]) then ExtractProbability(MemberOf(payload, keys[0])) else None;
      if found.Some? then found else NestedProbability(payload, keys[1..])
  }

  /** `payload[key]` of a dict that holds key, known to be smaller than the dict. */
  function MemberOf(payload: Json, key: string): (m: Json)
    requires HasKey(payload, key)
    ensures m < payload
    ensures m == Member(payload, key)
  {
    var i := KeyIndex(payload.members, key);
    assert payload.members[i] in payload.members;
    payload.members[i].1
  }

  /** A path of nested keys followed by one direct key, the shape `_extract_probability` searches. */
  predicate ProbabilityPath(keys: seq<string>)
  {
    |keys| >= 1 && keys[|keys| - 1] in DirectKeys
    && forall i :: 0 <= i < |keys| - 1 ==> keys[i] in NestedKeys
  }

  /**
   * A probability that is found is the number at the end of such a path of dict keys; a
   * number under a direct key, in the first of them, always wins.
   */
  lemma {:induction false} ExtractFound(payload: Json)
    requires ExtractProbability(payload).Some?
    ensures exists keys :: ProbabilityPath(keys) && IsSomeNumber(DictPath(payload, keys))
                         && NumberValue(DictPath(payload, keys).value) == ExtractProbability(payload).value
    decreases payload, 1
  {
    var d := DirectNumber(payload, DirectKeys);
    if d.Some? {
      var k :| 0 <= k < |DirectKeys| && IsSomeNumber(Get(payload, DirectKeys[k]))
               && d.value == NumberValue(Get(payload, DirectKeys[k]).value);
      var keys := [DirectKeys[k]];
      assert keys[1..] == [];
      assert DictPath(payload, keys) == Get(payload, DirectKeys[k]);
      assert ProbabilityPath(keys);
    } else {
      NestedFound(payload, NestedKeys);
    }
  }

  lemma {:induction false} NestedFound(payload: Json, keys: seq<string>)
    requires payload.JObj?
    requires forall k :: 0 <= k < |keys| ==> keys[k] in NestedKeys
    requires NestedProbability(payload, keys).Some?
    ensures exists path :: ProbabilityPath(path) && IsSomeNumber(DictPath(payload, path))
                         && NumberValue(DictPath(payload, path).value) == NestedProbability(payload, keys).value
    decreases payload, 0, |keys|
  {
    var found := if HasKey(payload, keys[0]) then ExtractProbability(MemberOf(payload, keys[0])) else None;
    if found.Some? {
      var m := MemberOf(payload, keys[0]);
      ExtractFound(m);
      var tail :| ProbabilityPath(tail) && IsSomeNumber(DictPath(m, tail))
                  && NumberValue(DictPath(m, tail).value) == found.value;
      var path := [keys[0]] + tail;
      assert path[0] == keys[0] && path[1..] == tail;
      assert DictPath(payload, path) == DictPath(m, tail);
      ProbabilityPathCons(keys[0], tail);
    } else {
      forall k | 0 <= k < |keys[1..]| ensures keys[1..][k] in NestedKeys {
        assert keys[1..][k] == keys[k + 1];
      }
      NestedFound(payload, keys[1..]);
    }
  }

  lemma ProbabilityPathCons(key: string, tail: seq<string>)
    requires key in NestedKeys && ProbabilityPath(tail)
    ensures ProbabilityPath([key] + tail)
  {
    var path := [key] + tail;
    forall i | 0 <= i < |path| - 1 ensures path[i] in NestedKeys {
      if i > 0 { assert path[i] == tail[i - 1]; }
    }
    assert path[|path| - 1] == tail[|tail| - 1];
  }

  /** Only a dict can hold a probability. */
  lemma ExtractNonDict(payload: Json)
    requires !payload.JObj?
    ensures ExtractProbability(payload).None?
  {
  }

  // ---------------------------------------------------------------- vendor schemas

  /** A candidate location and what it holds. */
  type Probe = (string, Option<Json>)

  /** The first numeric candidate, as `float` together with its path. */
  function FirstNumeric(probes: seq<Probe>): (r: Option<(real, string)>)
    ensures r.Some? ==> exists k :: 0 <= k < |probes| && IsSomeNumber(probes[k].1)
                          && r.value == (NumberValue(probes[k].1.value), probes[k].0)
                          && forall j :: 0 <= j < k ==> !IsSomeNumber(probes[j].1)
    ensures r.None? ==> forall k :: 0 <= k < |probes| ==> !IsSomeNumber(probes[k].1)
  {
    if probes == [] then None
    else if IsSomeNumber(probes[0].1) then Some((NumberValue(probes[0].1.value), probes[0].0))
    else
      var r := FirstNumeric(probes[1..]);
      assert forall k :: 0 <= k < |probes[1..]| ==> probes[1..][k] == probes[k + 1];
      r
  }

  function PathProbe(payload: Json, path: string): Probe
  {
    (path, PathValueOf(payload, path))
  }

  /** `_extract_reality_defender_probability`: the first number among six dotted paths. */
  function ExtractRealityDefenderProbability(payload: Json): Option<(real, string)>
  {
    if !payload.JObj? then None
    else FirstNumeric([
      PathProbe(payload, "result.score"),
      PathProbe(payload, "result.ai_probability"),
      PathProbe(payload, "prediction.ai_probability"),
      PathProbe(payload, "prediction.score"),
      PathProbe(payload, "data.ai_probability"),
      PathProbe(payload, "data.score")])
  }

  const HiveClassesPath := "status.0.response.output.0.classes"

  /** One class entry's score, when it is well formed and its class names a synthetic origin. */
  function ClassScore(item: Json): Option<real>
  {
    var rawLabel := Get(item, "class");
    var rawScore := Get(item, "score");
    if !(rawLabel.Some? && rawLabel.value.JStr?) || !IsSomeNumber(rawScore) then None
    else
      var l := Lower(rawLabel.value.s);
      if !ContainsStr(l, "ai") && !ContainsStr(l, "synthetic") && !ContainsStr(l, "deepfake") then None
      else Some(NumberValue(rawScore.value))
  }

  /** The best score over some entries, keeping the earlier one on a tie; None when none scores. */
  function BestBy<T>(xs: seq<T>, score: T -> Option<real>): Option<real>
  {
    if xs == [] then None
    else
      var best := BestBy(xs[..|xs| - 1], score);
      var s := score(xs[|xs| - 1]);
      if s.Some? && (best.None? || s.value > best.value) then s else best
  }

  /** The best score over the class entries. */
  function BestScore(items: seq<Json>): Option<real>
  {
    BestBy(items, ClassScore)
  }

  /** What `_collect_hive_class_score` returns. */
  function HiveClassScore(classes: Option<Json>): Option<real>
  {
    if classes.Some? && classes.value.JArr? then BestScore(classes.value.items) else None
  }

  /** `_collect_hive_class_score`: the `best_score` loop over the class entries. */
  method CollectHiveClassScore(classes: Option<Json>) returns (best: Option<real>)
    ensures best == HiveClassScore(classes)
  {
    if !(classes.Some? && classes.value.JArr?) {
      return None;
    }
    best := ScanClasses(classes.value.items);
  }

  method ScanClasses(items: seq<Json>) returns (best: Option<real>)
    ensures best == BestScore(items)
  {
    best := None;
    var i := 0;
    while i < |items|
      invariant 0 <= i <= |items|
      invariant best == BestBy(items[..i], ClassScore)
    {
      var score := ClassScore(items[i]);
      assert items[..i + 1][..i] == items[..i];
      if score.Some? && (best.None? || score.value > best.value) {
        best := score;
      }
      i := i + 1;
    }
    assert items[..i] == items;
  }

  /** The best score is the maximum over the entries that score, and None exactly when none does. */
  lemma {:induction false} BestByShape<T>(xs: seq<T>, score: T -> Option<real>)
    ensures var best := BestBy(xs, score);
      (best.None? <==> forall k :: 0 <= k < |xs| ==> score(xs[k]).None?)
      && (best.Some? ==>
            (exists k :: 0 <= k < |xs| && score(xs[k]) == best)
            && forall k :: 0 <= k < |xs| && score(xs[k]).Some? ==> score(xs[k]).value <= best.value)
    decreases |xs|
  {
    if xs != [] {
      var init := xs[..|xs| - 1];
      BestByShape(init, score);
      assert forall k :: 0 <= k < |init| ==> init[k] == xs[k];
      var best := BestBy(xs, score);
      if best.Some? && best == BestBy(init, score) {
        var k :| 0 <= k < |init| && score(init[k]) == best;
        assert score(xs[k]) == best;
      }
    }
  }

  /**
   * The Hive class score is the maximum score over the eligible class entries, and None
   * exactly when no entry is eligible.
   */
  lemma BestScoreShape(items: seq<Json>)
    ensures var best := BestScore(items);
      (best.None? <==> forall k :: 0 <= k < |items| ==> ClassScore(items[k]).None?)
      && (best.Some? ==>
            (exists k :: 0 <= k < |items| && ClassScore(items[k]) == best)
            && forall k :: 0 <= k < |items| && ClassScore(items[k]).Some? ==> ClassScore(items[k]).value <= best.value)
  {
    BestByShape(items, ClassScore);
  }

  /** `_extract_hive_probability`: six direct candidates, then the class-score list. */
  function ExtractHiveProbability(payload: Json): Option<(real, string)>
  {
    if !payload.JObj? then None
    else
      var direct := FirstNumeric([
        ("score", Get(payload, "score")),
        ("ai_probability", Get(payload, "ai_probability")),
        PathProbe(payload, "result.score"),
        PathProbe(payload, "result.ai_probability"),
        PathProbe(payload, "output.score"),
        PathProbe(payload, "output.ai_probability")]);
      if direct.Some? then direct
      else
        var classScore := HiveClassScore(PathValueOf(payload, HiveClassesPath));
        if classScore.Some? then Some((classScore.value, HiveClassesPath)) else None
  }

  // ---------------------------------------------------------------- the votes

  /** `not text`: no text, or an empty one. */
  predicate Missing<T>(v: Option<seq<T>>) { v.None? || v.value == [] }

  /** The half-way vote every adapter falls back on. */
  function Neutral(provider: Provider, weight: real, status: VoteStatus, evidenceType: EvidenceType,
                   evidenceRef: Option<string>, verification: Verification): Vote
  {
    MakeVote(provider, 0.5, weight, status, evidenceType, evidenceRef, verification)
  }

  /** The end of an external adapter once it has posted: error, or the clipped probability. */
  function ApiVote(provider: Provider, weight: real, posted: Posted, extract: Json -> Option<real>): Vote
  {
    match posted
    case Err(_) => Neutral(provider, weight, VoteError, ExternalApi, None, VerificationError)
    case Ok(reply) =>
      if reply.statusCode >= 400 then Neutral(provider, weight, VoteError, ExternalApi, RequestId(reply), VerificationError)
      else
        var p := extract(reply.body);
        if p.None? then Neutral(provider, weight, VoteError, ExternalApi, RequestId(reply), VerificationError)
        else MakeVote(provider, Clip(p.value), weight, VoteOk, ExternalApi, RequestId(reply), Verified)
  }

  function RealityDefenderProbability(body: Json): Option<real>
  {
    var r := ExtractRealityDefenderProbability(body);
    if r.Some? then Some(r.value.0) else None
  }

  function HiveProbability(body: Json): Option<real>
  {
    var r := ExtractHiveProbability(body);
    if r.Some? then Some(r.value.0) else None
  }

  /** `_copyleaks_vote`: text only, needs a key and a text; `posted` is the request's outcome. */
  function CopyleaksVote(s: Settings, contentType: string, text: Option<string>, posted: Posted): (v: Vote)
    ensures v.provider == Copyleaks && v.weight == MaxReal(0.0, s.copyleaksWeight)
    ensures v.status == VoteUnsupported <==> contentType != "text" || (s.copyleaksKey && Missing(text))
    ensures v.status == VoteUnavailable <==> contentType == "text" && !s.copyleaksKey
    ensures v.status == VoteOk <==>
      contentType == "text" && s.copyleaksKey && !Missing(text) &&
      posted.Ok? && posted.value.statusCode < 400 && ExtractProbability(posted.value.body).Some?
    ensures v.status == VoteOk ==> v.probability == Clip(ExtractProbability(posted.value.body).value)
    ensures v.status != VoteOk ==> v.probability == 0.5
  {
    var w := MaxReal(0.0, s.copyleaksWeight);
    ApiVoteShape(Copyleaks, w, posted, ExtractProbability);
    if contentType != "text" then Neutral(Copyleaks, w, VoteUnsupported, ExternalApi, None, Unsupported)
    else if !s.copyleaksKey then Neutral(Copyleaks, w, VoteUnavailable, ExternalApi, None, Unverified)
    else if Missing(text) then Neutral(Copyleaks, w, VoteUnsupported, ExternalApi, None, Unsupported)
    else ApiVote(Copyleaks, w, posted, ExtractProbability)
  }

  /** `_reality_defender_vote`: needs a key, and the text or the bytes the content type calls for. */
  function RealityDefenderVote(s: Settings, contentType: string, text: Option<string>, binary: Option<seq<bv8>>,
                               posted: Posted): (v: Vote)
    ensures v.provider == RealityDefender && v.weight == MaxReal(0.0, s.realityDefenderWeight)
    ensures v.status == VoteUnavailable <==> !s.realityDefenderKey
    ensures v.status == VoteUnsupported <==>
      s.realityDefenderKey && (if contentType == "text" then Missing(text) else Missing(binary))
    ensures v.status == VoteOk <==>
      s.realityDefenderKey && (if contentType == "text" then !Missing(text) else !Missing(binary)) &&
      posted.Ok? && posted.value.statusCode < 400 && RealityDefenderProbability(posted.value.body).Some?
    ensures v.status == VoteOk ==> v.probability == Clip(RealityDefenderProbability(posted.value.body).value)
    ensures v.status != VoteOk ==> v.probability == 0.5
  {
    var w := MaxReal(0.0, s.realityDefenderWeight);
    ApiVoteShape(RealityDefender, w, posted, RealityDefenderProbability);
    if !s.realityDefenderKey then Neutral(RealityDefender, w, VoteUnavailable, ExternalApi, None, Unverified)
    else if contentType == "text" && Missing(text) then Neutral(RealityDefender, w, VoteUnsupported, ExternalApi, None, Unsupported)
    else if contentType != "text" && Missing(binary) then Neutral(RealityDefender, w, VoteUnsupported, ExternalApi, None, Unsupported)
    else ApiVote(RealityDefender, w, posted, RealityDefenderProbability)
  }

  /** `_hive_vote`: the same gates as Reality Defender, with Hive's schema. */
  function HiveVote(s: Settings, contentType: string, text: Option<string>, binary: Option<seq<bv8>>,
                    posted: Posted): (v: Vote)
    ensures v.provider == Hive && v.weight == MaxReal(0.0, s.hiveWeight)
    ensures v.status == VoteUnavailable <==> !s.hiveKey
    ensures v.status == VoteUnsupported <==>
      s.hiveKey && (if contentType == "text" then Missing(text) else Missing(binary))
    ensures v.status == VoteOk <==>
      s.hiveKey && (if contentType == "text" then !Missing(text) else !Missing(binary)) &&
      posted.Ok? && posted.value.statusCode < 400 && HiveProbability(posted.value.body).Some?
    ensures v.status == VoteOk ==> v.probability == Clip(HiveProbability(posted.value.body).value)
    ensures v.status != VoteOk ==> v.probability == 0.5
  {
    var w := MaxReal(0.0, s.hiveWeight);
    ApiVoteShape(Hive, w, posted, HiveProbability);
    if !s.hiveKey then Neutral(Hive, w, VoteUnavailable, ExternalApi, None, Unverified)
    else if contentType == "text" && Missing(text) then Neutral(Hive, w, VoteUnsupported, ExternalApi, None, Unsupported)
    else if contentType != "text" && Missing(binary) then Neutral(Hive, w, VoteUnsupported, ExternalApi, None, Unsupported)
    else ApiVote(Hive, w, posted, HiveProbability)
  }

  /**
   * An external adapter's vote is ok only with a response below 400 whose probability was
   * found; every other vote stands at 0.5, and a reference is only ever a request id.
   */
  lemma ApiVoteShape(provider: Provider, weight: real, posted: Posted, extract: Json -> Option<real>)
    ensures var v := ApiVote(provider, weight, posted, extract);
      (v.status == VoteOk <==> posted.Ok? && posted.value.statusCode < 400 && extract(posted.value.body).Some?)
      && (v.status == VoteOk ==> v.probability == Clip(extract(posted.value.body).value) && v.verification == Verified)
      && (v.status != VoteOk ==> v.probability == 0.5 && v.status == VoteError)
      && (v.evidenceRef.Some? ==> posted.Ok? && v.evidenceRef == RequestId(posted.value))
      && v.weight == MaxReal(0.0, weight) && v.provider == provider
  {
  }

  /** Copyleaks never votes on anything but text, whatever the service would answer. */
  lemma CopyleaksTextOnly(s: Settings, contentType: string, text: Option<string>, posted: Posted, posted': Posted)
    requires contentType != "text"
    ensures CopyleaksVote(s, contentType, text, posted) == CopyleaksVote(s, contentType, text, posted')
    ensures CopyleaksVote(s, contentType, text, posted).status == VoteUnsupported
  {
  }

  /** Without its key an adapter is unavailable and its request is never consulted. */
  lemma MissingKeyUnavailable(s: Settings, contentType: string, text: Option<string>, binary: Option<seq<bv8>>,
                              posted: Posted, posted': Posted)
    requires !s.realityDefenderKey && !s.hiveKey
    ensures RealityDefenderVote(s, contentType, text, binary, posted).status == VoteUnavailable
    ensures HiveVote(s, contentType, text, binary, posted).status == VoteUnavailable
    ensures RealityDefenderVote(s, contentType, text, binary, posted) == RealityDefenderVote(s, contentType, text, binary, posted')
    ensures HiveVote(s, contentType, text, binary, posted) == HiveVote(s, contentType, text, binary, posted')
  {
  }

  /**
   * `_c2pa_vote`: the provenance verdict mapped onto a vote. With C2PA on and an image or
   * video, only a verdict of verified or unverified makes an ok vote; the probability leans
   * human (0.15) only for a verified manifest, a signed but unverified manifest gives 0.52 and
   * no manifest 0.58; every other vote stands at 0.5.
   */
  function C2paVote(s: Settings, contentType: string, verification: C2paVerifier.VerificationResult): (v: Vote)
    ensures v.provider == C2pa && v.weight == MaxReal(0.0, s.c2paWeight)
    ensures var applies := s.c2paEnabled && (contentType == "image" || contentType == "video");
      (v.status == VoteOk <==> applies && verification.status in {C2paVerifier.C2paVerified, C2paVerifier.C2paUnverified})
      && (v.status == VoteOk && v.probability < 0.5 <==> applies && verification.status == C2paVerifier.C2paVerified)
      && (v.status == VoteOk && verification.status == C2paVerifier.C2paUnverified ==>
            v.probability == (if verification.manifestPresent then 0.52 else 0.58))
      && (v.status != VoteOk ==> v.probability == 0.5)
      && (!s.c2paEnabled ==> v.status == VoteUnavailable)
      && (s.c2paEnabled && !applies ==> v.status == VoteUnsupported)
  {
    var w := MaxReal(0.0, s.c2paWeight);
    var ref := verification.manifestId;
    if !s.c2paEnabled then Neutral(C2pa, w, VoteUnavailable, C2paManifest, None, Unverified)
    else if contentType != "image" && contentType != "video" then Neutral(C2pa, w, VoteUnsupported, C2paManifest, None, Unsupported)
    else match verification.status
      case C2paVerified => MakeVote(C2pa, 0.15, w, VoteOk, C2paManifest, ref, Verified)
      case C2paUnverified => MakeVote(C2pa, if verification.manifestPresent then 0.52 else 0.58, w, VoteOk, C2paManifest, ref, Unverified)
      case C2paUnsupported => Neutral(C2pa, w, VoteUnsupported, C2paManifest, ref, Unsupported)
      case C2paUnavailable => Neutral(C2pa, w, VoteUnavailable, C2paManifest, ref, Unverified)
      case C2paError => Neutral(C2pa, w, VoteError, C2paManifest, ref, VerificationError)
  }

  /**
   * `_collect_external_votes`: Copyleaks, Reality Defender, Hive and C2PA, appended in that
   * order; each `posted` is what that adapter's request gave, `verification` what
   * `verify_bytes` found.
   */
  method CollectExternalVotes(s: Settings, contentType: string, text: Option<string>, binary: Option<seq<bv8>>,
                              copyleaksPosted: Posted, realityDefenderPosted: Posted, hivePosted: Posted,
                              verification: C2paVerifier.VerificationResult)
    returns (votes: seq<Vote>)
    ensures votes == [CopyleaksVote(s, contentType, text, copyleaksPosted),
                      RealityDefenderVote(s, contentType, text, binary, realityDefenderPosted),
                      HiveVote(s, contentType, text, binary, hivePosted),
                      C2paVote(s, contentType, verification)]
  {
    votes := [];
    votes := votes + [CopyleaksVote(s, contentType, text, copyleaksPosted)];
    votes := votes + [RealityDefenderVote(s, contentType, text, binary, realityDefenderPosted)];
    votes := votes + [HiveVote(s, contentType, text, binary, hivePosted)];
    votes := votes + [C2paVote(s, contentType, verification)];
  }

  // ---------------------------------------------------------------- consensus

  /** A vote that counts: status ok and a positive weight. */
  predicate Active(v: Vote) { v.status == VoteOk && v.weight > 0.0 }

  function WeightedTotal(vs: seq<Vote>): real
  {
    if vs == [] then 0.0 else vs[0].probability * vs[0].weight + WeightedTotal(vs[1..])
  }

  function WeightSum(vs: seq<Vote>): real
  {
    if vs == [] then 0.0 else vs[0].weight + WeightSum(vs[1..])
  }

  /** The final probability: the clipped weighted mean of the active votes, else the internal one. */
  function FinalProbability(internalProbability: real, votes: seq<Vote>): real
  {
    var active := Filter(votes, Active);
    if active != [] && WeightSum(active) > 0.0 then Clip(WeightedTotal(active) / WeightSum(active))
    else Clip(internalProbability)
  }

  /** The mean of the probabilities. */
  function MeanProbability(ps: seq<real>): real
    requires ps != []
  {
    SumReal(ps) / |ps| as real
  }

  function SquaredDeviations(ps: seq<real>, m: real): real
  {
    if ps == [] then 0.0 else (ps[0] - m) * (ps[0] - m) + SquaredDeviations(ps[1..], m)
  }

  /** `statistics.pvariance` */
  function PVariance(ps: seq<real>): real
    requires ps != []
  {
    SquaredDeviations(ps, MeanProbability(ps)) / |ps| as real
  }

  /**
   * The square of `_disagreement`: 0 for at most one probability, else (2.5 · pstdev)² capped
   * at 1. The square root itself is not modelled.
   */
  function DisagreementSquared(ps: seq<real>): real
  {
    if |ps| <= 1 then 0.0 else MinReal(1.0, 6.25 * PVariance(ps))
  }

  datatype ConsensusSummary = ConsensusSummary(
    finalProbability: real,
    threshold: real,
    isAiGenerated: bool,
    disagreementSquared: real,
    providers: seq<Vote>)

  /** The internal detector's vote, always ok and verified. */
  function InternalVote(s: Settings, internalProbability: real): Vote
  {
    MakeVote(Internal, Clip(internalProbability), MaxReal(0.0, s.internalWeight), VoteOk, Heuristic, None, Verified)
  }

  /** What `build_consensus` returns, given the external votes collected. */
  function Consensus(s: Settings, internalProbability: real, external: seq<Vote>): (c: ConsensusSummary)
    ensures 0.0 <= c.finalProbability <= 1.0 && 0.0 <= c.threshold <= 1.0
    ensures 0.0 <= c.disagreementSquared <= 1.0
    ensures |c.providers| == 1 + (if s.consensusEnabled then |external| else 0)
    ensures c.isAiGenerated <==> FinalProbability(internalProbability, c.providers) >= c.threshold
  {
    ConsensusBounds(internalProbability, [InternalVote(s, internalProbability)] + (if s.consensusEnabled then external else []));
    var votes := [InternalVote(s, internalProbability)] + (if s.consensusEnabled then external else []);
    var final := FinalProbability(internalProbability, votes);
    var active := Filter(votes, Active);
    var threshold := Clip(s.consensusThreshold);
    ConsensusSummary(
      Round(final, Digits3), threshold, final >= threshold,
      if active != [] then DisagreementSquared(MapSeq(active, (v: Vote) => v.probability)) else 0.0,
      votes)
  }

  // ---------------------------------------------------------------- consensus lemmas

  /** The rounded final probability and the squared disagreement of any votes lie in [0, 1]. */
  lemma ConsensusBounds(internalProbability: real, votes: seq<Vote>)
    ensures 0.0 <= Round(FinalProbability(internalProbability, votes), Digits3) <= 1.0
    ensures var active := Filter(votes, Active);
      active != [] ==> 0.0 <= DisagreementSquared(MapSeq(active, (v: Vote) => v.probability)) <= 1.0
  {
    var final := FinalProbability(internalProbability, votes);
    RoundMonotone(0.0, final, Digits3);
    RoundMonotone(final, 1.0, Digits3);
    RoundOfInt(0, Digits3);
    RoundOfInt(1, Digits3);
    var active := Filter(votes, Active);
    if active != [] {
      DisagreementBounds(MapSeq(active, (v: Vote) => v.probability));
    }
  }

  lemma MulNonneg(a: real, b: real)
    requires a >= 0.0 && b >= 0.0
    ensures a * b >= 0.0
  {
  }

  /** The weighted total of probabilities in [lo, hi] lies between lo and hi times the weight. */
  lemma {:induction false} WeightedBounds(vs: seq<Vote>, lo: real, hi: real)
    requires forall i :: 0 <= i < |vs| ==> lo <= vs[i].probability <= hi && vs[i].weight >= 0.0
    ensures lo * WeightSum(vs) <= WeightedTotal(vs) <= hi * WeightSum(vs)
  {
    if vs != [] {
      WeightedBounds(vs[1..], lo, hi);
      var v := vs[0];
      MulNonneg(v.probability - lo, v.weight);
      MulNonneg(hi - v.probability, v.weight);
    }
  }

  lemma {:induction false} WeightSumPositive(vs: seq<Vote>)
    requires vs != [] && forall i :: 0 <= i < |vs| ==> vs[i].weight > 0.0
    ensures WeightSum(vs) > 0.0
  {
    if |vs| > 1 {
      WeightSumPositive(vs[1..]);
    }
  }

  /** A product with a positive factor has the sign of the other factor. */
  lemma ProductSign(a: real, w: real)
    requires w > 0.0 && a * w >= 0.0
    ensures a >= 0.0
  {
    if a < 0.0 {
      ProductPositive(-a, w);
      assert false;
    }
  }

  lemma ProductPositive(a: real, b: real)
    requires a > 0.0 && b > 0.0
    ensures a * b > 0.0
  {
  }

  lemma DivBounds(t: real, w: real, lo: real, hi: real)
    requires w > 0.0 && lo * w <= t <= hi * w
    ensures lo <= t / w <= hi
  {
    var q := t / w;
    assert q * w == t;
    assert (q - lo) * w == t - lo * w;
    assert (hi - q) * w == hi * w - t;
    ProductSign(q - lo, w);
    ProductSign(hi - q, w);
  }

  /**
   * The final probability lies between the smallest and the largest active probability; with
   * no active vote it is the clipped internal probability.
   */
  lemma FinalBetween(internalProbability: real, votes: seq<Vote>, lo: real, hi: real)
    requires 0.0 <= lo <= hi <= 1.0
    requires forall v :: v in votes && Active(v) ==> lo <= v.probability <= hi
    ensures var final := FinalProbability(internalProbability, votes);
      0.0 <= final <= 1.0
      && (Filter(votes, Active) != [] ==> lo <= final <= hi)
      && (Filter(votes, Active) == [] ==> final == Clip(internalProbability))
  {
    var active := Filter(votes, Active);
    if active != [] {
      forall i | 0 <= i < |active| ensures lo <= active[i].probability <= hi && active[i].weight > 0.0 {
        assert active[i] in active;
      }
      WeightSumPositive(active);
      WeightedBounds(active, lo, hi);
      DivBounds(WeightedTotal(active), WeightSum(active), lo, hi);
    }
  }

  /** When every active vote says p, so does the consensus. */
  lemma Unanimous(internalProbability: real, votes: seq<Vote>, p: real)
    requires 0.0 <= p <= 1.0
    requires Filter(votes, Active) != []
    requires forall v :: v in votes && Active(v) ==> v.probability == p
    ensures FinalProbability(internalProbability, votes) == p
  {
    FinalBetween(internalProbability, votes, p, p);
  }

  /** A vote that does not count, an error, an unsupported provider or a zero weight, changes nothing. */
  lemma InactiveIgnored(internalProbability: real, votes: seq<Vote>, v: Vote)
    requires !Active(v)
    ensures FinalProbability(internalProbability, votes + [v]) == FinalProbability(internalProbability, votes)
  {
    FilterAppend(votes, v, Active);
    assert Filter(votes, Active) + [] == Filter(votes, Active);
  }

  /**
   * The internal vote comes first, followed by the external votes exactly when consensus is
   * on; with consensus off the result is the clipped internal probability; the verdict is AI
   * exactly when the final probability reaches the clipped threshold; and the disagreement is 0
   * with at most one active vote.
   */
  lemma ConsensusShape(s: Settings, internalProbability: real, external: seq<Vote>)
    ensures var c := Consensus(s, internalProbability, external);
      var votes := c.providers;
      var final := FinalProbability(internalProbability, votes);
      |votes| >= 1 && votes[0] == InternalVote(s, internalProbability)
      && votes[1..] == (if s.consensusEnabled then external else [])
      && c.threshold == Clip(s.consensusThreshold)
      && (c.isAiGenerated <==> final >= Clip(s.consensusThreshold))
      && (!s.consensusEnabled ==> final == Clip(internalProbability))
      && (|Filter(votes, Active)| <= 1 ==> c.disagreementSquared == 0.0)
  {
    var c := Consensus(s, internalProbability, external);
    var votes := c.providers;
    assert votes[1..] == (if s.consensusEnabled then external else []);
    if !s.consensusEnabled {
      var iv := InternalVote(s, internalProbability);
      assert votes == [iv];
      FinalBetween(internalProbability, votes, Clip(internalProbability), Clip(internalProbability));
    }
  }

  /** The squared disagreement lies in [0, 1], and is 0 when the probabilities agree. */
  lemma DisagreementBounds(ps: seq<real>)
    ensures 0.0 <= DisagreementSquared(ps) <= 1.0
    ensures (forall i, j :: 0 <= i < |ps| && 0 <= j < |ps| ==> ps[i] == ps[j]) ==> DisagreementSquared(ps) == 0.0
  {
    if |ps| > 1 {
      var m := MeanProbability(ps);
      SquaresNonneg(ps, m);
      if forall i, j :: 0 <= i < |ps| && 0 <= j < |ps| ==> ps[i] == ps[j] {
        SumOfEqual(ps, ps[0]);
        assert m == ps[0];
        SquaresOfEqual(ps, m);
      }
    }
  }

  lemma {:induction false} SquaresNonneg(ps: seq<real>, m: real)
    ensures SquaredDeviations(ps, m) >= 0.0
  {
    if ps != [] {
      SquaresNonneg(ps[1..], m);
      var d := ps[0] - m;
      if d < 0.0 { MulNonneg(-d, -d); } else { MulNonneg(d, d); }
    }
  }

  lemma {:induction false} SumOfEqual(ps: seq<real>, x: real)
    requires forall i :: 0 <= i < |ps| ==> ps[i] == x
    ensures SumReal(ps) == x * |ps| as real
  {
    if ps != [] {
      SumOfEqual(ps[1..], x);
    }
  }

  lemma {:induction false} SquaresOfEqual(ps: seq<real>, m: real)
    requires forall i :: 0 <= i < |ps| ==> ps[i] == m
    ensures SquaredDeviations(ps, m) == 0.0
  {
    if ps != [] {
      SquaresOfEqual(ps[1..], m);
    }
  }

  // ---------------------------------------------------------------- _post_with_retry

  /** What one post does: a transport error (`httpx.HTTPError`) or a response. */
  datatype Attempt = TransportError(detail: string) | Answered(reply: Reply)

  /** `max(1, int(provider_retry_attempts))` */
  function AttemptCount(setting: int): (n: nat)
    ensures n >= 1 && n >= setting
  {
    if setting < 1 then 1 else setting
  }

  /** A try that is worth repeating while tries remain. */
  predicate Retryable(a: Attempt)
  {
    a.TransportError? || a.reply.statusCode >= 500
  }

  /**
   * What the tries from `attempt` on lead to: the result, the number of the last try made,
   * and the sleeps taken before each later try (backoff × attempt).
   */
  function RetryFrom(outcomes: seq<Attempt>, attempts: nat, backoff: real, attempt: nat): (Result<Reply, string>, nat, seq<real>)
    requires 1 <= attempt <= attempts <= |outcomes|
    decreases attempts - attempt
  {
    var o := outcomes[attempt - 1];
    if attempt < attempts && Retryable(o) then
      var rest := RetryFrom(outcomes, attempts, backoff, attempt + 1);
      (rest.0, rest.1, [backoff * attempt as real] + rest.2)
    else if o.TransportError? then (Err("HTTP error: " + o.detail), attempt, [])
    else (Ok(o.reply), attempt, [])
  }

  /** A retryable attempt before the last one sleeps and defers to the next. */
  lemma RetryFromStep(outcomes: seq<Attempt>, attempts: nat, backoff: real, attempt: nat)
    requires 1 <= attempt < attempts <= |outcomes| && Retryable(outcomes[attempt - 1])
    ensures var later := RetryFrom(outcomes, attempts, backoff, attempt + 1);
      RetryFrom(outcomes, attempts, backoff, attempt) == (later.0, later.1, [backoff * attempt as real] + later.2)
  {
  }

  /**
   * `_post_with_retry`, with `outcomes[k]` what the (k+1)-th post would do: returns the result,
   * how many posts were made, and the sleeps between them.
   */
  method PostWithRetry(attemptsSetting: int, backoffSetting: real, outcomes: seq<Attempt>)
    returns (result: Result<Reply, string>, posts: nat, sleeps: seq<real>)
    requires |outcomes| >= AttemptCount(attemptsSetting)
    ensures (result, posts, sleeps) == RetryFrom(outcomes, AttemptCount(attemptsSetting), MaxReal(0.0, backoffSetting), 1)
  {
    var attempts := AttemptCount(attemptsSetting);
    var backoff := MaxReal(0.0, backoffSetting);
    var done: seq<real> := [];
    var attempt := 1;
    assert done + RetryFrom(outcomes, attempts, backoff, 1).2 == RetryFrom(outcomes, attempts, backoff, 1).2;
    while true
      invariant 1 <= attempt <= attempts
      invariant |done| == attempt - 1
      invariant forall k :: 0 <= k < attempt - 1 ==> Retryable(outcomes[k]) && done[k] == backoff * (k + 1) as real
      invariant RetryFrom(outcomes, attempts, backoff, 1).0 == RetryFrom(outcomes, attempts, backoff, attempt).0
      invariant RetryFrom(outcomes, attempts, backoff, 1).1 == RetryFrom(outcomes, attempts, backoff, attempt).1
      invariant RetryFrom(outcomes, attempts, backoff, 1).2 == done + RetryFrom(outcomes, attempts, backoff, attempt).2
      decreases attempts - attempt
    {
      var outcome := outcomes[attempt - 1];
      if attempt < attempts && Retryable(outcome) {
        var later := RetryFrom(outcomes, attempts, backoff, attempt + 1);
        RetryFromStep(outcomes, attempts, backoff, attempt);
        assert done + ([backoff * attempt as real] + later.2) == (done + [backoff * attempt as real]) + later.2;
        done := done + [backoff * attempt as real];
        attempt := attempt + 1;
      } else if outcome.TransportError? {
        assert done + [] == done;
        return Err("HTTP error: " + outcome.detail), attempt, done;
      } else {
        assert done + [] == done;
        return Ok(outcome.reply), attempt, done;
      }
    }
  }

  /**
   * At most max(1, attempts) posts; every try before the last made was a transport error or a
   * 5xx; the result is the first answer below 500, or, at the last try, its answer or its
   * transport error; the k-th sleep is backoff × k.
   */
  lemma {:induction false} RetryShape(outcomes: seq<Attempt>, attempts: nat, backoff: real, attempt: nat)
    requires 1 <= attempt <= attempts <= |outcomes|
    ensures var (r, n, sleeps) := RetryFrom(outcomes, attempts, backoff, attempt);
      attempt <= n <= attempts
      && |sleeps| == n - attempt
      && (forall k :: 0 <= k < |sleeps| ==> sleeps[k] == backoff * (attempt + k) as real)
      && (forall k :: attempt - 1 <= k < n - 1 ==> Retryable(outcomes[k]))
      && (n < attempts ==> !Retryable(outcomes[n - 1]))
      && (r.Ok? ==> outcomes[n - 1].Answered? && r.value == outcomes[n - 1].reply)
      && (r.Err? ==> n == attempts && outcomes[n - 1].TransportError?)
    decreases attempts - attempt
  {
    if attempt < attempts && Retryable(outcomes[attempt - 1]) {
      RetryShape(outcomes, attempts, backoff, attempt + 1);
    }
  }
}
