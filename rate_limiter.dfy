// The API's request gate: an optional API-key check, a fixed-window request limit per client
// and endpoint bucket, and a per-client daily budget of spend points.

module RateLimiter {
  import opened Common
  import opened Text

  /** The endpoint families that get their own request limits and prices. */
  datatype Bucket = TextBucket | MediaBucket | BatchBucket | IntelBucket | DefaultBucket

  /** The configuration values the limiter reads. */
  datatype Limits = Limits(
    windowSeconds: int,
    requests: int,
    mediaRequests: int,
    batchRequests: int,
    intelRequests: int,
    costText: int,
    costImage: int,
    costAudio: int,
    costVideo: int,
    costBatch: int,
    costIntel: int,
    dailySpendCap: int)

  /** What an admitted call reports back. */
  datatype Usage = Usage(cost: int, dailyPoints: int, limit: int)

  /**
   * Why a call is refused. `WindowFault` is the crash a limit of zero or less causes: the
   * window is empty, so there is no oldest hit to compute Retry-After from.
   */
  datatype Refusal = RateExceeded(retryAfter: int) | SpendCapReached | InvalidApiKey | WindowFault

  /** The HTTP status each refusal surfaces as. */
  function StatusOf(r: Refusal): (code: int)
    ensures code == 429 <==> r.RateExceeded? || r.SpendCapReached?
    ensures code == 401 <==> r.InvalidApiKey?
  {
    match r
    case RateExceeded(_) => 429
    case SpendCapReached => 429
    case InvalidApiKey => 401
    case WindowFault => 500
  }

  /** The bucket's name as it appears in the hit key. */
  function BucketName(b: Bucket): (name: string)
    ensures ':' !in name
  {
    match b
    case TextBucket => "text"
    case MediaBucket => "media"
    case BatchBucket => "batch"
    case IntelBucket => "intel"
    case DefaultBucket => "default"
  }

  predicate MediaSuffix(path: string)
  {
    EndsWith(path, "/image") || EndsWith(path, "/audio") || EndsWith(path, "/video") || EndsWith(path, "/url")
  }

  /** `_path_bucket`: the first matching rule decides. */
  function PathBucket(path: string): Bucket
  {
    if EndsWith(path, "/detect/text") then TextBucket
    else if ContainsStr(path, "/detect/") && MediaSuffix(path) then MediaBucket
    else if ContainsStr(path, "/batch/") then BatchBucket
    else if ContainsStr(path, "/intel/") then IntelBucket
    else DefaultBucket
  }

  /** Each bucket is reached exactly by the paths its rule and no earlier rule matches. */
  lemma PathBucketRules(path: string)
    ensures PathBucket(path) == TextBucket <==> EndsWith(path, "/detect/text")
    ensures PathBucket(path) == MediaBucket <==>
      !EndsWith(path, "/detect/text") && Contains(path, "/detect/") && MediaSuffix(path)
    ensures PathBucket(path) == DefaultBucket ==>
      !Contains(path, "/batch/") && !Contains(path, "/intel/") && !EndsWith(path, "/detect/text")
  {
  }

  /** `_limit_for_bucket`: the text bucket shares the default request limit. */
  function LimitFor(s: Limits, b: Bucket): int
  {
    match b
    case MediaBucket => s.mediaRequests
    case BatchBucket => s.batchRequests
    case IntelBucket => s.intelRequests
    case _ => s.requests
  }

  /** `_cost_for_bucket`: media costs as much as its dearest kind; unpriced endpoints cost 1. */
  function CostFor(s: Limits, b: Bucket): (cost: int)
    ensures b == MediaBucket ==>
      cost >= s.costImage && cost >= s.costAudio && cost >= s.costVideo &&
      (cost == s.costImage || cost == s.costAudio || cost == s.costVideo)
    ensures b == DefaultBucket ==> cost == 1
  {
    match b
    case TextBucket => s.costText
    case MediaBucket => MaxInt(MaxInt(s.costImage, s.costAudio), s.costVideo)
    case BatchBucket => s.costBatch
    case IntelBucket => s.costIntel
    case DefaultBucket => 1
  }

  /** `f"{key}:{suffix}"`, the shape of both the hit key and the day key. */
  function Keyed(key: string, suffix: string): string
  {
    key + ":" + suffix
  }

  function HitKey(key: string, b: Bucket): string
  {
    Keyed(key, BucketName(b))
  }

  /** The day key; `today` is the ISO date of the current UTC day. */
  function DayKey(key: string, today: string): string
  {
    Keyed(key, today)
  }

  /** A suffix without a colon cannot reach back over the colon before another suffix. */
  lemma KeyedSuffixLength(k1: string, s1: string, k2: string, s2: string)
    requires ':' !in s2
    requires Keyed(k1, s1) == Keyed(k2, s2)
    ensures |s2| <= |s1|
  {
    var w := Keyed(k1, s1);
    assert w[|k1|] == ':';
  }

  /**
   * Keys built from different clients, or from different colon-free suffixes, differ: the hit
   * windows and point totals of distinct clients and buckets never share an entry, although
   * client keys themselves may contain colons.
   */
  lemma KeyedInjective(k1: string, s1: string, k2: string, s2: string)
    requires ':' !in s1 && ':' !in s2
    requires Keyed(k1, s1) == Keyed(k2, s2)
    ensures k1 == k2 && s1 == s2
  {
    KeyedSuffixLength(k1, s1, k2, s2);
    KeyedSuffixLength(k2, s2, k1, s1);
    var w := Keyed(k1, s1);
    assert s1 == w[|w| - |s1|..] == s2;
    assert k1 == w[..|k1|] == k2;
  }

  lemma DistinctClientsDistinctHitKeys(k1: string, k2: string, b1: Bucket, b2: Bucket)
    requires k1 != k2 || b1 != b2
    ensures HitKey(k1, b1) != HitKey(k2, b2)
  {
    if HitKey(k1, b1) == HitKey(k2, b2) {
      KeyedInjective(k1, BucketName(b1), k2, BucketName(b2));
      assert false;
    }
  }

  lemma DistinctClientsDistinctDayKeys(k1: string, k2: string, today: string)
    requires ':' !in today
    requires k1 != k2
    ensures DayKey(k1, today) != DayKey(k2, today)
  {
    if DayKey(k1, today) == DayKey(k2, today) {
      KeyedInjective(k1, today, k2, today);
      assert false;
    }
  }

  /** The timestamps the eviction loop pops: the leading run of hits at or before the cutoff. */
  function DropExpired(w: seq<real>, cutoff: real): (kept: seq<real>)
    ensures |kept| <= |w|
    ensures kept != [] ==> kept[0] > cutoff
    ensures forall i :: 0 <= i < |w| - |kept| ==> w[i] <= cutoff
  {
    if w != [] && w[0] <= cutoff then DropExpired(w[1..], cutoff) else w
  }

  /** What eviction keeps is the tail of the window: hits are only ever removed from the front. */
  lemma {:induction false} DropExpiredSuffix(w: seq<real>, cutoff: real)
    ensures var kept := DropExpired(w, cutoff); kept == w[|w| - |kept|..]
  {
    if w != [] && w[0] <= cutoff {
      DropExpiredSuffix(w[1..], cutoff);
      assert w[1..][|w| - 1 - |DropExpired(w[1..], cutoff)|..] == w[|w| - |DropExpired(w[1..], cutoff)|..];
    }
  }

  predicate Ascending(w: seq<real>)
  {
    forall i, j :: 0 <= i < j < |w| ==> w[i] <= w[j]
  }

  /** On a window kept in time order, eviction removes every expired hit and only those. */
  lemma DropExpiredAscending(w: seq<real>, cutoff: real)
    requires Ascending(w)
    ensures Ascending(DropExpired(w, cutoff)) && Live(DropExpired(w, cutoff), cutoff)
  {
    var kept := DropExpired(w, cutoff);
    DropExpiredSuffix(w, cutoff);
    var d := |w| - |kept|;
    forall i | 0 <= i < |kept|
      ensures kept[i] > cutoff
    {
      assert kept[i] == w[d + i] && kept[0] == w[d];
    }
  }

  /** Appending the current time to a window of earlier hits keeps it in time order. */
  lemma AppendAscending(w: seq<real>, now: real)
    requires Ascending(w)
    requires forall i :: 0 <= i < |w| ==> w[i] <= now
    ensures Ascending(w + [now])
  {
  }

  /** Seconds until the oldest hit in the window expires, never less than one. */
  function RetryAfter(windowSeconds: int, now: real, oldest: real): (r: int)
    ensures r >= 1
  {
    MaxInt(1, Trunc(windowSeconds as real - (now - oldest)))
  }

  /** For a hit inside the window, taken no later than now, the wait is at most the window. */
  lemma RetryAfterWithinWindow(windowSeconds: int, now: real, oldest: real)
    requires windowSeconds >= 1
    requires now - windowSeconds as real < oldest <= now
    ensures 1 <= RetryAfter(windowSeconds, now, oldest) <= windowSeconds
  {
  }

  /**
   * The decision `check` takes once expired hits are gone: the window limit first, then the
   * daily budget.
   */
  function Admission(kept: seq<real>, now: real, s: Limits, b: Bucket, current: int): (r: Result<Usage, Refusal>)
    ensures r.Ok? <==> |kept| < LimitFor(s, b) && current + CostFor(s, b) <= s.dailySpendCap
    ensures r.Ok? ==>
      r.value.cost == CostFor(s, b) && r.value.dailyPoints == current + r.value.cost &&
      r.value.limit == LimitFor(s, b) && |kept| + 1 <= r.value.limit &&
      r.value.dailyPoints <= s.dailySpendCap
    ensures r.Err? ==> r.error.RateExceeded? || r.error.SpendCapReached? || r.error.WindowFault?
    ensures r == Err(SpendCapReached) <==>
      |kept| < LimitFor(s, b) && current + CostFor(s, b) > s.dailySpendCap
    ensures r.Err? && r.error.RateExceeded? ==>
      kept != [] && |kept| >= LimitFor(s, b) && r.error.retryAfter >= 1
    ensures r == Err(WindowFault) <==> kept == [] && LimitFor(s, b) <= 0
  {
    var limit := LimitFor(s, b);
    var cost := CostFor(s, b);
    if |kept| >= limit then
      if kept == [] then Err(WindowFault)
      else Err(RateExceeded(RetryAfter(s.windowSeconds, now, kept[0])))
    else if current + cost > s.dailySpendCap then Err(SpendCapReached)
    else Ok(Usage(cost, current + cost, limit))
  }

  function Lookup<V>(m: map<string, V>, k: string, default: V): V
  {
    if k in m then m[k] else default
  }

  /** `InMemoryRateLimiter`: hit windows per "client:bucket", spend points per "client:day". */
  class InMemoryRateLimiter {
    var hits: map<string, seq<real>>
    var dailyPoints: map<string, int>

    constructor ()
      ensures hits == map[] && dailyPoints == map[]
    {
      hits := map[];
      dailyPoints := map[];
    }

    /** No client's total for any day is above the cap. */
    predicate WithinCap(cap: int)
      reads this
    {
      forall k :: k in dailyPoints ==> dailyPoints[k] <= cap
    }

    /** Every window is in time order and holds no hit later than `now`. */
    predicate OrderedUpTo(now: real)
      reads this
    {
      Ordered(hits, now)
    }

    /**
     * `check`: drop the expired hits of this client's bucket, then admit the call (recording
     * the hit and the points) or refuse it (recording nothing more). Every other window and
     * every other total is left as it was.
     */
    method Check(key: string, path: string, now: real, today: string, s: Limits)
      returns (r: Result<Usage, Refusal>)
      modifies this
      ensures r == Admission(Kept(old(hits), key, PathBucket(path), now, s), now, s, PathBucket(path),
                             Lookup(old(dailyPoints), DayKey(key, today), 0))
      ensures hits == old(hits)[HitKey(key, PathBucket(path)) := Recorded(r, Kept(old(hits), key, PathBucket(path), now, s), now)]
      ensures dailyPoints == if r.Ok? then old(dailyPoints)[DayKey(key, today) := r.value.dailyPoints] else old(dailyPoints)
      ensures old(WithinCap(s.dailySpendCap)) ==> WithinCap(s.dailySpendCap)
    {
      r := CheckBucket(key, PathBucket(path), now, today, s);
    }

    /** The body of `check` once the path has been classified. */
    method CheckBucket(key: string, bucket: Bucket, now: real, today: string, s: Limits)
      returns (r: Result<Usage, Refusal>)
      modifies this
      ensures r == Admission(Kept(old(hits), key, bucket, now, s), now, s, bucket,
                             Lookup(old(dailyPoints), DayKey(key, today), 0))
      ensures hits == old(hits)[HitKey(key, bucket) := Recorded(r, Kept(old(hits), key, bucket, now, s), now)]
      ensures dailyPoints == if r.Ok? then old(dailyPoints)[DayKey(key, today) := r.value.dailyPoints] else old(dailyPoints)
      ensures old(WithinCap(s.dailySpendCap)) ==> WithinCap(s.dailySpendCap)
    {
      var limit := LimitFor(s, bucket);
      var cost := CostFor(s, bucket);
      var hitKey := HitKey(key, bucket);
      var window := Lookup(hits, hitKey, []);
      var cutoff := now - s.windowSeconds as real;
      while window != [] && window[0] <= cutoff
        invariant hits == old(hits) && dailyPoints == old(dailyPoints)
        invariant DropExpired(window, cutoff) == DropExpired(Lookup(hits, hitKey, []), cutoff)
        decreases |window|
      {
        window := window[1..];
      }
      ghost var kept := Kept(hits, key, bucket, now, s);
      assert window == kept;
      var dayKey := DayKey(key, today);
      var current := Lookup(dailyPoints, dayKey, 0);
      if |window| >= limit {
        hits := hits[hitKey := window];
        if window == [] {
          r := Err(WindowFault);
          assert r == Admission(window, now, s, bucket, current);
          return;
        }
        r := Err(RateExceeded(RetryAfter(s.windowSeconds, now, window[0])));
        assert r == Admission(window, now, s, bucket, current);
        return;
      }
      var nextPoints := current + cost;
      if nextPoints > s.dailySpendCap {
        hits := hits[hitKey := window];
        r := Err(SpendCapReached);
        assert r == Admission(window, now, s, bucket, current);
        return;
      }
      r := Ok(Usage(cost, nextPoints, limit));
      assert r == Admission(window, now, s, bucket, current);
      hits := hits[hitKey := window + [now]];
      dailyPoints := dailyPoints[dayKey := nextPoints];
    }
  }

  /** The client's window for the bucket once the hits at or before the cutoff are gone. */
  function Kept(hits: map<string, seq<real>>, key: string, b: Bucket, now: real, s: Limits): seq<real>
  {
    DropExpired(Lookup(hits, HitKey(key, b), []), now - s.windowSeconds as real)
  }

  /** The window `check` leaves behind: the live hits, and the new one when the call is admitted. */
  function Recorded(r: Result<Usage, Refusal>, kept: seq<real>, now: real): seq<real>
  {
    if r.Ok? then kept + [now] else kept
  }

  /** Every window is in time order and holds no hit later than `now`. */
  predicate Ordered(hits: map<string, seq<real>>, now: real)
  {
    forall k :: k in hits ==> Ascending(hits[k]) && NotAfter(hits[k], now)
  }

  predicate NotAfter(w: seq<real>, now: real)
  {
    forall i :: 0 <= i < |w| ==> w[i] <= now
  }

  /** The window `check` leaves behind is in time order, and live when the cutoff is in the past. */
  lemma RecordedWindow(before: seq<real>, cutoff: real, now: real, r: Result<Usage, Refusal>)
    requires Ascending(before) && NotAfter(before, now)
    ensures var w := Recorded(r, DropExpired(before, cutoff), now);
      Ascending(w) && NotAfter(w, now) && (cutoff < now ==> Live(w, cutoff))
  {
    DropExpiredAscending(before, cutoff);
    DropExpiredNotAfter(before, cutoff, now);
    if r.Ok? {
      AppendLive(DropExpired(before, cutoff), cutoff, now);
    }
  }

  /** Eviction never brings in a hit that was not in the window. */
  lemma DropExpiredNotAfter(before: seq<real>, cutoff: real, now: real)
    requires NotAfter(before, now)
    ensures NotAfter(DropExpired(before, cutoff), now)
  {
    DropExpiredSuffix(before, cutoff);
    var kept := DropExpired(before, cutoff);
    forall i | 0 <= i < |kept|
      ensures kept[i] <= now
    {
      assert kept[i] == before[|before| - |kept| + i];
    }
  }

  /** Appending the current time to a live window of earlier hits keeps it ordered and live. */
  lemma AppendLive(kept: seq<real>, cutoff: real, now: real)
    requires Ascending(kept) && NotAfter(kept, now) && Live(kept, cutoff)
    ensures Ascending(kept + [now]) && NotAfter(kept + [now], now)
    ensures cutoff < now ==> Live(kept + [now], cutoff)
  {
    AppendAscending(kept, now);
  }

  /** Every hit in the window is later than the cutoff. */
  predicate Live(w: seq<real>, cutoff: real)
  {
    forall i :: 0 <= i < |w| ==> w[i] > cutoff
  }

  /**
   * With a clock that does not run backwards, every window stays in time order, and the
   * window `check` leaves behind holds only live hits when the window length is positive.
   */
  lemma RecordedKeepsOrder(hits: map<string, seq<real>>, key: string, b: Bucket, now: real, s: Limits,
                           r: Result<Usage, Refusal>)
    requires Ordered(hits, now)
    ensures Ordered(hits[HitKey(key, b) := Recorded(r, Kept(hits, key, b, now, s), now)], now)
    ensures s.windowSeconds > 0 ==> Live(Recorded(r, Kept(hits, key, b, now, s), now), now - s.windowSeconds as real)
  {
    RecordedWindow(Lookup(hits, HitKey(key, b), []), now - s.windowSeconds as real, now, r);
  }

  /**
   * An admitted call leaves at most `limit` hits in its window, and with a clock that does not
   * run backwards every window stays in time order.
   */
  method CheckKeepsOrder(limiter: InMemoryRateLimiter, key: string, bucket: Bucket, now: real, today: string, s: Limits)
    returns (r: Result<Usage, Refusal>)
    requires limiter.OrderedUpTo(now)
    modifies limiter
    ensures limiter.OrderedUpTo(now)
    ensures HitKey(key, bucket) in limiter.hits
    ensures r.Ok? ==> |limiter.hits[HitKey(key, bucket)]| <= r.value.limit
  {
    ghost var before := limiter.hits;
    r := limiter.CheckBucket(key, bucket, now, today, s);
    RecordedKeepsOrder(before, key, bucket, now, s, r);
  }

  /** The request fields the gate reads. */
  datatype Request = Request(
    path: string,
    forwardedFor: Option<string>,
    clientHost: Option<string>,
    apiKey: Option<string>)

  /** `_client_identifier`: the first forwarded address, trimmed, else the peer host, else "unknown". */
  function ClientIdentifier(req: Request): (id: string)
    ensures id != []
    ensures var first := Strip(Split(Lookup1(req.forwardedFor), ',')[0]);
      (first != [] ==> id == first) &&
      (first == [] && req.clientHost.Some? && req.clientHost.value != [] ==> id == req.clientHost.value) &&
      (first == [] && (req.clientHost.None? || req.clientHost.value == []) ==> id == "unknown")
  {
    var first := Strip(Split(Lookup1(req.forwardedFor), ',')[0]);
    if first != [] then first
    else if req.clientHost.Some? && req.clientHost.value != [] then req.clientHost.value
    else "unknown"
  }

  /** A header value, the empty string when absent. */
  function Lookup1(h: Option<string>): string
  {
    if h.Some? then h.value else ""
  }

  /** The forwarded-for header is read only up to its first comma. */
  lemma ClientIdentifierFirstHop(req: Request, firstHop: string, rest: string)
    requires ',' !in firstHop && Strip(firstHop) != []
    requires req.forwardedFor == Some(firstHop + "," + rest)
    ensures ClientIdentifier(req) == Strip(firstHop)
  {
    var h := firstHop + "," + rest;
    assert IndexOf(h, ',') == |firstHop| by {
      assert h[|firstHop|] == ',';
      assert forall i :: 0 <= i < |firstHop| ==> h[i] == firstHop[i];
    }
    assert h[..|firstHop|] == firstHop;
  }

  /** `_validate_api_key`: with keys required, only a non-empty key from the list gets through. */
  function ValidateApiKey(requireApiKey: bool, apiKeys: set<string>, provided: Option<string>): (r: Result<Option<string>, Refusal>)
    ensures r.Err? <==> requireApiKey && (provided.None? || provided.value == [] || provided.value !in apiKeys)
    ensures r.Err? ==> r.error == InvalidApiKey
    ensures r.Ok? ==> r.value == provided
  {
    if !requireApiKey then Ok(provided)
    else if provided.None? || provided.value == [] || provided.value !in apiKeys then Err(InvalidApiKey)
    else Ok(provided)
  }

  /** `api_key or _client_identifier(request)`: the key a client is counted under. */
  function ClientKey(apiKey: Option<string>, req: Request): (k: string)
    ensures k != []
    ensures apiKey.Some? && apiKey.value != [] ==> k == apiKey.value
    ensures apiKey.None? || apiKey.value == [] ==> k == ClientIdentifier(req)
  {
    if apiKey.Some? && apiKey.value != [] then apiKey.value else ClientIdentifier(req)
  }

  /**
   * `rate_limit`: authenticate, then charge the call to the API key or, without one, to the
   * client's address. A refused key leaves the limiter untouched.
   */
  method RateLimit(limiter: InMemoryRateLimiter, req: Request, requireApiKey: bool, apiKeys: set<string>,
                   now: real, today: string, s: Limits)
    returns (r: Result<Usage, Refusal>)
    modifies limiter
    ensures ValidateApiKey(requireApiKey, apiKeys, req.apiKey).Err? ==>
      r == Err(InvalidApiKey) && unchanged(limiter)
    ensures ValidateApiKey(requireApiKey, apiKeys, req.apiKey).Ok? ==>
      var k := ClientKey(req.apiKey, req);
      var b := PathBucket(req.path);
      r == Admission(DropExpired(Lookup(old(limiter.hits), HitKey(k, b), []), now - s.windowSeconds as real),
                     now, s, b, Lookup(old(limiter.dailyPoints), DayKey(k, today), 0))
    ensures ValidateApiKey(requireApiKey, apiKeys, req.apiKey).Ok? ==>
      var k := ClientKey(req.apiKey, req);
      var b := PathBucket(req.path);
      limiter.hits == old(limiter.hits)[HitKey(k, b) := Recorded(r, Kept(old(limiter.hits), k, b, now, s), now)] &&
      limiter.dailyPoints ==
        if r.Ok? then old(limiter.dailyPoints)[DayKey(k, today) := r.value.dailyPoints] else old(limiter.dailyPoints)
  {
    var checked := ValidateApiKey(requireApiKey, apiKeys, req.apiKey);
    if checked.Err? {
      return Err(checked.error);
    }
    var clientKey := ClientKey(checked.value, req);
    r := limiter.Check(clientKey, req.path, now, today, s);
  }
}
