// Webhook delivery: events go to every configured URL; failed deliveries wait in a retry
// queue with exponential backoff, and entries that cannot or may no longer be retried are
// written to a dead-letter log.

module WebhookDispatcher {
  import opened Common
  import opened Text
  import opened Numerals
  import opened Json
  import opened Collections

  /** What one POST came back with: a transport failure, or a status code and body text. */
  datatype Response = TransportError(detail: string) | Answered(statusCode: int, text: string)

  /** `_deliver_once`'s result record. */
  datatype Delivery = Delivery(ok: bool, statusCode: Option<int>, error: Option<string>)

  /** `_deliver_once`: a status below 400 is a success; a failure keeps 300 characters of the body. */
  function DeliverOnce(resp: Response): (d: Delivery)
    ensures d.ok <==> resp.Answered? && resp.statusCode < 400
    ensures d.ok <==> d.error.None?
    ensures resp.Answered? ==> d.statusCode == Some(resp.statusCode)
    ensures resp.TransportError? ==> d.statusCode.None? && d.error == Some(resp.detail)
    ensures d.error.Some? ==> |d.error.value| <= 300 || resp.TransportError?
  {
    match resp
    case TransportError(detail) => Delivery(false, None, Some(detail))
    case Answered(code, text) =>
      if code < 400 then Delivery(true, Some(code), None) else Delivery(false, Some(code), Some(Take(text, 300)))
  }

  /** The settings the dispatcher reads. */
  datatype Config = Config(urls: seq<string>, retryAttempts: int, retryBackoffSeconds: real)

  /**
   * What the dispatcher cannot compute itself: Python's `str()` of a non-string JSON value,
   * `_parse_iso` (None where it raises ValueError), and `isoformat()` of a point in time.
   */
  datatype Env = Env(render: Json -> string, parseIso: string -> Option<real>, iso: real -> string)

  function Pow2(n: nat): (p: nat)
    ensures p >= 1
  {
    if n == 0 then 1 else 2 * Pow2(n - 1)
  }

  /** The wait `_next_attempt_at` adds to the current time, in seconds. */
  function RetryDelay(backoff: real, attempts: int): real
  {
    MaxReal(0.0, backoff) * Pow2(MaxInt(0, attempts - 1)) as real
  }

  /**
   * The backoff schedule: never negative, the bare backoff for the first attempt, doubling
   * with every further attempt, and zero when the backoff is not positive.
   */
  lemma RetryDelaySchedule(backoff: real, attempts: int)
    ensures RetryDelay(backoff, attempts) >= 0.0
    ensures attempts <= 1 ==> RetryDelay(backoff, attempts) == MaxReal(0.0, backoff)
    ensures attempts >= 1 ==> RetryDelay(backoff, attempts + 1) == 2.0 * RetryDelay(backoff, attempts)
    ensures backoff <= 0.0 ==> RetryDelay(backoff, attempts) == 0.0
  {
    var b := MaxReal(0.0, backoff);
    var p := Pow2(MaxInt(0, attempts - 1)) as real;
    assert b >= 0.0 && p >= 1.0;
    MulNonneg(b, p);
    if attempts >= 1 {
      assert Pow2(MaxInt(0, attempts)) == 2 * Pow2(MaxInt(0, attempts - 1));
    }
  }

  lemma MulNonneg(a: real, b: real)
    requires a >= 0.0 && b >= 0.0
    ensures a * b >= 0.0
  {
  }

  /** `_next_attempt_at(attempts)`: the backoff delay after now, as an ISO timestamp. */
  function NextAttemptAt(now: real, c: Config, env: Env, attempts: int): string
  {
    env.iso(now + RetryDelay(c.retryBackoffSeconds, attempts))
  }

  /** `_load_queue`: the dicts of a list in the queue file, nothing for anything else. */
  function LoadQueue(file: Json): (q: seq<Json>)
    ensures forall i :: 0 <= i < |q| ==> q[i].JObj?
    ensures file.JArr? ==> |q| <= |file.items|
    ensures !file.JArr? ==> q == []
  {
    if file.JArr? then Filter(file.items, (j: Json) => j.JObj?) else []
  }

  /** A queue that was saved is loaded back unchanged: every saved entry is a dict. */
  lemma {:induction false} LoadSaved(q: seq<Json>)
    requires forall i :: 0 <= i < |q| ==> q[i].JObj?
    ensures LoadQueue(JArr(q)) == q
  {
    FilterAll(q, (j: Json) => j.JObj?);
  }

  /** `str(value)`: a string stays as it is. */
  function StrOf(j: Json, env: Env): string
  {
    if j.JStr? then j.s else env.render(j)
  }

  /** `item.get(key, default)` */
  function GetOr(item: Json, key: string, default: Json): Json
  {
    if HasKey(item, key) then Member(item, key) else default
  }

  function OptInt(v: Option<int>): Json
  {
    if v.Some? then JInt(v.value) else JNull
  }

  function OptStr(v: Option<string>): Json
  {
    if v.Some? then JStr(v.value) else JNull
  }

  /** `int(value)`: None where Python raises. */
  function IntOf(j: Json): Option<int>
  {
    match j
    case JBool(b) => Some(if b then 1 else 0)
    case JInt(i) => Some(i)
    case JReal(r) => Some(Trunc(r))
    case JStr(s) => ParseInt(s)
    case _ => None
  }

  /** `int(item.get("attempts", 1) or 1)`: a missing or false attempt count reads as 1. */
  function StoredAttempts(item: Json): (r: Option<int>)
    ensures !TruthySome(Get(item, "attempts")) ==> r == Some(1)
    ensures Get(item, "attempts").Some? && Get(item, "attempts").value.JInt? && Get(item, "attempts").value.i != 0 ==>
      r == Some(Get(item, "attempts").value.i)
  {
    var v := OrElse(Get(item, "attempts"), Some(JInt(1)));
    IntOf(v.value)
  }

  /** The fields of a queue entry that every branch of the drain reads. */
  datatype Fields = Fields(eventType: string, payload: Option<Json>, url: string)

  function FieldsOf(item: Json, env: Env): Fields
  {
    Fields(StrOf(GetOr(item, "event_type", JStr("unknown")), env), Get(item, "payload"),
           Strip(StrOf(GetOr(item, "url", JStr("")), env)))
  }

  /** An entry that can be delivered at all: a dict payload and a non-blank URL. */
  predicate Deliverable(f: Fields)
  {
    f.payload.Some? && f.payload.value.JObj? && f.url != []
  }

  /** `next_attempt_at > now` fails: due, including when the stored time does not parse. */
  predicate Due(item: Json, now: real, env: Env)
  {
    var next := env.parseIso(StrOf(GetOr(item, "next_attempt_at", JStr(env.iso(now))), env));
    next.None? || next.value <= now
  }

  function PayloadJson(f: Fields): Json
  {
    if f.payload.Some? then f.payload.value else JNull
  }

  function InvalidLetter(f: Fields, now: real, env: Env): Json
  {
    JObj([("event_type", JStr(f.eventType)), ("payload", PayloadJson(f)), ("url", JStr(f.url)),
          ("reason", JStr("invalid_queue_entry")), ("dead_lettered_at", JStr(env.iso(now)))])
  }

  function ExhaustedLetter(f: Fields, attempts: int, d: Delivery, now: real, env: Env): Json
  {
    JObj([("event_type", JStr(f.eventType)), ("payload", PayloadJson(f)), ("url", JStr(f.url)),
          ("attempts", JInt(attempts)), ("last_status_code", OptInt(d.statusCode)),
          ("last_error", OptStr(d.error)), ("dead_lettered_at", JStr(env.iso(now)))])
  }

  function RequeuedEntry(item: Json, f: Fields, attempts: int, d: Delivery, now: real, c: Config, env: Env): Json
  {
    var created := OrElse(Get(item, "created_at"), Some(JStr(env.iso(now)))).value;
    JObj([("event_type", JStr(f.eventType)), ("payload", PayloadJson(f)), ("url", JStr(f.url)),
          ("attempts", JInt(attempts)), ("last_status_code", OptInt(d.statusCode)),
          ("last_error", OptStr(d.error)), ("created_at", JStr(StrOf(created, env))),
          ("updated_at", JStr(env.iso(now))), ("next_attempt_at", JStr(NextAttemptAt(now, c, env, attempts)))])
  }

  /** Where one queue entry goes during a drain. */
  datatype Fate =
    | Invalid(letter: Json)
    | NotDue
    | DeliveredNow
    | Exhausted(letter: Json)
    | Requeued(entry: Json)
    | BadAttempts   // `int()` of the stored attempt count raised

  /** The drain's decision for one entry, given the response its delivery would get. */
  function FateOf(item: Json, now: real, c: Config, env: Env, resp: Response): (fate: Fate)
    ensures fate.Invalid? <==> !Deliverable(FieldsOf(item, env))
    ensures fate.NotDue? <==> Deliverable(FieldsOf(item, env)) && !Due(item, now, env)
    ensures fate.DeliveredNow? <==>
      Deliverable(FieldsOf(item, env)) && Due(item, now, env) && DeliverOnce(resp).ok
    ensures (fate.Exhausted? || fate.Requeued?) ==> StoredAttempts(item).Some?
    ensures fate.Exhausted? <==>
      Deliverable(FieldsOf(item, env)) && Due(item, now, env) && !DeliverOnce(resp).ok &&
      StoredAttempts(item).Some? && StoredAttempts(item).value + 1 >= MaxInt(1, c.retryAttempts)
    ensures fate.Invalid? ==> fate.letter == InvalidLetter(FieldsOf(item, env), now, env)
    ensures fate.Requeued? ==> fate.entry.JObj?
  {
    var f := FieldsOf(item, env);
    if !Deliverable(f) then Invalid(InvalidLetter(f, now, env))
    else if !Due(item, now, env) then NotDue
    else
      var d := DeliverOnce(resp);
      if d.ok then DeliveredNow
      else
        var stored := StoredAttempts(item);
        if stored.None? then BadAttempts
        else
          var attempts := stored.value + 1;
          if attempts >= MaxInt(1, c.retryAttempts) then Exhausted(ExhaustedLetter(f, attempts, d, now, env))
          else Requeued(RequeuedEntry(item, f, attempts, d, now, c, env))
  }

  /** The running state of a drain. */
  datatype Tally = Tally(pending: seq<Json>, letters: seq<Json>, processed: nat, delivered: nat,
                         deadLettered: nat, crashed: bool)

  /** One entry's effect on the running state. */
  function Advance(t: Tally, item: Json, fate: Fate): Tally
  {
    match fate
    case Invalid(l) => t.(letters := t.letters + [l], deadLettered := t.deadLettered + 1)
    case NotDue => t.(pending := t.pending + [item])
    case DeliveredNow => t.(processed := t.processed + 1, delivered := t.delivered + 1)
    case Exhausted(l) => t.(processed := t.processed + 1, letters := t.letters + [l], deadLettered := t.deadLettered + 1)
    case Requeued(e) => t.(processed := t.processed + 1, pending := t.pending + [e])
    case BadAttempts => t.(processed := t.processed + 1, crashed := true)
  }

  /** A drain's decision for the entry at each queue position. */
  type FateRule = (Json, nat) -> Fate

  /** The drain's rule at time now, where `respond(i)` answers the POST for the i-th entry. */
  function RuleOf(now: real, c: Config, env: Env, respond: nat -> Response): FateRule
  {
    (item: Json, i: nat) => FateOf(item, now, c, env, respond(i))
  }

  /** A rule re-queues only dicts. */
  ghost predicate RequeuesDicts(rule: FateRule)
  {
    forall item: Json, i: nat :: rule(item, i).Requeued? ==> rule(item, i).entry.JObj?
  }

  lemma RuleOfRequeuesDicts(now: real, c: Config, env: Env, respond: nat -> Response)
    ensures RequeuesDicts(RuleOf(now, c, env, respond))
  {
    var rule := RuleOf(now, c, env, respond);
    forall item: Json, i: nat | rule(item, i).Requeued?
      ensures rule(item, i).entry.JObj?
    {
      assert rule(item, i) == FateOf(item, now, c, env, respond(i));
    }
  }

  /** The state after the first n entries were drained. */
  function DrainUpTo(queue: seq<Json>, n: nat, rule: FateRule): Tally
    requires n <= |queue|
  {
    if n == 0 then Tally([], [], 0, 0, 0, false)
    else
      var t := DrainUpTo(queue, n - 1, rule);
      if t.crashed then t else Advance(t, queue[n - 1], rule(queue[n - 1], n - 1))
  }

  /**
   * Every entry has exactly one outcome: delivered, dead-lettered, or still pending. Only
   * entries whose delivery was attempted are counted as processed, and every pending
   * record is a dict.
   */
  lemma {:induction false} DrainPartition(queue: seq<Json>, n: nat, rule: FateRule)
    requires n <= |queue|
    requires forall i :: 0 <= i < |queue| ==> queue[i].JObj?
    requires RequeuesDicts(rule)
    ensures var t := DrainUpTo(queue, n, rule);
      (!t.crashed ==> t.delivered + t.deadLettered + |t.pending| == n) &&
      t.delivered <= t.processed <= n && t.deadLettered == |t.letters| &&
      (forall i :: 0 <= i < |t.pending| ==> t.pending[i].JObj?)
  {
    if n > 0 {
      DrainPartition(queue, n - 1, rule);
      var t := DrainUpTo(queue, n - 1, rule);
      if !t.crashed {
        var fate := rule(queue[n - 1], n - 1);
        assert fate.Requeued? ==> fate.entry.JObj?;
      }
    }
  }

  /**
   * An entry that cannot be delivered, or is not yet due, meets the same fate whatever its POST
   * would have answered: it is never posted.
   */
  lemma FateIgnoresResponse(item: Json, now: real, c: Config, env: Env, r1: Response, r2: Response)
    requires !Deliverable(FieldsOf(item, env)) || !Due(item, now, env)
    ensures FateOf(item, now, c, env, r1) == FateOf(item, now, c, env, r2)
  {
  }

  /**
   * A failed delivery of an entry stored with attempt count k (not zero) is tried for the
   * (k+1)-th time: dead-lettered with that count once it reaches the limit, else re-queued with it.
   */
  lemma FailedAttemptCount(item: Json, k: int, now: real, c: Config, env: Env, resp: Response)
    requires Deliverable(FieldsOf(item, env)) && Due(item, now, env) && !DeliverOnce(resp).ok
    requires Get(item, "attempts") == Some(JInt(k)) && k != 0
    ensures var fate := FateOf(item, now, c, env, resp);
      (k + 1 >= MaxInt(1, c.retryAttempts) ==>
        fate == Exhausted(ExhaustedLetter(FieldsOf(item, env), k + 1, DeliverOnce(resp), now, env))) &&
      (k + 1 < MaxInt(1, c.retryAttempts) ==>
        fate == Requeued(RequeuedEntry(item, FieldsOf(item, env), k + 1, DeliverOnce(resp), now, c, env)))
  {
    assert StoredAttempts(item) == Some(k);
  }

  /** What `drain_retry_queue` reports. */
  datatype DrainSummary = DrainSummary(processed: nat, delivered: nat, deadLettered: nat, pending: nat)

  /** `drain_retry_queue`'s outcome: the summary, or the error that stopped it. */
  function DrainOutcome(t: Tally): Result<DrainSummary, string>
  {
    if t.crashed then Err("invalid attempts count") else Ok(DrainSummary(t.processed, t.delivered, t.deadLettered, |t.pending|))
  }

  /** What `dispatch` reports for one URL. */
  datatype UrlResult = UrlResult(url: string, statusCode: Option<int>, ok: bool, queued: bool, error: Option<string>)

  function UrlOutcome(url: string, d: Delivery): UrlResult
  {
    if d.ok then UrlResult(url, d.statusCode, true, false, None)
    else UrlResult(url, d.statusCode, false, true, d.error)
  }

  /** The retry-queue entry `dispatch` writes for a failed URL: first attempt, due after one backoff. */
  function FirstFailureEntry(eventType: string, payload: Json, url: string, d: Delivery, now: real, c: Config, env: Env): Json
  {
    JObj([("event_type", JStr(eventType)), ("payload", payload), ("url", JStr(url)), ("attempts", JInt(1)),
          ("last_status_code", OptInt(d.statusCode)), ("last_error", OptStr(d.error)),
          ("created_at", JStr(env.iso(now))), ("updated_at", JStr(env.iso(now))),
          ("next_attempt_at", JStr(NextAttemptAt(now, c, env, 1)))])
  }

  /** The delivery result of the POST to each URL, `respond(i)` answering the i-th. */
  function Deliveries(respond: nat -> Response): nat -> Delivery
  {
    (i: nat) => DeliverOnce(respond(i))
  }

  /** The per-URL results of the first n URLs. */
  function UrlResults(urls: seq<string>, n: nat, deliver: nat -> Delivery): (rs: seq<UrlResult>)
    requires n <= |urls|
    ensures |rs| == n
    ensures forall i :: 0 <= i < n ==> rs[i] == UrlOutcome(urls[i], deliver(i))
  {
    if n == 0 then [] else UrlResults(urls, n - 1, deliver) + [UrlOutcome(urls[n - 1], deliver(n - 1))]
  }

  /** How `dispatch` turns a failed URL and its delivery result into a retry entry. */
  type EntryRule = (string, Delivery) -> Json

  function EntryOf(eventType: string, payload: Json, now: real, c: Config, env: Env): EntryRule
  {
    (url: string, d: Delivery) => FirstFailureEntry(eventType, payload, url, d, now, c, env)
  }

  /** A first-failure entry is a dict holding attempt count 1. */
  lemma FirstFailureEntryShape(eventType: string, payload: Json, url: string, d: Delivery, now: real, c: Config, env: Env)
    ensures var e := FirstFailureEntry(eventType, payload, url, d, now, c, env);
      e.JObj? && Get(e, "attempts") == Some(JInt(1))
  {
    var e := FirstFailureEntry(eventType, payload, url, d, now, c, env);
    assert e.members[3] == ("attempts", JInt(1));
    assert e.members[0].0 != "attempts" && e.members[1].0 != "attempts" && e.members[2].0 != "attempts";
    GetFindsMember(e.members, 3);
  }

  /** The retry entries for the failed URLs among the first n, in URL order. */
  function FailureEntries(urls: seq<string>, n: nat, deliver: nat -> Delivery, entry: EntryRule): seq<Json>
    requires n <= |urls|
  {
    if n == 0 then []
    else
      var rest := FailureEntries(urls, n - 1, deliver, entry);
      if deliver(n - 1).ok then rest else rest + [entry(urls[n - 1], deliver(n - 1))]
  }

  /** How many of the first n POSTs succeeded. */
  function CountDelivered(n: nat, deliver: nat -> Delivery): (k: nat)
    ensures k <= n
  {
    if n == 0 then 0 else CountDelivered(n - 1, deliver) + (if deliver(n - 1).ok then 1 else 0)
  }

  /** Every URL is either delivered or queued, exactly once. */
  lemma {:induction false} DispatchPartition(urls: seq<string>, n: nat, deliver: nat -> Delivery, entry: EntryRule)
    requires n <= |urls|
    ensures CountDelivered(n, deliver) + |FailureEntries(urls, n, deliver, entry)| == n
  {
    if n > 0 {
      DispatchPartition(urls, n - 1, deliver, entry);
    }
  }

  /** A rule whose every entry is a dict holding attempt count 1. */
  ghost predicate FirstAttempts(entry: EntryRule)
  {
    forall url: string, d: Delivery :: entry(url, d).JObj? && Get(entry(url, d), "attempts") == Some(JInt(1))
  }

  /** The entries `dispatch` writes start at attempt 1. */
  lemma EntryOfFirstAttempts(eventType: string, payload: Json, now: real, c: Config, env: Env)
    ensures FirstAttempts(EntryOf(eventType, payload, now, c, env))
  {
    forall url: string, d: Delivery {
      FirstFailureEntryShape(eventType, payload, url, d, now, c, env);
    }
  }

  /** Every entry is a dict holding attempt count 1. */
  predicate AllFirstAttempts(es: seq<Json>)
  {
    forall i :: 0 <= i < |es| ==> es[i].JObj? && Get(es[i], "attempts") == Some(JInt(1))
  }

  /** Every entry `dispatch` queues is a dict that starts at attempt 1. */
  lemma {:induction false} FailureEntriesFirstAttempt(urls: seq<string>, n: nat, deliver: nat -> Delivery, entry: EntryRule)
    requires n <= |urls|
    requires FirstAttempts(entry)
    ensures AllFirstAttempts(FailureEntries(urls, n, deliver, entry))
  {
    if n > 0 {
      FailureEntriesFirstAttempt(urls, n - 1, deliver, entry);
      var rest := FailureEntries(urls, n - 1, deliver, entry);
      if !deliver(n - 1).ok {
        var e := entry(urls[n - 1], deliver(n - 1));
        assert FailureEntries(urls, n, deliver, entry) == rest + [e];
      }
    }
  }

  /** What `dispatch` reports. */
  datatype DispatchSummary = DispatchSummary(sent: nat, delivered: nat, queued: nat, results: seq<UrlResult>,
                                             drained: Option<DrainSummary>, pending: nat)

  /** The queue file and the dead-letter log, the dispatcher's only state. */
  class Dispatcher {
    /** The decoded queue file; `JNull` when it is missing or does not decode. */
    var queueFile: Json
    /** The records of the dead-letter log, oldest first. */
    var deadLetters: seq<Json>

    constructor (queueFile: Json, deadLetters: seq<Json>)
      ensures this.queueFile == queueFile && this.deadLetters == deadLetters
    {
      this.queueFile := queueFile;
      this.deadLetters := deadLetters;
    }

    /**
     * `drain_retry_queue`: an empty queue is left alone; otherwise every entry is delivered,
     * dead-lettered or kept, the letters are appended to the log in queue order, and the kept
     * entries replace the queue. An attempt count `int()` rejects stops the drain before the
     * queue is saved.
     */
    method DrainRetryQueue(now: real, c: Config, env: Env, respond: nat -> Response)
      returns (r: Result<DrainSummary, string>)
      modifies this
      ensures var q := LoadQueue(old(queueFile));
        q == [] ==> r == Ok(DrainSummary(0, 0, 0, 0)) && queueFile == old(queueFile) && deadLetters == old(deadLetters)
      ensures var q := LoadQueue(old(queueFile));
        var t := DrainUpTo(q, |q|, RuleOf(now, c, env, respond));
        q != [] ==>
          r == DrainOutcome(t) && deadLetters == old(deadLetters) + t.letters &&
          queueFile == (if t.crashed then old(queueFile) else JArr(t.pending))
      ensures r == DrainResult(old(queueFile), now, c, env, respond)
      ensures deadLetters == old(deadLetters) + DrainLetters(old(queueFile), now, c, env, respond)
    {
      var queue := LoadQueue(queueFile);
      if queue == [] {
        return Ok(DrainSummary(0, 0, 0, 0));
      }
      var t := DrainEntries(queue, RuleOf(now, c, env, respond));
      if t.crashed {
        return Err("invalid attempts count");
      }
      queueFile := JArr(t.pending);
      return Ok(DrainSummary(t.processed, t.delivered, t.deadLettered, |t.pending|));
    }

    /**
     * The loop of `drain_retry_queue`: each entry in turn meets its fate under the rule, and
     * the dead letters are appended as they arise. The queue file is not touched.
     */
    method DrainEntries(queue: seq<Json>, rule: FateRule) returns (t: Tally)
      modifies this
      ensures t == DrainUpTo(queue, |queue|, rule)
      ensures deadLetters == old(deadLetters) + t.letters && queueFile == old(queueFile)
    {
      var letters: seq<Json> := [];
      var pending: seq<Json> := [];
      var processed: nat := 0;
      var delivered: nat := 0;
      var deadLettered: nat := 0;
      var i := 0;
      while i < |queue|
        invariant 0 <= i <= |queue|
        invariant queueFile == old(queueFile)
        invariant DrainUpTo(queue, i, rule) == Tally(pending, letters, processed, delivered, deadLettered, false)
        invariant deadLetters == old(deadLetters) + letters
      {
        var item := queue[i];
        var fate := rule(item, i);
        DrainStep(queue, i, rule, fate);
        match fate {
          case Invalid(l) =>
            deadLettered := deadLettered + 1;
            deadLetters := deadLetters + [l];
            letters := letters + [l];
          case NotDue =>
            pending := pending + [item];
          case DeliveredNow =>
            processed := processed + 1;
            delivered := delivered + 1;
          case Exhausted(l) =>
            processed := processed + 1;
            deadLettered := deadLettered + 1;
            deadLetters := deadLetters + [l];
            letters := letters + [l];
          case Requeued(e) =>
            processed := processed + 1;
            pending := pending + [e];
          case BadAttempts =>
            processed := processed + 1;
            t := Tally(pending, letters, processed, delivered, deadLettered, true);
            DrainStaysCrashed(queue, i + 1, |queue|, rule);
            return;
        }
        i := i + 1;
      }
      t := Tally(pending, letters, processed, delivered, deadLettered, false);
    }

    /**
     * `dispatch`: with no URLs nothing happens; otherwise the queue is drained first, the event
     * is posted to every URL, and the failures are appended behind the entries already queued.
     */
    method Dispatch(eventType: string, payload: Json, now: real, c: Config, env: Env,
                    respondQueue: nat -> Response, respondUrl: nat -> Response)
      returns (r: Result<DispatchSummary, string>)
      modifies this
      ensures c.urls == [] ==>
        r == Ok(DispatchSummary(0, 0, 0, [], None, 0)) && queueFile == old(queueFile) && deadLetters == old(deadLetters)
      ensures r.Ok? && c.urls != [] ==>
        var rs := UrlResults(c.urls, |c.urls|, Deliveries(respondUrl));
        r.value.sent == |c.urls| && r.value.results == rs && r.value.delivered == CountDelivered(|c.urls|, Deliveries(respondUrl)) &&
        r.value.delivered + r.value.queued == |c.urls| && r.value.drained.Some? &&
        r.value.pending == |LoadQueue(queueFile)|
      ensures r.Ok? && c.urls != [] ==>
        var es := FailureEntries(c.urls, |c.urls|, Deliveries(respondUrl), EntryOf(eventType, payload, now, c, env));
        r.value.queued == |es| && LoadQueue(queueFile) == PendingAfterDrain(old(queueFile), now, c, env, respondQueue) + es
      ensures c.urls != [] ==>
        var d := DrainResult(old(queueFile), now, c, env, respondQueue);
        deadLetters == old(deadLetters) + DrainLetters(old(queueFile), now, c, env, respondQueue) &&
        (r.Ok? <==> d.Ok?) && (r.Ok? ==> r.value.drained == Some(d.value)) &&
        (r.Err? ==> r == Err(d.error) && queueFile == old(queueFile))
    {
      if c.urls == [] {
        return Ok(DispatchSummary(0, 0, 0, [], None, 0));
      }
      var drained := DrainRetryQueue(now, c, env, respondQueue);
      if drained.Err? {
        return Err(drained.error);
      }
      ghost var kept := LoadQueue(queueFile);
      PendingAfterDrainLoads(old(queueFile), now, c, env, respondQueue, queueFile);
      var entry := EntryOf(eventType, payload, now, c, env);
      var results, entries, delivered, queued := PostAll(c.urls, respondUrl, entry);
      EntryOfFirstAttempts(eventType, payload, now, c, env);
      FailureEntriesFirstAttempt(c.urls, |c.urls|, Deliveries(respondUrl), entry);
      if entries != [] {
        var queue := LoadQueue(queueFile);
        LoadSaved(queue + entries);
        queueFile := JArr(queue + entries);
      }
      assert LoadQueue(queueFile) == kept + entries;
      r := Ok(DispatchSummary(|c.urls|, delivered, queued, results, Some(drained.value), |LoadQueue(queueFile)|));
    }
  }

  /**
   * The loop of `dispatch`: the event is posted to each URL in turn, `respond(i)` answering the
   * i-th; a success is counted, a failure becomes a retry entry under the rule.
   */
  method PostAll(urls: seq<string>, respond: nat -> Response, entry: EntryRule)
    returns (results: seq<UrlResult>, entries: seq<Json>, delivered: nat, queued: nat)
    ensures results == UrlResults(urls, |urls|, Deliveries(respond))
    ensures entries == FailureEntries(urls, |urls|, Deliveries(respond), entry)
    ensures delivered == CountDelivered(|urls|, Deliveries(respond)) && queued == |entries|
    ensures delivered + queued == |urls|
  {
    results, entries, delivered, queued := [], [], 0, 0;
    var i := 0;
    while i < |urls|
      invariant 0 <= i <= |urls|
      invariant results == UrlResults(urls, i, Deliveries(respond))
      invariant entries == FailureEntries(urls, i, Deliveries(respond), entry)
      invariant delivered == CountDelivered(i, Deliveries(respond)) && queued == |entries|
    {
      var d := DeliverOnce(respond(i));
      assert d == Deliveries(respond)(i);
      if d.ok {
        delivered := delivered + 1;
      } else {
        queued := queued + 1;
        entries := entries + [entry(urls[i], d)];
      }
      results := results + [UrlOutcome(urls[i], d)];
      i := i + 1;
    }
    DispatchPartition(urls, |urls|, Deliveries(respond), entry);
  }

  /** What `drain_retry_queue` returns for a queue file. */
  function DrainResult(file: Json, now: real, c: Config, env: Env, respond: nat -> Response): Result<DrainSummary, string>
  {
    var q := LoadQueue(file);
    if q == [] then Ok(DrainSummary(0, 0, 0, 0)) else DrainOutcome(DrainUpTo(q, |q|, RuleOf(now, c, env, respond)))
  }

  /** The dead letters `drain_retry_queue` appends to the log, in queue order. */
  function DrainLetters(file: Json, now: real, c: Config, env: Env, respond: nat -> Response): seq<Json>
  {
    var q := LoadQueue(file);
    if q == [] then [] else DrainUpTo(q, |q|, RuleOf(now, c, env, respond)).letters
  }

  /** The queue a successful drain leaves in the queue file. */
  function PendingAfterDrain(file: Json, now: real, c: Config, env: Env, respond: nat -> Response): seq<Json>
  {
    var q := LoadQueue(file);
    if q == [] then q else DrainUpTo(q, |q|, RuleOf(now, c, env, respond)).pending
  }

  /** After a drain that did not stop, loading the queue file gives back the kept entries. */
  lemma PendingAfterDrainLoads(file: Json, now: real, c: Config, env: Env, respond: nat -> Response, after: Json)
    requires var q := LoadQueue(file);
      (q == [] ==> after == file) &&
      (q != [] ==> !DrainUpTo(q, |q|, RuleOf(now, c, env, respond)).crashed && after == JArr(DrainUpTo(q, |q|, RuleOf(now, c, env, respond)).pending))
    ensures LoadQueue(after) == PendingAfterDrain(file, now, c, env, respond)
  {
    var q := LoadQueue(file);
    if q != [] {
      RuleOfRequeuesDicts(now, c, env, respond);
      DrainPartition(q, |q|, RuleOf(now, c, env, respond));
      LoadSaved(DrainUpTo(q, |q|, RuleOf(now, c, env, respond)).pending);
    }
  }

  /** One more entry of a drain that has not stopped. */
  lemma DrainStep(queue: seq<Json>, i: nat, rule: FateRule, fate: Fate)
    requires i < |queue|
    requires !DrainUpTo(queue, i, rule).crashed
    requires rule(queue[i], i) == fate
    ensures DrainUpTo(queue, i + 1, rule) == Advance(DrainUpTo(queue, i, rule), queue[i], fate)
  {
  }

  /** Once a drain has stopped, the later entries change nothing. */
  lemma {:induction false} DrainStaysCrashed(queue: seq<Json>, n: nat, m: nat, rule: FateRule)
    requires n <= m <= |queue|
    requires DrainUpTo(queue, n, rule).crashed
    ensures DrainUpTo(queue, m, rule) == DrainUpTo(queue, n, rule)
    decreases m - n
  {
    if m > n {
      DrainStaysCrashed(queue, n, m - 1, rule);
    }
  }
}
