// The X collector's request accounting: the pre-flight request plan, the per-run request
// budget enforced before every API call, the paginated tweet fetch, the per-stream error
// isolation, and the merge and window filter of the three streams.  HTTP responses come
// from oracle functions standing for the X API.

module XIntelCollect {
  import opened Common
  import opened Text
  import opened Collections
  import opened Numerals
  import opened XIntelPosts

  // ---------------------------------------------------------------- request plan

  datatype RequestPlan = RequestPlan(
    estimatedRequests: int,
    worstCaseRequests: int,
    pageCap: int,
    targetLimit: int,
    mentionLimit: int,
    interactionLimit: int)

  /** `math.ceil(x / 100)` on integers. */
  function Ceil100(x: int): (r: int)
    ensures 100 * (r - 1) < x <= 100 * r
  {
    -((-x) / 100)
  }

  /** Pages needed for one stream: `max(1, min(page_cap, ceil(limit / 100)))`. */
  function StreamPages(limit: int, pageCap: int): (r: int)
    requires pageCap >= 1
    ensures 1 <= r <= pageCap
    ensures 0 < limit <= 100 * pageCap ==> 100 * (r - 1) < limit <= 100 * r
  {
    MaxInt(1, MinInt(pageCap, Ceil100(limit)))
  }

  /**
   * The three stream limits `collect` derives from `max_posts`: half, three tenths and the
   * rest, each at least 20.  The float products `n * 0.5` and `n * 0.3` are taken as exact
   * decimals before truncation; for n < 0 both truncation rules give a value below 20.
   */
  function StreamLimits(posts: int): (l: (int, int, int))
    ensures l.0 >= 20 && l.1 >= 20 && l.2 >= 20
    ensures posts >= 0 ==> l.0 == MaxInt(20, posts / 2) && l.1 == MaxInt(20, posts * 3 / 10)
    ensures l.2 == MaxInt(20, posts - l.0 - l.1)
  {
    var target := MaxInt(20, posts / 2);
    var mention := MaxInt(20, (posts * 3) / 10);
    (target, mention, MaxInt(20, posts - target - mention))
  }

  /**
   * `estimate_request_plan(max_posts, max_pages)`.  `settingsMaxPages` is
   * `settings.x_max_pages`, used when `max_pages` is None.
   */
  function EstimateRequestPlan(maxPosts: int, maxPages: Option<int>, settingsMaxPages: int): (p: RequestPlan)
    ensures p.pageCap == MaxInt(1, if maxPages.Some? then maxPages.value else settingsMaxPages)
    ensures p.targetLimit >= 20 && p.mentionLimit >= 20 && p.interactionLimit >= 20
    ensures 4 <= p.estimatedRequests <= p.worstCaseRequests
    ensures p.worstCaseRequests == 1 + 3 * p.pageCap
  {
    var boundedPosts := MaxInt(1, maxPosts);
    var pageCap := MaxInt(1, if maxPages.Some? then maxPages.value else settingsMaxPages);
    var limits := StreamLimits(boundedPosts);
    var estimated := 1 + StreamPages(limits.0, pageCap) + StreamPages(limits.1, pageCap)
      + StreamPages(limits.2, pageCap);
    RequestPlan(estimated, 1 + 3 * pageCap, pageCap, limits.0, limits.1, limits.2)
  }

  /**
   * The estimate is the user lookup plus, per stream, the pages a full fetch of its limit
   * takes at 100 tweets a page, capped by the page cap.
   */
  lemma EstimateCountsPages(maxPosts: int, maxPages: Option<int>, settingsMaxPages: int)
    ensures var p := EstimateRequestPlan(maxPosts, maxPages, settingsMaxPages);
      p.estimatedRequests == 1 + StreamPages(p.targetLimit, p.pageCap)
        + StreamPages(p.mentionLimit, p.pageCap) + StreamPages(p.interactionLimit, p.pageCap)
      && (100 * p.pageCap >= p.targetLimit ==>
            100 * (StreamPages(p.targetLimit, p.pageCap) - 1) < p.targetLimit
            <= 100 * StreamPages(p.targetLimit, p.pageCap))
  {
  }

  /** The published example: 60 posts with a single page give 4 requests, the worst case too. */
  lemma EstimateLowCost(settingsMaxPages: int)
    ensures EstimateRequestPlan(60, Some(1), settingsMaxPages).estimatedRequests == 4
    ensures EstimateRequestPlan(60, Some(1), settingsMaxPages).worstCaseRequests == 4
    ensures EstimateRequestPlan(60, Some(1), settingsMaxPages).pageCap == 1
  {
  }

  // ---------------------------------------------------------------- API payloads

  datatype RawUser = RawUser(id: string, username: string)

  datatype RawMedia = RawMedia(mediaKey: string, url: string)

  /**
   * A raw tweet.  `createdAt` is "" when the field is missing; `createdSeconds` is the
   * instant it parses to, None when it does not parse.
   */
  datatype RawTweet = RawTweet(id: string, authorId: string, createdAt: string, createdSeconds: Option<int>, text: string)

  /** The parts of an API JSON body the collector reads (`data` as a tweet list, or as one user). */
  datatype Payload = Payload(
    data: seq<RawTweet>,
    user: Option<RawUser>,
    users: seq<RawUser>,
    media: seq<RawMedia>,
    nextToken: Option<string>)

  /** One HTTP response: status, extracted error detail and body. */
  datatype Response = Response(status: int, detail: string, body: Payload)

  /** What one page request asks for: `max_results` and the pagination token, if any. */
  datatype PageRequest = PageRequest(pageSize: int, token: Option<string>)

  datatype ErrorKind = Budget | Collection

  /** `XDataCollectionError` (Collection) and its subclass `XBudgetExceededError` (Budget). */
  datatype CollectError = CollectError(kind: ErrorKind, status: int, message: string)

  // The fixed parts of the collector's error messages.
  const BudgetLead := "X request budget exceeded during collection (attempted "
  const BudgetTail := "). Lower max_posts/X_MAX_PAGES or increase X_MAX_REQUESTS_PER_RUN."
  const AuthLead := "X API auth error ("
  const NotFoundLead := "X API endpoint not found: "
  const RateLimitMessage := "X API rate limit reached. Retry later."
  const FailedLead := "X API request failed ("
  const TokenMissingMessage := "X_BEARER_TOKEN is not configured. Set it in environment before collection."
  const EstimateLead := "Estimated X API request usage exceeds budget ("
  const EstimateTail := "). Reduce max_posts/X_MAX_PAGES or increase X_MAX_REQUESTS_PER_RUN."
  const HandleLead := "Target handle '"
  const HandleTail := "' not found."
  const UnresolvedUserMessage := "Target user_id could not be resolved from X API."

  /** The error `_request_json` raises once `count` requests of `max` are spent. */
  function BudgetError(count: int, max: int): (e: CollectError)
    ensures e.kind == Budget && e.status == 400
  {
    CollectError(Budget, 400, BudgetLead + IntToString(count + 1) + ", max " + IntToString(max) + BudgetTail)
  }

  /** The error an HTTP status >= 400 turns into, or the body for a success. */
  function StatusOutcome(r: Response): (o: Result<Payload, CollectError>)
    ensures o.Ok? <==> r.status < 400
    ensures o.Ok? ==> o.value == r.body
    ensures o.Err? ==> o.error.kind == Collection && o.error.status in {401, 404, 429, 502}
    ensures o.Err? ==> (o.error.status == 401 <==> r.status in {401, 403})
    ensures o.Err? ==> (o.error.status == 404 <==> r.status == 404)
    ensures o.Err? ==> (o.error.status == 429 <==> r.status == 429)
  {
    if r.status < 400 then Ok(r.body)
    else if r.status == 401 || r.status == 403 then
      Err(CollectError(Collection, 401, AuthLead + IntToString(r.status) + "): " + r.detail))
    else if r.status == 404 then Err(CollectError(Collection, 404, NotFoundLead + r.detail))
    else if r.status == 429 then Err(CollectError(Collection, 429, RateLimitMessage))
    else Err(CollectError(Collection, 502, FailedLead + IntToString(r.status) + "): " + r.detail))
  }

  /** A page's users with a non-empty id, written into a map (a later entry wins). */
  function AddUsers(m: map<string, RawUser>, us: seq<RawUser>): (r: map<string, RawUser>)
    ensures m.Keys <= r.Keys
    ensures forall u :: u in us && u.id != "" ==> u.id in r
    decreases |us|
  {
    if us == [] then m
    else
      var last := us[|us| - 1];
      var r := AddUsers(m, us[..|us| - 1]);
      assert us == us[..|us| - 1] + [last];
      if last.id != "" then r[last.id := last] else r
  }

  /** A page's media with a non-empty key, written into a map (a later entry wins). */
  function AddMedia(m: map<string, RawMedia>, ms: seq<RawMedia>): (r: map<string, RawMedia>)
    ensures m.Keys <= r.Keys
    ensures forall x :: x in ms && x.mediaKey != "" ==> x.mediaKey in r
    decreases |ms|
  {
    if ms == [] then m
    else
      var last := ms[|ms| - 1];
      var r := AddMedia(m, ms[..|ms| - 1]);
      assert ms == ms[..|ms| - 1] + [last];
      if last.mediaKey != "" then r[last.mediaKey := last] else r
  }

  /** What one stream yields: its tweets and the users and media its pages included. */
  datatype FetchResult = FetchResult(tweets: seq<RawTweet>, users: map<string, RawUser>, media: map<string, RawMedia>)

  const EmptyFetch := FetchResult([], map[], map[])

  /** A page token counts only when it is present and non-empty. */
  predicate HasToken(t: Option<string>) { t.Some? && t.value != "" }

  /** `min(100, max(10, limit - len(tweets)))`. */
  function PageSize(limit: int, held: int): (n: int)
    ensures 10 <= n <= 100
  {
    MinInt(100, MaxInt(10, limit - held))
  }

  /** A fetch that ended (or failed) after `requests` requests. */
  datatype PageRun = PageRun(outcome: Result<FetchResult, CollectError>, requests: nat)

  /** One page folded into what was fetched so far. */
  function AddPage(acc: FetchResult, p: Payload): FetchResult
  {
    FetchResult(acc.tweets + p.data, AddUsers(acc.users, p.users), AddMedia(acc.media, p.media))
  }

  /**
   * What the page loop of `_fetch_tweets_paginated` does from page `pages` on, with
   * `count` of `max` requests spent so far and the cost guard `guard`.
   */
  function Paginate(limit: int, maxPages: int, pageAt: PageRequest -> Response,
                    pages: nat, token: Option<string>, acc: FetchResult,
                    count: int, max: int, guard: bool): (r: PageRun)
    ensures guard && count <= max ==> count + r.requests <= max
    ensures r.requests <= if pages < maxPages then maxPages - pages else 0
    ensures r.outcome.Err? && r.outcome.error.kind == Budget ==> guard && count + r.requests >= max
    decreases if pages < maxPages then maxPages - pages else 0
  {
    if |acc.tweets| >= limit || pages >= maxPages then PageRun(Ok(acc), 0)
    else if guard && count >= max then PageRun(Err(BudgetError(count, max)), 0)
    else
      var o := StatusOutcome(pageAt(PageRequest(PageSize(limit, |acc.tweets|), token)));
      if o.Err? then PageRun(Err(o.error), 1)
      else
        var acc' := AddPage(acc, o.value);
        if !HasToken(o.value.nextToken) then PageRun(Ok(acc'), 1)
        else
          var rest := Paginate(limit, maxPages, pageAt, pages + 1, o.value.nextToken, acc', count + 1, max, guard);
          PageRun(rest.outcome, rest.requests + 1)
  }

  /** With the budget spent before a page is due, the loop stops on a budget error. */
  lemma PaginateBudget(limit: int, maxPages: int, pageAt: PageRequest -> Response,
                       pages: nat, token: Option<string>, acc: FetchResult, count: int, max: int, guard: bool)
    requires |acc.tweets| < limit && pages < maxPages && guard && count >= max
    ensures Paginate(limit, maxPages, pageAt, pages, token, acc, count, max, guard) == PageRun(Err(BudgetError(count, max)), 0)
  {
  }

  /** A page that is due is requested once; its outcome decides whether the loop goes on. */
  lemma PaginateStep(limit: int, maxPages: int, pageAt: PageRequest -> Response,
                     pages: nat, token: Option<string>, acc: FetchResult, count: int, max: int, guard: bool)
    requires |acc.tweets| < limit && pages < maxPages && !(guard && count >= max)
    ensures var here := Paginate(limit, maxPages, pageAt, pages, token, acc, count, max, guard);
      var o := StatusOutcome(pageAt(PageRequest(PageSize(limit, |acc.tweets|), token)));
      (o.Err? ==> here == PageRun(Err(o.error), 1))
      && (o.Ok? && !HasToken(o.value.nextToken) ==> here == PageRun(Ok(AddPage(acc, o.value)), 1))
      && (o.Ok? && HasToken(o.value.nextToken) ==>
            var rest := Paginate(limit, maxPages, pageAt, pages + 1, o.value.nextToken, AddPage(acc, o.value), count + 1, max, guard);
            here == PageRun(rest.outcome, rest.requests + 1))
  {
  }

  /** A page loop that ends normally keeps every page's tweets, in request order. */
  lemma {:induction false} PaginateKeepsPrefix(limit: int, maxPages: int, pageAt: PageRequest -> Response,
                                               pages: nat, token: Option<string>, acc: FetchResult,
                                               count: int, max: int, guard: bool)
    ensures var r := Paginate(limit, maxPages, pageAt, pages, token, acc, count, max, guard);
      r.outcome.Ok? ==> |acc.tweets| <= |r.outcome.value.tweets| && r.outcome.value.tweets[..|acc.tweets|] == acc.tweets
    decreases if pages < maxPages then maxPages - pages else 0
  {
    if |acc.tweets| < limit && pages < maxPages && !(guard && count >= max) {
      var o := StatusOutcome(pageAt(PageRequest(PageSize(limit, |acc.tweets|), token)));
      if o.Ok? && HasToken(o.value.nextToken) {
        var acc' := AddPage(acc, o.value);
        PaginateKeepsPrefix(limit, maxPages, pageAt, pages + 1, o.value.nextToken, acc', count + 1, max, guard);
        assert acc'.tweets[..|acc.tweets|] == acc.tweets;
      }
    }
  }

  /** Python's `s[:n]` for any integer n (a negative n drops that many from the end). */
  function SliceTo<T>(s: seq<T>, n: int): (r: seq<T>)
    ensures n >= 0 ==> |r| == MinInt(n, |s|)
    ensures n < 0 ==> |r| == MaxInt(0, |s| + n)
    ensures |r| <= |s| && r == s[..|r|]
  {
    if n >= 0 then Take(s, n) else if |s| + n <= 0 then [] else s[..|s| + n]
  }

  /** The result `_fetch_tweets_paginated` returns for a page loop run. */
  function Trimmed(r: PageRun, limit: int): Result<FetchResult, CollectError>
  {
    if r.outcome.Ok? then Ok(FetchResult(SliceTo(r.outcome.value.tweets, limit), r.outcome.value.users, r.outcome.value.media))
    else r.outcome
  }

  /** `_safe_fetch`: budget errors propagate; other errors become a note and an empty result. */
  function SafeFetch(stream: string, outcome: Result<FetchResult, CollectError>, notes: seq<string>)
    : (r: (Result<FetchResult, CollectError>, seq<string>))
    ensures outcome.Ok? ==> r == (outcome, notes)
    ensures outcome.Err? && outcome.error.kind == Budget ==> r == (outcome, notes)
    ensures outcome.Err? && outcome.error.kind == Collection ==>
      r.0 == Ok(EmptyFetch) && |r.1| == |notes| + 1 && r.1[..|notes|] == notes
    ensures r.0.Err? ==> r.0.error.kind == Budget
  {
    if outcome.Ok? then (outcome, notes)
    else if outcome.error.kind == Budget then (outcome, notes)
    else (Ok(EmptyFetch), notes + [stream + " unavailable: " + outcome.error.message])
  }

  // ---------------------------------------------------------------- merge of the streams

  /** The ids of a list of tweets, in order. */
  function IdsOf(ts: seq<RawTweet>): (r: seq<string>)
    ensures |r| == |ts|
    ensures forall i :: 0 <= i < |ts| ==> r[i] == ts[i].id
  {
    seq(|ts|, i requires 0 <= i < |ts| => ts[i].id)
  }

  /** The tweet at k is the first one in ts carrying its (non-empty) id. */
  predicate FirstSighting(ts: seq<RawTweet>, k: int)
    requires 0 <= k < |ts|
  {
    ts[k].id != "" && forall j :: 0 <= j < k ==> ts[j].id != ts[k].id
  }

  /** The `posts_by_id` dictionary: the first tweet seen for each non-empty id, in order of first sighting. */
  function FirstById(ts: seq<RawTweet>): (r: seq<RawTweet>)
    ensures forall i :: 0 <= i < |r| ==> r[i] in ts && r[i].id != ""
    ensures Distinct(IdsOf(r))
    ensures forall id :: id in IdsOf(r) <==> id != "" && id in IdsOf(ts)
    decreases |ts|
  {
    if ts == [] then []
    else
      var init := FirstById(ts[..|ts| - 1]);
      var t := ts[|ts| - 1];
      assert IdsOf(ts) == IdsOf(ts[..|ts| - 1]) + [t.id];
      assert forall x :: x in ts[..|ts| - 1] ==> x in ts;
      if t.id == "" || t.id in IdsOf(init) then init
      else
        assert IdsOf(init + [t]) == IdsOf(init) + [t.id];
        init + [t]
  }

  /** Every first sighting of an id is what the dictionary keeps. */
  lemma {:induction false} FirstByIdKeepsFirst(ts: seq<RawTweet>, k: int)
    requires 0 <= k < |ts| && FirstSighting(ts, k)
    ensures ts[k] in FirstById(ts)
    decreases |ts|
  {
    var init := ts[..|ts| - 1];
    if k < |ts| - 1 {
      assert FirstSighting(init, k);
      FirstByIdKeepsFirst(init, k);
    } else {
      assert ts[k].id !in IdsOf(init) by {
        forall j | 0 <= j < |init| ensures IdsOf(init)[j] != ts[k].id { }
      }
      assert ts[k].id !in IdsOf(FirstById(init));
    }
  }

  /** The order `deduped.sort(key=created_at, reverse=True)` puts tweets in. */
  function NewerFirst(a: RawTweet, b: RawTweet): bool
  {
    StrLe(b.createdAt, a.createdAt)
  }

  lemma NewerFirstOrder()
    ensures Total(NewerFirst) && Transitive(NewerFirst)
  {
    forall a: RawTweet, b: RawTweet ensures NewerFirst(a, b) || NewerFirst(b, a) {
      StrLeTotal(a.createdAt, b.createdAt);
    }
    forall a: RawTweet, b: RawTweet, c: RawTweet | NewerFirst(a, b) && NewerFirst(b, c)
      ensures NewerFirst(a, c)
    {
      StrLeTransitive(c.createdAt, b.createdAt, a.createdAt);
    }
  }

  datatype Merged = Merged(posts: seq<RawTweet>, users: map<string, RawUser>, media: map<string, RawMedia>)

  function AllTweets(results: seq<FetchResult>): seq<RawTweet>
  {
    if results == [] then [] else AllTweets(results[..|results| - 1]) + results[|results| - 1].tweets
  }

  /** `users_by_id.update(users)` for each stream in turn. */
  function UnionUsers(m: map<string, RawUser>, results: seq<FetchResult>): (r: map<string, RawUser>)
    ensures m.Keys <= r.Keys
  {
    if results == [] then m else UnionUsers(m, results[..|results| - 1]) + results[|results| - 1].users
  }

  function UnionMedia(m: map<string, RawMedia>, results: seq<FetchResult>): map<string, RawMedia>
  {
    if results == [] then m else UnionMedia(m, results[..|results| - 1]) + results[|results| - 1].media
  }

  /** `_merge_fetch_results`. */
  function MergeFetchResults(targetUser: RawUser, results: seq<FetchResult>, maxPosts: int): (m: Merged)
    ensures targetUser.id in m.users
  {
    var deduped := FirstById(AllTweets(results));
    var sorted := SortBy(deduped, NewerFirst);
    Merged(SliceTo(sorted, maxPosts), UnionUsers(map[targetUser.id := targetUser], results), UnionMedia(map[], results))
  }

  /** The merged posts are at most `max_posts`, newest `created_at` first. */
  lemma MergedNewestFirst(targetUser: RawUser, results: seq<FetchResult>, maxPosts: int)
    ensures var m := MergeFetchResults(targetUser, results, maxPosts);
      (maxPosts >= 0 ==> |m.posts| <= maxPosts)
      && forall i, j :: 0 <= i < j < |m.posts| ==> StrLe(m.posts[j].createdAt, m.posts[i].createdAt)
  {
    var deduped := FirstById(AllTweets(results));
    var sorted := SortBy(deduped, NewerFirst);
    var m := MergeFetchResults(targetUser, results, maxPosts);
    NewerFirstOrder();
    SortBySorted(deduped, NewerFirst);
    forall i, j | 0 <= i < j < |m.posts| ensures StrLe(m.posts[j].createdAt, m.posts[i].createdAt) {
      assert m.posts[i] == sorted[i] && m.posts[j] == sorted[j];
      SortedPairwise(sorted, NewerFirst, i, j);
    }
  }

  /**
   * The merged posts have distinct ids, each one the first tweet any stream returned
   * with that id.
   */
  lemma MergedDistinctFirstSeen(targetUser: RawUser, results: seq<FetchResult>, maxPosts: int)
    ensures var m := MergeFetchResults(targetUser, results, maxPosts);
      Distinct(IdsOf(m.posts))
      && forall i :: 0 <= i < |m.posts| ==> m.posts[i] in FirstById(AllTweets(results))
  {
    var deduped := FirstById(AllTweets(results));
    var sorted := SortBy(deduped, NewerFirst);
    var m := MergeFetchResults(targetUser, results, maxPosts);
    forall i | 0 <= i < |m.posts| ensures m.posts[i] in deduped {
      assert m.posts[i] == sorted[i];
      assert sorted[i] in multiset(sorted);
    }
    forall i, j | 0 <= i < j < |m.posts| ensures IdsOf(m.posts)[i] != IdsOf(m.posts)[j] {
      assert m.posts[i] == sorted[i] && m.posts[j] == sorted[j];
      DistinctIdsSorted(deduped, sorted, i, j);
    }
  }

  /** A reordering of a list with distinct ids still has distinct ids. */
  lemma DistinctIdsSorted(d: seq<RawTweet>, s: seq<RawTweet>, i: int, j: int)
    requires Distinct(IdsOf(d))
    requires multiset(s) == multiset(d)
    requires 0 <= i < j < |s|
    ensures s[i].id != s[j].id
  {
    assert Distinct(d) by {
      forall a, b | 0 <= a < b < |d| ensures d[a] != d[b] {
        assert IdsOf(d)[a] != IdsOf(d)[b];
      }
    }
    DistinctPermutation(d, s);
    assert s[i] in multiset(d) && s[j] in multiset(d);
    var a :| 0 <= a < |d| && d[a] == s[i];
    var b :| 0 <= b < |d| && d[b] == s[j];
    assert a != b;
    assert a < b ==> IdsOf(d)[a] != IdsOf(d)[b];
    assert b < a ==> IdsOf(d)[b] != IdsOf(d)[a];
  }

  /** The tweets `_filter_posts_by_window` keeps: a `created_at` that parses to an instant in [start, end]. */
  predicate InWindow(t: RawTweet, start: int, end: int)
  {
    t.createdAt != "" && t.createdSeconds.Some? && start <= t.createdSeconds.value <= end
  }

  /** `_filter_posts_by_window`. */
  function FilterPostsByWindow(raw: seq<RawTweet>, start: int, end: int): (r: seq<RawTweet>)
    ensures forall t :: t in r <==> t in raw && InWindow(t, start, end)
  {
    Filter(raw, (t: RawTweet) => InWindow(t, start, end))
  }

  /** Filtering keeps the newest-first order of the merged posts and their distinct ids. */
  lemma FilterKeepsOrder(raw: seq<RawTweet>, start: int, end: int)
    requires forall i, j :: 0 <= i < j < |raw| ==> StrLe(raw[j].createdAt, raw[i].createdAt) && raw[i].id != raw[j].id
    ensures var r := FilterPostsByWindow(raw, start, end);
      forall i, j :: 0 <= i < j < |r| ==> StrLe(r[j].createdAt, r[i].createdAt) && r[i].id != r[j].id
  {
    var rel := (a: RawTweet, b: RawTweet) => StrLe(b.createdAt, a.createdAt) && a.id != b.id;
    assert Chain(raw, rel);
    FilterChain(raw, (t: RawTweet) => InWindow(t, start, end), rel);
    var r := FilterPostsByWindow(raw, start, end);
    forall i, j | 0 <= i < j < |r| ensures StrLe(r[j].createdAt, r[i].createdAt) && r[i].id != r[j].id {
      assert rel(r[i], r[j]);
    }
  }

  /** Newest `created_at` first, with no id twice. */
  predicate NewestFirstDistinct(ps: seq<RawTweet>)
  {
    forall i, j :: 0 <= i < j < |ps| ==> StrLe(ps[j].createdAt, ps[i].createdAt) && ps[i].id != ps[j].id
  }

  /** The merged streams cut to the collection window, as `collect` hands them on. */
  function MergeInWindow(targetUser: RawUser, results: seq<FetchResult>, maxPosts: int, start: int, end: int): (m: Merged)
    ensures NewestFirstDistinct(m.posts)
    ensures maxPosts >= 0 ==> |m.posts| <= maxPosts
    ensures forall t :: t in m.posts ==> InWindow(t, start, end)
    ensures targetUser.id in m.users
  {
    var merged := MergeFetchResults(targetUser, results, maxPosts);
    MergedNewestFirst(targetUser, results, maxPosts);
    MergedDistinctFirstSeen(targetUser, results, maxPosts);
    assert forall i, j :: 0 <= i < j < |merged.posts| ==> merged.posts[i].id != merged.posts[j].id by {
      forall i, j | 0 <= i < j < |merged.posts| ensures merged.posts[i].id != merged.posts[j].id {
        assert IdsOf(merged.posts)[i] != IdsOf(merged.posts)[j];
      }
    }
    FilterKeepsOrder(merged.posts, start, end);
    Merged(FilterPostsByWindow(merged.posts, start, end), merged.users, merged.media)
  }

  // ---------------------------------------------------------------- the collector

  /** What `collect` holds once the three streams are merged and filtered to the window. */
  datatype Collected = Collected(
    handle: string,
    targetUser: RawUser,
    posts: seq<RawTweet>,
    users: map<string, RawUser>,
    media: map<string, RawMedia>,
    notes: seq<string>)

  /** The X API as the collector sees it in one run. */
  datatype Api = Api(
    userLookup: Response,
    targetTweets: PageRequest -> Response,
    mentions: PageRequest -> Response,
    searchRecent: (string, PageRequest) -> Response)

  /** The search query for the interaction stream: the caller's query, or the handle mentioned. */
  function InteractionQuery(query: Option<string>, handle: string): (q: string)
    ensures query.Some? && Strip(query.value) != [] ==> q == Strip(query.value)
    ensures (query.None? || Strip(query.value) == []) ==> q == "@" + handle
  {
    var stripped := if query.Some? then Strip(query.value) else [];
    if stripped != [] then stripped else "@" + handle
  }

  /** The settings `collect` reads. */
  datatype Settings = Settings(tokenConfigured: bool, maxRequestsPerRun: int, maxPages: int, costGuard: bool)

  /** `XIntelCollector` with its request counter and per-run request budget. */
  class Collector {
    var requestCount: int
    var maxRequestsPerRun: int
    const settings: Settings

    /** With the cost guard on, the counter never goes past the budget. */
    ghost predicate Valid()
      reads this
    {
      maxRequestsPerRun >= 1 && requestCount >= 0
      && (settings.costGuard ==> requestCount <= maxRequestsPerRun)
    }

    constructor(s: Settings)
      ensures Valid()
      ensures requestCount == 0 && maxRequestsPerRun == MaxInt(1, s.maxRequestsPerRun) && settings == s
    {
      requestCount := 0;
      maxRequestsPerRun := MaxInt(1, s.maxRequestsPerRun);
      settings := s;
    }

    /**
     * `_request_json`: refuse with a budget error, before counting, once the budget is
     * spent; otherwise count the request and map the response status.
     */
    method RequestJson(response: Response) returns (r: Result<Payload, CollectError>)
      requires Valid()
      modifies this
      ensures Valid()
      ensures maxRequestsPerRun == old(maxRequestsPerRun)
      ensures settings.costGuard && old(requestCount) >= maxRequestsPerRun ==>
        requestCount == old(requestCount) && r == Err(BudgetError(requestCount, maxRequestsPerRun))
      ensures !(settings.costGuard && old(requestCount) >= maxRequestsPerRun) ==>
        requestCount == old(requestCount) + 1 && r == StatusOutcome(response)
    {
      if settings.costGuard && requestCount >= maxRequestsPerRun {
        return Err(BudgetError(requestCount, maxRequestsPerRun));
      }
      requestCount := requestCount + 1;
      r := StatusOutcome(response);
    }

    /**
     * One pass of the page loop: request the next page and report how the rest of the loop
     * unfolds from it.
     */
    method NextPage(limit: int, maxPages: int, pageAt: PageRequest -> Response,
                    pages: nat, token: Option<string>, acc: FetchResult)
      returns (page: Result<Payload, CollectError>)
      requires Valid() && |acc.tweets| < limit && pages < maxPages
      modifies this
      ensures Valid() && maxRequestsPerRun == old(maxRequestsPerRun) && old(requestCount) <= requestCount
      ensures var here := Paginate(limit, maxPages, pageAt, pages, token, acc,
                                   old(requestCount), maxRequestsPerRun, settings.costGuard);
        && (page.Err? ==> here == PageRun(Err(page.error), requestCount - old(requestCount)))
        && (page.Ok? ==> requestCount == old(requestCount) + 1)
        && (page.Ok? && !HasToken(page.value.nextToken) ==> here == PageRun(Ok(AddPage(acc, page.value)), 1))
        && (page.Ok? && HasToken(page.value.nextToken) ==>
              var rest := Paginate(limit, maxPages, pageAt, pages + 1, page.value.nextToken, AddPage(acc, page.value),
                                   requestCount, maxRequestsPerRun, settings.costGuard);
              here == PageRun(rest.outcome, rest.requests + 1))
    {
      if settings.costGuard && requestCount >= maxRequestsPerRun {
        PaginateBudget(limit, maxPages, pageAt, pages, token, acc, requestCount, maxRequestsPerRun, settings.costGuard);
      } else {
        PaginateStep(limit, maxPages, pageAt, pages, token, acc, requestCount, maxRequestsPerRun, settings.costGuard);
      }
      page := RequestJson(pageAt(PageRequest(PageSize(limit, |acc.tweets|), token)));
    }

    /**
     * `_fetch_tweets_paginated`: request pages while fewer than `limit` tweets are held and
     * fewer than `maxPages` pages were fetched, following `next_token`.
     */
    method FetchTweetsPaginated(limit: int, maxPages: int, pageAt: PageRequest -> Response)
      returns (r: Result<FetchResult, CollectError>)
      requires Valid()
      modifies this
      ensures Valid()
      ensures maxRequestsPerRun == old(maxRequestsPerRun)
      ensures var spec := Paginate(limit, maxPages, pageAt, 0, None, EmptyFetch,
                                   old(requestCount), maxRequestsPerRun, settings.costGuard);
        requestCount == old(requestCount) + spec.requests && r == Trimmed(spec, limit)
    {
      var acc := EmptyFetch;
      var token: Option<string> := None;
      var pages: nat := 0;
      ghost var max := maxRequestsPerRun;
      ghost var guard := settings.costGuard;
      ghost var start := requestCount;
      ghost var spec := Paginate(limit, maxPages, pageAt, 0, None, EmptyFetch, start, max, guard);
      while |acc.tweets| < limit && pages < maxPages
        invariant Valid() && maxRequestsPerRun == max
        invariant start <= requestCount
        invariant var rest := Paginate(limit, maxPages, pageAt, pages, token, acc, requestCount, max, guard);
          spec == PageRun(rest.outcome, rest.requests + (requestCount - start))
        decreases maxPages - pages
      {
        var page := NextPage(limit, maxPages, pageAt, pages, token, acc);
        if page.Err? {
          return Err(page.error);
        }
        acc := AddPage(acc, page.value);
        token := page.value.nextToken;
        pages := pages + 1;
        if !HasToken(token) {
          return Ok(FetchResult(SliceTo(acc.tweets, limit), acc.users, acc.media));
        }
      }
      r := Ok(FetchResult(SliceTo(acc.tweets, limit), acc.users, acc.media));
    }

    /**
     * The three streams of `collect`, one after the other, each through `_safe_fetch`, then
     * merged and cut to the window.
     */
    method CollectStreams(handle: string, user: RawUser, maxPosts: int, query: Option<string>,
                          startTime: int, endTime: int, api: Api)
      returns (r: Result<Collected, CollectError>)
      requires Valid()
      modifies this
      ensures Valid() && maxRequestsPerRun == old(maxRequestsPerRun) && old(requestCount) <= requestCount
      ensures r.Ok? ==> |r.value.notes| <= 3 && r.value.handle == handle && r.value.targetUser == user
      ensures r.Ok? ==> user.id in r.value.users
      ensures r.Ok? ==> NewestFirstDistinct(r.value.posts) && (maxPosts >= 0 ==> |r.value.posts| <= maxPosts)
      ensures r.Ok? ==> forall t :: t in r.value.posts ==> InWindow(t, startTime, endTime)
    {
      var limits := StreamLimits(maxPosts);
      var q := InteractionQuery(query, handle);
      var notes: seq<string> := [];
      var fetched := FetchTweetsPaginated(limits.0, settings.maxPages, api.targetTweets);
      var target := SafeFetch("target_tweets", fetched, notes);
      if target.0.Err? {
        return Err(target.0.error);
      }
      notes := target.1;
      fetched := FetchTweetsPaginated(limits.1, settings.maxPages, api.mentions);
      var mentions := SafeFetch("mentions", fetched, notes);
      if mentions.0.Err? {
        return Err(mentions.0.error);
      }
      notes := mentions.1;
      fetched := FetchTweetsPaginated(limits.2, settings.maxPages, (req: PageRequest) => api.searchRecent(q, req));
      var search := SafeFetch("search_recent", fetched, notes);
      if search.0.Err? {
        return Err(search.0.error);
      }
      notes := search.1;
      var results := [target.0.value, mentions.0.value, search.0.value];
      var merged := MergeInWindow(user, results, maxPosts, startTime, endTime);
      r := Ok(Collected(handle, user, merged.posts, merged.users, merged.media, notes));
    }

    /**
     * `collect` up to the point where the posts are merged and filtered: the token check,
     * the counter reset, the pre-flight budget check on the settings' page cap, the
     * target-user lookup and the three streams, run one after the other.
     */
    method Collect(targetHandle: string, windowDays: int, maxPosts: int, query: Option<string>, now: int, api: Api)
      returns (r: Result<Collected, CollectError>)
      requires Valid()
      modifies this
      ensures Valid()
      ensures !settings.tokenConfigured ==>
        r.Err? && r.error.kind == Collection && r.error.status == 400 && requestCount == old(requestCount)
      ensures settings.tokenConfigured ==> maxRequestsPerRun == MaxInt(1, settings.maxRequestsPerRun)
      ensures settings.tokenConfigured && settings.costGuard
        && EstimateRequestPlan(maxPosts, None, settings.maxPages).estimatedRequests > MaxInt(1, settings.maxRequestsPerRun)
        ==> r.Err? && r.error.kind == Budget && requestCount == 0
      ensures r.Ok? ==> requestCount >= 1 && |r.value.notes| <= 3
      ensures r.Ok? ==> r.value.handle == NormalizeHandle(targetHandle)
      ensures r.Ok? ==> r.value.targetUser.id != "" && r.value.targetUser.id in r.value.users
      ensures r.Ok? ==> NewestFirstDistinct(r.value.posts) && (maxPosts >= 0 ==> |r.value.posts| <= maxPosts)
      ensures r.Ok? ==> forall t :: t in r.value.posts ==> InWindow(t, now - windowDays * 86400, now)
    {
      var handle := NormalizeHandle(targetHandle);
      if !settings.tokenConfigured {
        return Err(CollectError(Collection, 400, TokenMissingMessage));
      }
      requestCount := 0;
      maxRequestsPerRun := MaxInt(1, settings.maxRequestsPerRun);
      var plan := EstimateRequestPlan(maxPosts, None, settings.maxPages);
      if settings.costGuard && plan.estimatedRequests > maxRequestsPerRun {
        return Err(CollectError(Budget, 400, EstimateLead
          + IntToString(plan.estimatedRequests) + " > " + IntToString(maxRequestsPerRun)
          + EstimateTail));
      }
      var endTime := now;
      var startTime := now - windowDays * 86400;
      var lookup := RequestJson(api.userLookup);
      if lookup.Err? {
        return Err(lookup.error);
      }
      if lookup.value.user.None? {
        return Err(CollectError(Collection, 404, HandleLead + handle + HandleTail));
      }
      var user := lookup.value.user.value;
      if user.id == "" {
        return Err(CollectError(Collection, 502, UnresolvedUserMessage));
      }
      r := CollectStreams(handle, user, maxPosts, query, startTime, endTime, api);
    }
  }
}
