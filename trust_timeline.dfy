// The two day-by-day views of `TrustReportGenerator`: the post-volume timeline of the
// report (`_build_timeline`) and the claim timeline of the drill-down (`_claim_timeline`).

module TrustTimeline {
  import opened Common
  import opened Text
  import opened Collections
  import opened Numerals
  import opened XIntelPosts
  import opened XIntelClaims

  // ---------------------------------------------------------------- post-volume timeline

  /** `post.created_at[:10]`: the day as written at the head of the timestamp. */
  function DayText(p: Post): string { Take(p.createdAt, 10) }

  function ByDayText(a: (string, nat), b: (string, nat)): bool { StrLe(a.0, b.0) }

  lemma ByDayTextOrder()
    ensures Total(ByDayText) && Transitive(ByDayText)
  {
    forall a: (string, nat), b: (string, nat) ensures ByDayText(a, b) || ByDayText(b, a) {
      StrLeTotal(a.0, b.0);
    }
    forall a: (string, nat), b: (string, nat), c: (string, nat) | ByDayText(a, b) && ByDayText(b, c)
      ensures ByDayText(a, c)
    {
      StrLeTransitive(a.0, b.0, c.0);
    }
  }

  /** `sorted(Counter(created_at[:10]).items())` */
  function DayCounts(posts: seq<Post>): seq<(string, nat)>
  {
    SortBy(CountAll(MapSeq(posts, DayText)), ByDayText)
  }

  const SpikeThreshold := 10

  /** The words after a day's post count in its event. */
  const ObservedWords := "posts observed in scope."

  /** What a spike entry puts before the day's post count. */
  const VolumeLead := "post_volume="

  datatype TimelineRow = TimelineRow(date: string, events: seq<string>, spikes: seq<string>)

  /** One timeline row: the day's post count as an event, and a volume spike from 10 posts on. */
  function RowOf(e: (string, nat)): TimelineRow
  {
    TimelineRow(e.0, [NatToString(e.1) + [' '] + ObservedWords],
                if e.1 >= SpikeThreshold then [VolumeLead + NatToString(e.1)] else [])
  }

  /** What `_build_timeline` returns. */
  function Timeline(posts: seq<Post>): seq<TimelineRow>
  {
    if posts == [] then [] else MapSeq(DayCounts(posts), RowOf)
  }

  /** `_build_timeline`: count the posts per day, then write one row per day in date order. */
  method BuildTimeline(posts: seq<Post>) returns (timeline: seq<TimelineRow>)
    ensures timeline == Timeline(posts)
  {
    if posts == [] {
      return [];
    }
    var grouped := DayCounts(posts);
    timeline := [];
    var i := 0;
    while i < |grouped|
      invariant 0 <= i <= |grouped|
      invariant timeline == MapSeq(grouped[..i], RowOf)
    {
      assert grouped[..i + 1] == grouped[..i] + [grouped[i]];
      MapSeqSnoc(grouped[..i], grouped[i], RowOf);
      timeline := timeline + [RowOf(grouped[i])];
      i := i + 1;
    }
    assert grouped[..i] == grouped;
  }

  /** The day counts: dates strictly increasing, true counts, every post's day present. */
  lemma DayCountsShape(posts: seq<Post>)
    ensures var es := DayCounts(posts);
      (forall i, j :: 0 <= i < j < |es| ==> StrLe(es[i].0, es[j].0) && es[i].0 != es[j].0)
      && (forall k :: 0 <= k < |es| ==> es[k].1 == Occurrences(MapSeq(posts, DayText), es[k].0) >= 1)
      && (forall p :: p in posts ==> exists k :: 0 <= k < |es| && es[k].0 == DayText(p))
      && SumCounts(es) == |posts|
  {
    var ds := MapSeq(posts, DayText);
    ByDayTextOrder();
    SortedCountsShape(ds, ByDayText);
    forall p | p in posts ensures DayText(p) in ds {
      var i :| 0 <= i < |posts| && posts[i] == p;
      assert ds[i] == DayText(p);
    }
  }

  /**
   * One row per day that has a post, in date order; each row's event carries that day's
   * post count, and a row has a spike exactly when its day has at least 10 posts.
   */
  lemma TimelineShape(posts: seq<Post>)
    ensures var es := DayCounts(posts);
      var rows := Timeline(posts);
      |rows| == (if posts == [] then 0 else |es|)
      && (posts != [] ==> es != [])
      && (forall k :: 0 <= k < |rows| ==>
            rows[k].date == es[k].0
            && rows[k].events == [NatToString(es[k].1) + [' '] + ObservedWords]
            && (rows[k].spikes != [] <==> es[k].1 >= SpikeThreshold))
  {
    if posts != [] {
      DayCountsShape(posts);
      assert posts[0] in posts;
    }
  }

  // ---------------------------------------------------------------- claim timeline

  /** The characters of the `[a-zA-Z0-9_]` class. */
  predicate IsWordChar(c: char) { IsAlnum(c) || c == '_' }

  /** Length of the run of word characters at the start of s. */
  function WordRun(s: string): (n: nat)
    ensures n <= |s|
    ensures forall i :: 0 <= i < n ==> IsWordChar(s[i])
    ensures n < |s| ==> !IsWordChar(s[n])
  {
    if s == [] || !IsWordChar(s[0]) then 0 else 1 + WordRun(s[1..])
  }

  /** `re.findall(r"[a-zA-Z0-9_]+", s)`: the maximal runs of word characters, in order. */
  function WordRuns(s: string): (ws: seq<string>)
    ensures forall k :: 0 <= k < |ws| ==> ws[k] != [] && forall j :: 0 <= j < |ws[k]| ==> IsWordChar(ws[k][j])
    decreases |s|
  {
    if s == [] then []
    else if !IsWordChar(s[0]) then WordRuns(s[1..])
    else
      var n := WordRun(s);
      [s[..n]] + WordRuns(s[n..])
  }

  /** `_normalize_topic_tokens`: the lower-cased word runs of at least four characters. */
  function TopicTokens(text: string): set<string>
  {
    set t | t in WordRuns(Lower(text)) && |t| >= 4
  }

  /** A post mentions a topic when the topic has tokens and shares one with the post. */
  predicate Mentions(textTokens: set<string>, topicTokens: set<string>)
  {
    topicTokens != {} && exists t :: t in topicTokens && t in textTokens
  }

  /** The topic labels, in cluster order, that one post mentions. */
  function MatchedTopics(p: Post, topics: seq<string>): seq<string>
  {
    Filter(topics, (topic: string) => Mentions(TopicTokens(p.text), TopicTokens(topic)))
  }

  /** Every topic mention by the posts of day d, post by post and topic by topic. */
  function MentionsOn(posts: seq<Post>, topics: seq<string>, d: IsoDate): seq<string>
  {
    if posts == [] then []
    else
      var last := posts[|posts| - 1];
      MentionsOn(posts[..|posts| - 1], topics, d)
        + (if last.createdDate == d then MatchedTopics(last, topics) else [])
  }

  /** `sorted(by_day)`: the days that have posts, in increasing order. */
  function PostDays(posts: seq<Post>): seq<IsoDate>
  {
    Keys(SpreadEntries(posts))
  }

  datatype ClaimDay = ClaimDay(date: IsoDate, totalMentions: nat, topics: seq<(string, nat)>)

  const MaxTopicsPerDay := 8

  /** One claim-timeline row: the day's mention total and its eight most mentioned topics. */
  function ClaimDayOf(posts: seq<Post>, topics: seq<string>, d: IsoDate): ClaimDay
  {
    var mentions := MentionsOn(posts, topics, d);
    ClaimDay(d, |mentions|, Take(MostCommon(CountAll(mentions)), MaxTopicsPerDay))
  }

  function TopicLabels(cs: seq<ClaimCluster>): seq<string>
  {
    MapSeq(cs, (c: ClaimCluster) => c.topicLabel)
  }

  /** The rows for some days, one per day in order. */
  function ClaimRows(posts: seq<Post>, topics: seq<string>, days: seq<IsoDate>): (rows: seq<ClaimDay>)
    ensures |rows| == |days|
    ensures forall k :: 0 <= k < |days| ==> rows[k] == ClaimDayOf(posts, topics, days[k])
  {
    if days == [] then []
    else ClaimRows(posts, topics, days[..|days| - 1]) + [ClaimDayOf(posts, topics, days[|days| - 1])]
  }

  /** What `_claim_timeline` returns. */
  function ClaimTimeline(posts: seq<Post>, cs: seq<ClaimCluster>): seq<ClaimDay>
  {
    ClaimRows(posts, TopicLabels(cs), PostDays(posts))
  }

  /** The rows of one more day are the rows so far and that day's row. */
  lemma ClaimRowsSnoc(posts: seq<Post>, topics: seq<string>, days: seq<IsoDate>, i: nat)
    requires i < |days|
    ensures ClaimRows(posts, topics, days[..i + 1]) == ClaimRows(posts, topics, days[..i]) + [ClaimDayOf(posts, topics, days[i])]
  {
    assert days[..i + 1][..i] == days[..i];
  }

  /** The row-writing loop of `_claim_timeline`, over the days in order. */
  method BuildClaimTimeline(posts: seq<Post>, cs: seq<ClaimCluster>) returns (rows: seq<ClaimDay>)
    ensures rows == ClaimTimeline(posts, cs)
  {
    var topics := TopicLabels(cs);
    var days := PostDays(posts);
    rows := [];
    var i := 0;
    while i < |days|
      invariant 0 <= i <= |days|
      invariant rows == ClaimRows(posts, topics, days[..i])
    {
      ClaimRowsSnoc(posts, topics, days, i);
      rows := rows + [ClaimDayOf(posts, topics, days[i])];
      i := i + 1;
    }
    assert days[..i] == days;
  }

  /** Every mention names one of the topics, and only a topic with tokens of its own. */
  lemma {:induction false} MentionsAreTopics(posts: seq<Post>, topics: seq<string>, d: IsoDate)
    ensures forall x :: x in MentionsOn(posts, topics, d) ==> x in topics && TopicTokens(x) != {}
    decreases |posts|
  {
    if posts != [] {
      MentionsAreTopics(posts[..|posts| - 1], topics, d);
    }
  }

  /**
   * One row per day that has a post, days strictly increasing; each row shows at most eight
   * topics, most mentioned first, each a cluster topic with its true mention count that day.
   */
  lemma ClaimTimelineShape(posts: seq<Post>, cs: seq<ClaimCluster>)
    ensures var rows := ClaimTimeline(posts, cs);
      |rows| == |Dedup(MapSeq(posts, DateOf))|
      && (forall i, j :: 0 <= i < j < |rows| ==> StrLe(rows[i].date, rows[j].date) && rows[i].date != rows[j].date)
      && (forall p :: p in posts ==> exists k :: 0 <= k < |rows| && rows[k].date == p.createdDate)
      && (forall k :: 0 <= k < |rows| ==> ClaimDayFits(rows[k], posts, TopicLabels(cs)))
  {
    var topics := TopicLabels(cs);
    var rows := ClaimTimeline(posts, cs);
    var es := SpreadEntries(posts);
    SpreadEntriesShape(posts);
    assert |es| == |Dedup(MapSeq(posts, DateOf))|;
    forall k | 0 <= k < |rows| ensures ClaimDayFits(rows[k], posts, topics) {
      ClaimDayOfFits(posts, topics, es[k].0);
    }
  }

  /** What each claim-timeline row promises. */
  predicate ClaimDayFits(row: ClaimDay, posts: seq<Post>, topics: seq<string>)
  {
    var mentions := MentionsOn(posts, topics, row.date);
    row.totalMentions == |mentions|
    && |row.topics| <= MaxTopicsPerDay
    && CountOrdered(row.topics)
    && forall j :: 0 <= j < |row.topics| ==>
         row.topics[j].0 in topics && row.topics[j].1 == Occurrences(mentions, row.topics[j].0) >= 1
  }

  lemma ClaimDayOfFits(posts: seq<Post>, topics: seq<string>, d: IsoDate)
    ensures ClaimDayFits(ClaimDayOf(posts, topics, d), posts, topics)
  {
    var mentions := MentionsOn(posts, topics, d);
    var mc := MostCommon(CountAll(mentions));
    var shown := Take(mc, MaxTopicsPerDay);
    MostCommonShape(mentions);
    MentionsAreTopics(posts, topics, d);
    forall j | 0 <= j < |shown| ensures shown[j].0 in topics && shown[j].1 == Occurrences(mentions, shown[j].0) >= 1 {
      assert shown[j] == mc[j];
    }
    forall i, j | 0 <= i < j < |shown| ensures shown[i].1 >= shown[j].1 {
      assert shown[i] == mc[i] && shown[j] == mc[j];
    }
  }
}
