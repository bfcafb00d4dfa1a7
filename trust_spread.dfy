// `TrustReportGenerator._max_spread_count`: reading the per-day counts back out of the
// "date: count, date: count" text that `_spread_over_time` writes.

module TrustSpread {
  import opened Common
  import opened Text
  import opened Collections
  import opened Numerals
  import opened XIntelPosts
  import opened XIntelClaims

  /**
   * The count one comma-separated chunk contributes: the integer after its last ':',
   * or None when the stripped chunk has no ':' or that text is not an integer.
   */
  function ChunkValue(chunk: string): Option<int>
  {
    var part := Strip(chunk);
    if ':' !in part then None else ParseInt(LastPart(part, ':'))
  }

  /** The largest value some items give, starting from 0; items giving None are skipped. */
  function MaxOf<T>(items: seq<T>, value: T -> Option<int>): int
  {
    if items == [] then 0
    else
      var m := MaxOf(items[..|items| - 1], value);
      var v := value(items[|items| - 1]);
      if v.Some? then MaxInt(m, v.value) else m
  }

  /** The largest chunk value, starting from 0. */
  function MaxOfChunks(chunks: seq<string>): int
  {
    MaxOf(chunks, ChunkValue)
  }

  /** `_max_spread_count` */
  method MaxSpreadCount(spreadOverTime: string) returns (maxCount: int)
    ensures maxCount == MaxOfChunks(Split(spreadOverTime, ','))
  {
    var chunks := Split(spreadOverTime, ',');
    maxCount := 0;
    var i := 0;
    while i < |chunks|
      invariant 0 <= i <= |chunks|
      invariant maxCount == MaxOf(chunks[..i], ChunkValue)
    {
      assert chunks[..i + 1][..i] == chunks[..i];
      var part := Strip(chunks[i]);
      if ':' in part {
        var value := ParseInt(LastPart(part, ':'));
        if value.Some? {
          maxCount := MaxInt(maxCount, value.value);
        }
      }
      i := i + 1;
    }
    assert chunks[..i] == chunks;
  }

  /**
   * The result is at least 0 and at least every item's value, and it is 0 or the value of
   * one of the items.
   */
  lemma {:induction false} MaxOfIsMax<T>(items: seq<T>, value: T -> Option<int>)
    ensures var r := MaxOf(items, value);
      r >= 0
      && (forall k :: 0 <= k < |items| && value(items[k]).Some? ==> value(items[k]).value <= r)
      && (r == 0 || exists k :: 0 <= k < |items| && value(items[k]) == Some(r))
    decreases |items|
  {
    if items != [] {
      var init := items[..|items| - 1];
      MaxOfIsMax(init, value);
      forall k | 0 <= k < |init| ensures init[k] == items[k] { }
    }
  }

  /** The count after the colon of a written day, with its leading space, parses back. */
  lemma CountReadsBack(n: nat)
    ensures ParseInt(" " + NatToString(n)) == Some(n)
  {
    var t := NatToString(n);
    StripSpaced(t);
    ParseIntIgnoresSpace(" " + t);
    IntRoundTrip(n);
  }

  /** The text after the last ':' of a written day is the space and the count. */
  lemma LastPartOfItem(e: (IsoDate, nat))
    ensures LastPart(SpreadItem(e), ':') == " " + NatToString(e.1)
  {
    var n := NatToString(e.1);
    assert SpreadItem(e) == e.0 + [':'] + (" " + n);
    assert ':' !in e.0;
    assert ':' !in " " + n;
    SplitAtFirst(e.0, " " + n, ':');
    SplitWithout(" " + n, ':');
  }

  /** One written day, " date: count" or "date: count", reads back as its count. */
  lemma SpreadItemValue(e: (IsoDate, nat))
    ensures ChunkValue(SpreadItem(e)) == Some(e.1)
    ensures ChunkValue(" " + SpreadItem(e)) == Some(e.1)
  {
    var item := SpreadItem(e);
    assert item == e.0 + ": " + NatToString(e.1);
    assert IsAsciiDigit(item[0]) && IsAsciiDigit(item[|item| - 1]);
    StripOfTrimmed(item);
    StripSpaced(item);
    assert item[10] == ':';
    LastPartOfItem(e);
    CountReadsBack(e.1);
  }

  /** No written day holds a comma. */
  lemma ItemHasNoComma(e: (IsoDate, nat))
    ensures ',' !in SpreadItem(e)
  {
    var n := NatToString(e.1);
    var item := SpreadItem(e);
    assert item == e.0 + ": " + n;
    forall j | 0 <= j < |item| ensures item[j] != ',' {
      if j >= 12 { assert item[j] == n[j - 12]; }
    }
  }

  /** The spread text is the written days joined by ", ". */
  lemma SpreadSplits(es: seq<(IsoDate, nat)>)
    ensures var items := MapSeq(es, SpreadItem);
      var chunks := Split(FormatSpread(es), ',');
      |chunks| == (if es == [] then 1 else |es|)
      && (es == [] ==> chunks[0] == "")
      && (es != [] ==> chunks[0] == items[0])
      && forall k :: 1 <= k < |es| ==> chunks[k] == " " + items[k]
  {
    var items := MapSeq(es, SpreadItem);
    forall k | 0 <= k < |items| ensures ',' !in items[k] {
      ItemHasNoComma(es[k]);
    }
    assert ", " == [','] + " ";
    assert "" + Join(items, [','] + " ") == FormatSpread(es);
    SplitJoined("", items, ',', " ");
  }

  /** The chunks of the spread text are the written days, and each reads back as its count. */
  lemma SpreadChunks(es: seq<(IsoDate, nat)>)
    ensures var chunks := Split(FormatSpread(es), ',');
      |chunks| == (if es == [] then 1 else |es|)
      && (es == [] ==> chunks[0] == "")
      && (forall k :: 0 <= k < |es| ==> ChunkValue(chunks[k]) == Some(es[k].1))
  {
    SpreadSplits(es);
    var chunks := Split(FormatSpread(es), ',');
    forall k | 0 <= k < |es| ensures ChunkValue(chunks[k]) == Some(es[k].1) {
      SpreadItemValue(es[k]);
    }
  }

  /**
   * Reading the spread text of some day counts gives the largest of those counts, and 0
   * when there are none.
   */
  lemma SpreadMaxRoundTrip(es: seq<(IsoDate, nat)>)
    ensures var r := MaxOfChunks(Split(FormatSpread(es), ','));
      (forall k :: 0 <= k < |es| ==> es[k].1 <= r)
      && (es == [] ==> r == 0)
      && (es != [] ==> exists k :: 0 <= k < |es| && es[k].1 == r)
  {
    var chunks := Split(FormatSpread(es), ',');
    SpreadChunks(es);
    MaxOfIsMax(chunks, ChunkValue);
    var r := MaxOfChunks(chunks);
    if es == [] {
      assert ChunkValue(chunks[0]) == None;
    } else if r == 0 {
      assert ChunkValue(chunks[0]) == Some(es[0].1);
    } else {
      var k :| 0 <= k < |chunks| && ChunkValue(chunks[k]) == Some(r);
      assert ChunkValue(chunks[k]) == Some(es[k].1);
    }
  }

  /** The largest daily count read back from the spread of some posts. */
  function BusiestDay(ps: seq<Post>): int
  {
    MaxOfChunks(Split(SpreadOverTime(ps), ','))
  }

  /**
   * Applied to a claim cluster's spread, the maximum is the number of posts on the busiest
   * day: no day has more posts, and with posts some day has exactly that many.
   */
  lemma SpreadOverTimeMax(ps: seq<Post>)
    ensures var r := BusiestDay(ps);
      (forall p :: p in ps ==> Occurrences(MapSeq(ps, DateOf), p.createdDate) <= r)
      && (ps == [] ==> r == 0)
      && (ps != [] ==> exists p :: p in ps && Occurrences(MapSeq(ps, DateOf), p.createdDate) == r)
  {
    BusiestDayBound(ps);
    if ps == [] {
      SpreadMaxRoundTrip(SpreadEntries(ps));
    } else {
      BusiestDayExists(ps);
    }
  }

  lemma BusiestDayBound(ps: seq<Post>)
    ensures forall p :: p in ps ==> Occurrences(MapSeq(ps, DateOf), p.createdDate) <= BusiestDay(ps)
  {
    var es := SpreadEntries(ps);
    SpreadEntriesShape(ps);
    SpreadMaxRoundTrip(es);
  }

  lemma BusiestDayExists(ps: seq<Post>)
    requires ps != []
    ensures exists p :: p in ps && Occurrences(MapSeq(ps, DateOf), p.createdDate) == BusiestDay(ps)
  {
    var es := SpreadEntries(ps);
    var ds := MapSeq(ps, DateOf);
    SpreadEntriesShape(ps);
    SpreadMaxRoundTrip(es);
    var k :| 0 <= k < |es| && es[k].1 == BusiestDay(ps);
    assert es[k].0 in ds;
    var i :| 0 <= i < |ds| && ds[i] == es[k].0;
    assert ps[i] in ps;
  }
}
