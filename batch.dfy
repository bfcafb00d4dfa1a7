// The batch text endpoint (backend/app/api/v1/batch.py): every item is checked and detected
// on its own, in request order, optionally stopping at the first failure.

module BatchApi {
  import opened Common
  import opened Text
  import opened Numerals

  /** One requested item: an optional caller id and the text. */
  datatype BatchItem = BatchItem(itemId: Option<string>, text: string)

  /** What the detector, the consensus and the store made of an accepted text. */
  datatype Detection = Detection(confidence: real, isAiGenerated: bool, analysisId: string)

  /** Why one item failed. */
  datatype ItemError = TextEmpty | TextTooLong(maxTextLength: int) | DetectorRaised(message: string)

  datatype ResultItem = ItemOk(itemId: string, result: Detection) | ItemFailed(itemId: string, error: ItemError)
  {
    function Id(): string
    {
      match this
      case ItemOk(id, _) => id
      case ItemFailed(id, _) => id
    }
  }

  datatype BatchResponse = BatchResponse(total: nat, succeeded: nat, failed: nat, items: seq<ResultItem>)

  /** `item.item_id or str(index)` */
  function ItemId(item: BatchItem, index: nat): (id: string)
    ensures item.itemId.Some? && item.itemId.value != [] ==> id == item.itemId.value
    ensures (item.itemId.None? || item.itemId.value == []) ==> ParseInt(id) == Some(index as int)
  {
    if item.itemId.Some? && item.itemId.value != [] then item.itemId.value
    else
      IntRoundTrip(index);
      NatToString(index)
  }

  /**
   * The result for the item at `index`. `detect` stands for the detector, the consensus and
   * the store on the stripped text, `Err` for an exception any of them raised.
   */
  function ItemResult(item: BatchItem, index: nat, maxTextLength: int, detect: string -> Result<Detection, string>)
    : (r: ResultItem)
    ensures r.Id() == ItemId(item, index)
  {
    var id := ItemId(item, index);
    var text := Strip(item.text);
    if text == [] then ItemFailed(id, TextEmpty)
    else if |text| > maxTextLength then ItemFailed(id, TextTooLong(maxTextLength))
    else match detect(text)
      case Ok(d) => ItemOk(id, d)
      case Err(message) => ItemFailed(id, DetectorRaised(message))
  }

  /**
   * An item fails as empty exactly when its text is blank, as too long exactly when its
   * stripped text exceeds the maximum, and succeeds only with what the detector returned
   * for the stripped text.
   */
  lemma ItemResultMeaning(item: BatchItem, index: nat, maxTextLength: int, detect: string -> Result<Detection, string>)
    ensures var r := ItemResult(item, index, maxTextLength, detect);
      (r == ItemFailed(ItemId(item, index), TextEmpty) <==> IsBlank(item.text)) &&
      (r.ItemFailed? && r.error.TextTooLong? <==> !IsBlank(item.text) && |Strip(item.text)| > maxTextLength) &&
      (r.ItemOk? ==> detect(Strip(item.text)) == Ok(r.result) && |Strip(item.text)| <= maxTextLength)
  {
    StripEmptyIffBlank(item.text);
  }

  /** A blank or over-long item fails the same whatever the detector would have done. */
  lemma GuardsBeforeDetector(item: BatchItem, index: nat, maxTextLength: int,
                             d1: string -> Result<Detection, string>, d2: string -> Result<Detection, string>)
    requires IsBlank(item.text) || |Strip(item.text)| > maxTextLength
    ensures ItemResult(item, index, maxTextLength, d1) == ItemResult(item, index, maxTextLength, d2)
    ensures ItemResult(item, index, maxTextLength, d1).ItemFailed?
  {
    StripEmptyIffBlank(item.text);
  }

  /** Every result but the last is a success. */
  predicate OkBeforeLast(rs: seq<ResultItem>)
  {
    forall j :: 0 <= j < |rs| - 1 ==> rs[j].ItemOk?
  }

  /**
   * The results that are kept: all of them, or with `stopOnError` those up to and including
   * the first failure.
   */
  function StopAfter(rs: seq<ResultItem>, stopOnError: bool): (kept: seq<ResultItem>)
    ensures |kept| <= |rs| && kept == rs[..|kept|]
    ensures !stopOnError ==> kept == rs
    ensures stopOnError ==> OkBeforeLast(kept)
    ensures stopOnError && |kept| < |rs| ==> kept != [] && kept[|kept| - 1].ItemFailed?
  {
    if rs == [] then []
    else if stopOnError && rs[0].ItemFailed? then [rs[0]]
    else
      var rest := StopAfter(rs[1..], stopOnError);
      assert rs[1..][..|rest|] == rs[1..|rest| + 1];
      [rs[0]] + rest
  }

  /** With stop-on-error the results end at the first failure. */
  lemma {:induction false} StopsAtFirstFailure(rs: seq<ResultItem>, f: nat)
    requires f < |rs| && rs[f].ItemFailed?
    requires forall j :: 0 <= j < f ==> rs[j].ItemOk?
    ensures |StopAfter(rs, true)| == f + 1
  {
    if f > 0 {
      StopsAtFirstFailure(rs[1..], f - 1);
    }
  }

  /** The result every item would get on its own. */
  function Answers(items: seq<BatchItem>, maxTextLength: int, detect: string -> Result<Detection, string>)
    : (rs: seq<ResultItem>)
    ensures |rs| == |items|
    ensures forall j :: 0 <= j < |items| ==> rs[j] == ItemResult(items[j], j, maxTextLength, detect)
  {
    seq(|items|, j requires 0 <= j < |items| => ItemResult(items[j], j, maxTextLength, detect))
  }

  /**
   * The results of a processed batch, in request order: the j-th result is the j-th item's;
   * without stop-on-error every item has one, with it the batch ends at the first failure.
   */
  function Results(items: seq<BatchItem>, maxTextLength: int, detect: string -> Result<Detection, string>,
                   stopOnError: bool): (rs: seq<ResultItem>)
    ensures |rs| <= |items| && forall j :: 0 <= j < |rs| ==> rs[j] == ItemResult(items[j], j, maxTextLength, detect)
    ensures !stopOnError ==> |rs| == |items|
    ensures stopOnError ==> OkBeforeLast(rs)
    ensures stopOnError && |rs| < |items| ==> rs != [] && rs[|rs| - 1].ItemFailed?
  {
    var a := Answers(items, maxTextLength, detect);
    var kept := StopAfter(a, stopOnError);
    KeptAnswers(items, maxTextLength, detect, a, kept);
    kept
  }

  /** A prefix of the answers holds, at each position, that position's item's result. */
  lemma KeptAnswers(items: seq<BatchItem>, maxTextLength: int, detect: string -> Result<Detection, string>,
                    a: seq<ResultItem>, kept: seq<ResultItem>)
    requires a == Answers(items, maxTextLength, detect)
    requires |kept| <= |a| && kept == a[..|kept|]
    ensures forall j :: 0 <= j < |kept| ==> kept[j] == ItemResult(items[j], j, maxTextLength, detect)
  {
    forall j | 0 <= j < |kept| ensures kept[j] == ItemResult(items[j], j, maxTextLength, detect) {
      assert kept[j] == a[..|kept|][j];
    }
  }

  /** Without stop-on-error every item has exactly one result, at its own position. */
  lemma EveryItemAnswered(items: seq<BatchItem>, maxTextLength: int, detect: string -> Result<Detection, string>)
    ensures var rs := Results(items, maxTextLength, detect, false);
      |rs| == |items| && forall j :: 0 <= j < |items| ==> rs[j].Id() == ItemId(items[j], j)
  {
  }

  /** Number of successful results. */
  function Successes(rs: seq<ResultItem>): (n: nat)
    ensures n <= |rs|
  {
    if rs == [] then 0 else Successes(rs[..|rs| - 1]) + (if rs[|rs| - 1].ItemOk? then 1 else 0)
  }

  /** Number of failed results. */
  function Failures(rs: seq<ResultItem>): (n: nat)
    ensures n + Successes(rs) == |rs|
  {
    if rs == [] then 0 else Failures(rs[..|rs| - 1]) + (if rs[|rs| - 1].ItemFailed? then 1 else 0)
  }

  lemma SuccessesSnoc(rs: seq<ResultItem>, r: ResultItem)
    ensures Successes(rs + [r]) == Successes(rs) + (if r.ItemOk? then 1 else 0)
    ensures Failures(rs + [r]) == Failures(rs) + (if r.ItemFailed? then 1 else 0)
  {
    assert (rs + [r])[..|rs|] == rs;
  }

  /**
   * One loop step over the would-be results `rs`: the k-th result is appended to `done`, and
   * either it is the last one kept or the rest follow.
   */
  lemma StopAfterStep(done: seq<ResultItem>, rs: seq<ResultItem>, k: nat, stopOnError: bool, all: seq<ResultItem>)
    requires k < |rs| && done + StopAfter(rs[k..], stopOnError) == all
    ensures stopOnError && rs[k].ItemFailed? ==> done + [rs[k]] == all
    ensures !(stopOnError && rs[k].ItemFailed?) ==> (done + [rs[k]]) + StopAfter(rs[k + 1..], stopOnError) == all
  {
    assert rs[k..][1..] == rs[k + 1..];
    var rest := StopAfter(rs[k + 1..], stopOnError);
    assert (done + [rs[k]]) + rest == done + ([rs[k]] + rest);
  }

  /** After the last index nothing is left to keep. */
  lemma StopAfterEnd(done: seq<ResultItem>, rs: seq<ResultItem>, stopOnError: bool, all: seq<ResultItem>)
    requires done + StopAfter(rs[|rs|..], stopOnError) == all
    ensures done == all
  {
    assert rs[|rs|..] == [];
  }

  /** The loop of `batch_detect_text`: each item's result in order, with the two counters. */
  method ProcessItems(items: seq<BatchItem>, stopOnError: bool, maxTextLength: int,
                      detect: string -> Result<Detection, string>)
    returns (results: seq<ResultItem>, succeeded: nat, failed: nat)
    ensures results == Results(items, maxTextLength, detect, stopOnError)
    ensures succeeded == Successes(results) && failed == Failures(results)
  {
    ghost var answers := Answers(items, maxTextLength, detect);
    ghost var all := StopAfter(answers, stopOnError);
    results := [];
    succeeded := 0;
    failed := 0;
    ghost var stopped := false;
    for index := 0 to |items|
      invariant !stopped
      invariant results + StopAfter(answers[index..], stopOnError) == all
      invariant succeeded == Successes(results) && failed == Failures(results)
    {
      var result := ItemResult(items[index], index, maxTextLength, detect);
      assert result == answers[index];
      StopAfterStep(results, answers, index, stopOnError, all);
      SuccessesSnoc(results, result);
      if result.ItemFailed? {
        failed := failed + 1;
      } else {
        succeeded := succeeded + 1;
      }
      results := results + [result];
      if stopOnError && result.ItemFailed? {
        stopped := true;
        break;
      }
    }
    if !stopped {
      StopAfterEnd(results, answers, stopOnError, all);
    }
  }

  /**
   * `batch_detect_text`: a batch above the maximum is refused before any item is looked at;
   * otherwise the items are processed in order and counted.
   */
  method BatchDetectText(items: seq<BatchItem>, stopOnError: bool, maxBatchItems: int, maxTextLength: int,
                         detect: string -> Result<Detection, string>)
    returns (r: Result<BatchResponse, string>)
    ensures r.Err? <==> |items| > maxBatchItems
    ensures r.Ok? ==> r.value.items == Results(items, maxTextLength, detect, stopOnError)
    ensures r.Ok? ==> r.value.total == |items|
    ensures r.Ok? ==> r.value.succeeded == Successes(r.value.items) && r.value.failed == Failures(r.value.items)
  {
    if |items| > maxBatchItems {
      return Err("Batch exceeds maximum size");
    }
    var results, succeeded, failed := ProcessItems(items, stopOnError, maxTextLength, detect);
    return Ok(BatchResponse(|items|, succeeded, failed, results));
  }
}
