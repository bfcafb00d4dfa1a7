// Benchmarking a trust report against labelled truth (backend/scripts/benchmark_x_intel.py):
// bot detection over the suspected clusters' top accounts, recommended responses per claim
// topic, and the spike summary of the timeline. Reading and writing the JSON files is left out.

module XIntelBenchmark {
  import opened Common
  import opened Text
  import opened Tables
  import opened Collections
  import opened BenchmarkMetrics

  // ---------------------------------------------------------------------------------------
  // Labels keyed by lowercased handle or topic
  // ---------------------------------------------------------------------------------------

  /** `{item[key].lower(): item[value] for item in items}`: a later item overrides an earlier one. */
  function Keyed<V>(pairs: seq<(string, V)>): (m: map<string, V>)
  {
    if pairs == [] then map[]
    else Keyed(pairs[..|pairs| - 1])[Lower(pairs[|pairs| - 1].0) := pairs[|pairs| - 1].1]
  }

  /** The keys of `Keyed(pairs)` in the dictionary's order: first insertion first. */
  function KeyOrder<V>(pairs: seq<(string, V)>): (ks: seq<string>)
    ensures Distinct(ks)
    ensures forall k :: k in ks <==> k in Keyed(pairs)
  {
    if pairs == [] then []
    else
      var ks := KeyOrder(pairs[..|pairs| - 1]);
      var k := Lower(pairs[|pairs| - 1].0);
      if k in ks then ks else ks + [k]
  }

  /** A key is present exactly when some item has it, lowercased. */
  lemma {:induction false} KeyedHas<V>(pairs: seq<(string, V)>, k: string)
    ensures k in Keyed(pairs) <==> exists i :: 0 <= i < |pairs| && Lower(pairs[i].0) == k
  {
    if pairs != [] {
      var init := pairs[..|pairs| - 1];
      KeyedHas(init, k);
      if k in Keyed(init) {
        var i :| 0 <= i < |init| && Lower(init[i].0) == k;
        assert pairs[i] == init[i];
      }
      if exists i :: 0 <= i < |pairs| && Lower(pairs[i].0) == k {
        var i :| 0 <= i < |pairs| && Lower(pairs[i].0) == k;
        if i < |init| {
          assert init[i] == pairs[i];
        }
      }
    }
  }

  /** A list without repeats has as many elements as positions. */
  lemma {:induction false} DistinctCard(ks: seq<string>)
    requires Distinct(ks)
    ensures |set k | k in ks| == |ks|
  {
    if ks != [] {
      var init := ks[..|ks| - 1];
      assert Distinct(init);
      DistinctCard(init);
      assert ks == init + [ks[|ks| - 1]];
      assert ks[|ks| - 1] !in init;
      assert (set k | k in ks) == (set k | k in init) + {ks[|ks| - 1]};
    }
  }

  /** The dictionary has one entry per distinct lowercased key, and KeyOrder lists each once. */
  lemma KeyedSize<V>(pairs: seq<(string, V)>)
    ensures |Keyed(pairs)| == |KeyOrder(pairs)|
  {
    var ks := KeyOrder(pairs);
    DistinctCard(ks);
    assert Keyed(pairs).Keys == set k | k in ks;
  }

  // ---------------------------------------------------------------------------------------
  // `_bot_metrics`
  // ---------------------------------------------------------------------------------------

  /** A cluster's top account: its handle and bot probability (0.0 when absent). */
  datatype TopAccount = TopAccount(handle: string, botProbability: real)

  /** The top accounts of all clusters, cluster by cluster. */
  function Flatten(clusters: seq<seq<TopAccount>>): (accounts: seq<TopAccount>)
  {
    if clusters == [] then [] else Flatten(clusters[..|clusters| - 1]) + clusters[|clusters| - 1]
  }

  /** One account folded into the predictions: a blank lowercased handle is skipped. */
  function Predict1(p: map<string, bool>, a: TopAccount, threshold: real): map<string, bool>
  {
    var h := Lower(a.handle);
    if h == "" then p else p[h := (h in p && p[h]) || a.botProbability >= threshold]
  }

  /** The `predictions` dictionary after the loops. */
  function Predictions(accounts: seq<TopAccount>, threshold: real): map<string, bool>
  {
    if accounts == [] then map[]
    else Predict1(Predictions(accounts[..|accounts| - 1], threshold), accounts[|accounts| - 1], threshold)
  }

  /** `predictions.get(handle, False)` */
  predicate Flagged(p: map<string, bool>, h: string)
  {
    h in p && p[h]
  }

  /**
   * A handle is predicted a bot exactly when some top account with that handle, lowercased,
   * has a bot probability at or above the threshold; a blank handle never is.
   */
  lemma {:induction false} PredictionsMeaning(accounts: seq<TopAccount>, threshold: real, h: string)
    ensures Flagged(Predictions(accounts, threshold), h) <==>
      h != "" && exists i :: 0 <= i < |accounts| && Lower(accounts[i].handle) == h && accounts[i].botProbability >= threshold
  {
    if accounts != [] {
      var init := accounts[..|accounts| - 1];
      PredictionsMeaning(init, threshold, h);
      SomeFlaggedSnoc(accounts, threshold, h);
    }
  }

  /** Some account with handle h, lowercased, reaches the threshold. */
  ghost predicate SomeFlagged(accounts: seq<TopAccount>, threshold: real, h: string)
  {
    exists i :: 0 <= i < |accounts| && Lower(accounts[i].handle) == h && accounts[i].botProbability >= threshold
  }

  /** Such an account is among the earlier ones or is the last one. */
  lemma SomeFlaggedSnoc(accounts: seq<TopAccount>, threshold: real, h: string)
    requires accounts != []
    ensures var init, last := accounts[..|accounts| - 1], accounts[|accounts| - 1];
      SomeFlagged(accounts, threshold, h) <==>
        SomeFlagged(init, threshold, h) || (Lower(last.handle) == h && last.botProbability >= threshold)
  {
    var init := accounts[..|accounts| - 1];
    if SomeFlagged(init, threshold, h) {
      var i :| 0 <= i < |init| && Lower(init[i].handle) == h && init[i].botProbability >= threshold;
      assert accounts[i] == init[i];
    }
    if SomeFlagged(accounts, threshold, h) {
      var i :| 0 <= i < |accounts| && Lower(accounts[i].handle) == h && accounts[i].botProbability >= threshold;
      if i < |init| {
        assert init[i] == accounts[i];
      }
    }
  }

  lemma PredictionsSnoc(accounts: seq<TopAccount>, a: TopAccount, threshold: real)
    ensures Predictions(accounts + [a], threshold) == Predict1(Predictions(accounts, threshold), a, threshold)
  {
    assert (accounts + [a])[..|accounts|] == accounts;
  }

  /** One more account of the current cluster folds into the predictions. */
  lemma PredictionsStep(done: seq<TopAccount>, cluster: seq<TopAccount>, a: nat, threshold: real)
    requires a < |cluster|
    ensures Predictions(done + cluster[..a + 1], threshold) ==
      Predict1(Predictions(done + cluster[..a], threshold), cluster[a], threshold)
  {
    assert done + cluster[..a + 1] == (done + cluster[..a]) + [cluster[a]];
    PredictionsSnoc(done + cluster[..a], cluster[a], threshold);
  }

  lemma FlattenSnoc(clusters: seq<seq<TopAccount>>, i: nat)
    requires i < |clusters|
    ensures Flatten(clusters[..i + 1]) == Flatten(clusters[..i]) + clusters[i]
  {
    assert clusters[..i + 1][..i] == clusters[..i];
  }

  /** The whole of a cluster and none of it, as prefixes. */
  lemma WholeAndNone<T>(done: seq<T>, cluster: seq<T>)
    ensures done + cluster[..0] == done
    ensures done + cluster[..|cluster|] == done + cluster
  {
    assert cluster[..0] == [];
    assert cluster[..|cluster|] == cluster;
  }

  /** The nested loops that fill `predictions`. */
  method BuildPredictions(clusters: seq<seq<TopAccount>>, threshold: real) returns (p: map<string, bool>)
    ensures p == Predictions(Flatten(clusters), threshold)
  {
    p := map[];
    for c := 0 to |clusters|
      invariant p == Predictions(Flatten(clusters[..c]), threshold)
    {
      FlattenSnoc(clusters, c);
      var done := Flatten(clusters[..c]);
      var cluster := clusters[c];
      WholeAndNone(done, cluster);
      for a := 0 to |cluster|
        invariant p == Predictions(done + cluster[..a], threshold)
      {
        PredictionsStep(done, cluster, a, threshold);
        var handle := Lower(cluster[a].handle);
        if handle == "" {
          continue;
        }
        p := p[handle := (handle in p && p[handle]) || cluster[a].botProbability >= threshold];
      }
    }
    assert clusters[..|clusters|] == clusters;
  }

  /** The if/elif chain on (prediction, is_bot). */
  function BotOutcome(pred: bool, isBot: bool): (o: Outcome)
    ensures o == TruePositive <==> pred && isBot
    ensures o == FalsePositive <==> pred && !isBot
    ensures o == FalseNegative <==> !pred && isBot
    ensures o == TrueNegative <==> !pred && !isBot
  {
    if pred && isBot then TruePositive
    else if pred && !isBot then FalsePositive
    else if !pred && isBot then FalseNegative
    else TrueNegative
  }

  /** The counters after the loop over the truth's handles. */
  function TallyHandles(keys: seq<string>, truth: map<string, bool>, p: map<string, bool>): (c: Confusion)
    requires forall k :: k in keys ==> k in truth
    ensures c.tp + c.fp + c.fn + c.tn == |keys|
  {
    if keys == [] then Confusion(0, 0, 0, 0)
    else
      var k := keys[|keys| - 1];
      TallyHandles(keys[..|keys| - 1], truth, p).Add(BotOutcome(Flagged(p, k), truth[k]))
  }

  /**
   * The counters against independent counts: true positives plus false negatives are the
   * labelled bots, and true plus false positives the labelled handles predicted bot.
   */
  lemma {:induction false} TallyHandlesCounts(keys: seq<string>, truth: map<string, bool>, p: map<string, bool>)
    requires forall k :: k in keys ==> k in truth
    ensures TallyHandles(keys, truth, p).tp + TallyHandles(keys, truth, p).fn
         == CountIf(keys, k => k in truth && truth[k])
    ensures TallyHandles(keys, truth, p).tp + TallyHandles(keys, truth, p).fp == CountIf(keys, k => Flagged(p, k))
  {
    if keys != [] {
      TallyHandlesCounts(keys[..|keys| - 1], truth, p);
    }
  }

  datatype BotMetrics =
    | NoBotLabels
    | BotScores(evaluatedAccounts: nat, metrics: BinaryMetrics)

  /** `_bot_metrics` on the top accounts and the (handle, is_bot) labels. */
  function BotMetricsOf(clusters: seq<seq<TopAccount>>, labels: seq<(string, bool)>, threshold: real): (r: BotMetrics)
    ensures r.NoBotLabels? <==> labels == []
    ensures r.BotScores? ==> r.evaluatedAccounts == |Keyed(labels)| == r.metrics.tp + r.metrics.fp + r.metrics.fn + r.metrics.tn
    ensures r.BotScores? ==> r.metrics.threshold == threshold
    ensures r.BotScores? ==> 0.0 <= r.metrics.precision <= 1.0 && 0.0 <= r.metrics.recall <= 1.0 && 0.0 <= r.metrics.f1 <= 1.0
  {
    var truth := Keyed(labels);
    var keys := KeyOrder(labels);
    KeyedSize(labels);
    if labels == [] then NoBotLabels
    else
      assert Lower(labels[0].0) in truth by { KeyedHas(labels, Lower(labels[0].0)); }
      var c := TallyHandles(keys, truth, Predictions(Flatten(clusters), threshold));
      BotScores(|keys|, FromCounts(c, |keys|, threshold))
  }

  /** The bots and the predicted bots among the labelled handles, as the counters report them. */
  lemma BotMetricsCounts(clusters: seq<seq<TopAccount>>, labels: seq<(string, bool)>, threshold: real)
    requires labels != []
    ensures var r := BotMetricsOf(clusters, labels, threshold); var truth := Keyed(labels);
      r.metrics.tp + r.metrics.fn == CountIf(KeyOrder(labels), k => k in truth && truth[k]) &&
      r.metrics.tp + r.metrics.fp == CountIf(KeyOrder(labels), k => Flagged(Predictions(Flatten(clusters), threshold), k))
  {
    TallyHandlesCounts(KeyOrder(labels), Keyed(labels), Predictions(Flatten(clusters), threshold));
  }

  /** The counting loop over `truth.items()`. */
  method CountHandles(keys: seq<string>, truth: map<string, bool>, predictions: map<string, bool>) returns (c: Confusion)
    requires forall k :: k in keys ==> k in truth
    ensures c == TallyHandles(keys, truth, predictions)
  {
    var tp, fp, fn, tn := 0, 0, 0, 0;
    for i := 0 to |keys|
      invariant Confusion(tp, fp, fn, tn) == TallyHandles(keys[..i], truth, predictions)
    {
      var handle := keys[i];
      var isBot := truth[handle];
      var pred := handle in predictions && predictions[handle];
      assert keys[..i + 1][..i] == keys[..i];
      if pred && isBot {
        tp := tp + 1;
      } else if pred && !isBot {
        fp := fp + 1;
      } else if !pred && isBot {
        fn := fn + 1;
      } else {
        tn := tn + 1;
      }
    }
    assert keys[..|keys|] == keys;
    c := Confusion(tp, fp, fn, tn);
  }

  /** `_bot_metrics` */
  method ComputeBotMetrics(clusters: seq<seq<TopAccount>>, labels: seq<(string, bool)>, threshold: real)
    returns (r: BotMetrics)
    ensures r == BotMetricsOf(clusters, labels, threshold)
  {
    var predictions := BuildPredictions(clusters, threshold);
    var truth := Keyed(labels);
    var keys := KeyOrder(labels);
    KeyedSize(labels);
    if |truth| == 0 {
      return NoBotLabels;
    }
    var c := CountHandles(keys, truth, predictions);
    r := BotScores(|truth|, FromCounts(c, |truth|, threshold));
  }

  // ---------------------------------------------------------------------------------------
  // `_claim_metrics`
  // ---------------------------------------------------------------------------------------

  /** `observed.get(topic) == expected_response` */
  predicate Matches(observed: map<string, string>, expected: map<string, string>, topic: string)
  {
    topic in observed && topic in expected && observed[topic] == expected[topic]
  }

  datatype ClaimMetrics =
    | NoClaimLabels
    | ClaimScores(evaluatedTopics: nat, correct: nat, accuracy: real)

  /** The labelled topics whose expected response the report gives. */
  function Correct(claims: seq<(string, string)>, labels: seq<(string, string)>): (n: nat)
    ensures n <= |KeyOrder(labels)|
  {
    CountIf(KeyOrder(labels), t => Matches(Keyed(claims), Keyed(labels), t))
  }

  /** `round(_safe_div(correct, total), 4)` for a positive total. */
  function Accuracy(correct: nat, total: nat): (a: real)
    requires 0 < total && correct <= total
    ensures 0.0 <= a <= 1.0
    ensures correct == total ==> a == 1.0
    ensures correct == 0 ==> a == 0.0
  {
    RatioFacts(correct, total);
    RoundUnit(correct as real / total as real, Digits4);
    RoundOfInt(1, Digits4);
    RoundOfInt(0, Digits4);
    Round(SafeDiv(correct as real, total as real), Digits4)
  }

  /** `_claim_metrics` on the report's (topic, response) claims and the labelled ones. */
  function ClaimMetricsOf(claims: seq<(string, string)>, labels: seq<(string, string)>): (r: ClaimMetrics)
    ensures r.NoClaimLabels? <==> labels == []
    ensures r.ClaimScores? ==> r.evaluatedTopics == |Keyed(labels)| > 0 && r.correct <= r.evaluatedTopics
    ensures r.ClaimScores? ==> r.correct == Correct(claims, labels)
    ensures r.ClaimScores? ==> r.accuracy == Accuracy(r.correct, r.evaluatedTopics)
  {
    var keys := KeyOrder(labels);
    KeyedSize(labels);
    if labels == [] then NoClaimLabels
    else
      assert Lower(labels[0].0) in keys by { KeyedHas(labels, Lower(labels[0].0)); }
      ClaimScores(|keys|, Correct(claims, labels), Accuracy(Correct(claims, labels), |keys|))
  }

  /** A report whose claims are exactly the labels gets every topic right. */
  lemma {:induction false} LabelsAgreeWithThemselves(labels: seq<(string, string)>)
    requires labels != []
    ensures ClaimMetricsOf(labels, labels).accuracy == 1.0
  {
    var keys := KeyOrder(labels);
    var m := Keyed(labels);
    CountIfAll(keys, t => Matches(m, m, t));
  }

  lemma {:induction false} CountIfAll<T>(s: seq<T>, p: T -> bool)
    requires forall x :: x in s ==> p(x)
    ensures CountIf(s, p) == |s|
  {
    if s != [] {
      CountIfAll(s[..|s| - 1], p);
    }
  }

  /** `_claim_metrics` */
  method ComputeClaimMetrics(claims: seq<(string, string)>, labels: seq<(string, string)>) returns (r: ClaimMetrics)
    ensures r == ClaimMetricsOf(claims, labels)
  {
    var expected := Keyed(labels);
    var keys := KeyOrder(labels);
    KeyedSize(labels);
    if |expected| == 0 {
      return NoClaimLabels;
    }
    var observed := Keyed(claims);
    var correct := 0;
    for i := 0 to |keys|
      invariant correct == CountIf(keys[..i], t => Matches(observed, expected, t))
    {
      CountIfSnoc(keys, i, t => Matches(observed, expected, t));
      var topic := keys[i];
      if topic in observed && observed[topic] == expected[topic] {
        correct := correct + 1;
      }
    }
    assert keys[..|keys|] == keys;
    r := ClaimScores(|expected|, correct, Accuracy(correct, |expected|));
  }

  // ---------------------------------------------------------------------------------------
  // The report summary's spike figures
  // ---------------------------------------------------------------------------------------

  /** `sum(1 for item in timeline if item.get("spikes"))`, each day given by its number of spikes. */
  function SpikeDays(spikes: seq<nat>): (n: nat)
    ensures n <= |spikes|
  {
    CountIf(spikes, k => k > 0)
  }

  /** `max((len(item["spikes"]) for item in timeline), default=0)` */
  function TopSpike(spikes: seq<nat>): (top: nat)
    ensures forall i :: 0 <= i < |spikes| ==> spikes[i] <= top
    ensures top == 0 || exists i :: 0 <= i < |spikes| && spikes[i] == top
  {
    if spikes == [] then 0
    else
      var rest := TopSpike(spikes[..|spikes| - 1]);
      var last := spikes[|spikes| - 1];
      if last > rest then last else rest
  }

  /** Some day has spikes exactly when the largest spike list is non-empty. */
  lemma {:induction false} SpikeFiguresAgree(spikes: seq<nat>)
    ensures SpikeDays(spikes) == 0 <==> TopSpike(spikes) == 0
  {
    if spikes != [] {
      var init := spikes[..|spikes| - 1];
      SpikeFiguresAgree(init);
    }
  }

  datatype ReportSummary = ReportSummary(riskLevel: string, confidenceOverall: string, timelineDays: nat,
                                         suspectedClusters: nat, narrativeTopics: nat, spikeDays: nat,
                                         topSpikeMarkers: nat)

  /** The `report_summary` block; a missing risk level or overall confidence reads "low". */
  function Summary(riskLevel: Option<string>, confidence: Option<string>, spikes: seq<nat>,
                   clusters: seq<seq<TopAccount>>, claims: seq<(string, string)>): (s: ReportSummary)
    ensures s.riskLevel == (if riskLevel.Some? then riskLevel.value else "low")
    ensures s.confidenceOverall == (if confidence.Some? then confidence.value else "low")
    ensures s.timelineDays == |spikes| && s.suspectedClusters == |clusters| && s.narrativeTopics == |claims|
    ensures s.spikeDays <= s.timelineDays
    ensures s.spikeDays == 0 <==> s.topSpikeMarkers == 0
  {
    SpikeFiguresAgree(spikes);
    ReportSummary(if riskLevel.Some? then riskLevel.value else "low",
                  if confidence.Some? then confidence.value else "low",
                  |spikes|, |clusters|, |claims|, SpikeDays(spikes), TopSpike(spikes))
  }
}
