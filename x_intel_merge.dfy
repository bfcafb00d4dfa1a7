// The fixed-point merge of cluster candidates (`_merge_candidate_sets`): each candidate
// of at least 3 ids joins the first kept set it overlaps by half of the smaller one, and
// kept sets are then merged pairwise until no such pair remains.

module XIntelMerge {
  import opened Common
  import opened Collections

  /** `min_size > 0 and overlap / min_size >= 0.5`, on exact integers. */
  predicate Mergeable(a: set<string>, b: set<string>)
  {
    MinInt(|a|, |b|) > 0 && 2 * |a * b| >= MinInt(|a|, |b|)
  }

  lemma MergeableSymmetric(a: set<string>, b: set<string>)
    ensures Mergeable(a, b) == Mergeable(b, a)
  {
    assert a * b == b * a;
  }

  /** Every id in some set of the list. */
  function UnionOf(m: seq<set<string>>): (u: set<string>)
    ensures forall x :: x in u <==> exists k :: 0 <= k < |m| && x in m[k]
  {
    if m == [] then {}
    else
      var init := m[..|m| - 1];
      assert forall k :: 0 <= k < |init| ==> init[k] == m[k];
      UnionOf(init) + m[|m| - 1]
  }

  /** Every set of the list has at least 3 ids. */
  predicate AllLarge(m: seq<set<string>>)
  {
    forall k :: 0 <= k < |m| ==> |m[k]| >= 3
  }

  /** No two sets of the list are mergeable. */
  predicate Settled(m: seq<set<string>>)
  {
    forall i, j :: 0 <= i < j < |m| ==> !Mergeable(m[i], m[j])
  }

  // ---------------------------------------------------------------- first pass

  /** The first kept set from index k on that `current` attaches to. */
  function AttachIndex(merged: seq<set<string>>, current: set<string>, k: nat): (r: Option<nat>)
    requires k <= |merged|
    ensures r.None? ==> forall i :: k <= i < |merged| ==> !Mergeable(merged[i], current)
    ensures r.Some? ==> k <= r.value < |merged| && Mergeable(merged[r.value], current)
    ensures r.Some? ==> forall i :: k <= i < r.value ==> !Mergeable(merged[i], current)
    decreases |merged| - k
  {
    if k == |merged| then None
    else if Mergeable(merged[k], current) then Some(k)
    else AttachIndex(merged, current, k + 1)
  }

  /** `existing.update(current)` on the first set it attaches to, or `merged.append(set(current))`. */
  function Absorb(merged: seq<set<string>>, current: set<string>): (r: seq<set<string>>)
  {
    match AttachIndex(merged, current, 0)
    case Some(i) => merged[i := merged[i] + current]
    case None => merged + [current]
  }

  /** The kept sets after the first pass over the candidates; sets under 3 ids are skipped. */
  function Attach(cs: seq<set<string>>): seq<set<string>>
  {
    if cs == [] then []
    else
      var m := Attach(cs[..|cs| - 1]);
      var c := cs[|cs| - 1];
      if |c| < 3 then m else Absorb(m, c)
  }

  // ---------------------------------------------------------------- fixed point

  /** The first j' >= j for which set i and set j' are mergeable. */
  function PartnerFrom(m: seq<set<string>>, i: nat, j: nat): (r: Option<nat>)
    requires i < |m| && j <= |m|
    ensures r.None? ==> forall k :: j <= k < |m| ==> !Mergeable(m[i], m[k])
    ensures r.Some? ==> j <= r.value < |m| && Mergeable(m[i], m[r.value])
    decreases |m| - j
  {
    if j == |m| then None
    else if Mergeable(m[i], m[j]) then Some(j)
    else PartnerFrom(m, i, j + 1)
  }

  /** The first mergeable pair (i, j), i < j, in the order the nested loops visit them, from row i on. */
  function FirstPair(m: seq<set<string>>, i: nat): (r: Option<(nat, nat)>)
    requires i <= |m|
    ensures r.None? ==> forall a, b :: i <= a < b < |m| ==> !Mergeable(m[a], m[b])
    ensures r.Some? ==> i <= r.value.0 < r.value.1 < |m| && Mergeable(m[r.value.0], m[r.value.1])
    decreases |m| - i
  {
    if i == |m| then None
    else match PartnerFrom(m, i, i + 1)
      case Some(j) => Some((i, j))
      case None => FirstPair(m, i + 1)
  }

  /** `merged[i].update(merged[j]); merged.pop(j)`. */
  function MergePair(m: seq<set<string>>, i: nat, j: nat): (r: seq<set<string>>)
    requires i < j < |m|
    ensures |r| == |m| - 1
  {
    var u := m[i := m[i] + m[j]];
    u[..j] + u[j + 1..]
  }

  /** Merge the first mergeable pair until there is none. */
  function Settle(m: seq<set<string>>): seq<set<string>>
    decreases |m|
  {
    match FirstPair(m, 0)
    case None => m
    case Some(p) => Settle(MergePair(m, p.0, p.1))
  }

  /** `_merge_candidate_sets`. */
  function MergeCandidateSets(cs: seq<set<string>>): seq<set<string>>
  {
    Filter(Settle(Attach(cs)), (s: set<string>) => |s| >= 3)
  }

  // ---------------------------------------------------------------- properties

  lemma {:induction false} AttachLarge(cs: seq<set<string>>)
    ensures AllLarge(Attach(cs))
  {
    if cs != [] {
      AttachLarge(cs[..|cs| - 1]);
      var m := Attach(cs[..|cs| - 1]);
      var c := cs[|cs| - 1];
      if |c| >= 3 && AttachIndex(m, c, 0).Some? {
        var i := AttachIndex(m, c, 0).value;
        UnionCard(m[i], c);
      }
    }
  }

  /** x is in some candidate of at least 3 ids. */
  predicate InLarge(cs: seq<set<string>>, x: string)
  {
    exists k :: 0 <= k < |cs| && |cs[k]| >= 3 && x in cs[k]
  }

  /** The ids of the candidates with at least 3 ids. */
  function LargeUnion(cs: seq<set<string>>): (u: set<string>)
    ensures forall x :: x in u <==> InLarge(cs, x)
  {
    if cs == [] then {}
    else
      var init := cs[..|cs| - 1];
      var c := cs[|cs| - 1];
      var u := LargeUnion(init) + (if |c| >= 3 then c else {});
      assert forall x :: x in u <==> InLarge(cs, x) by {
        forall x ensures x in u <==> InLarge(cs, x) {
          if InLarge(cs, x) {
            var k :| 0 <= k < |cs| && |cs[k]| >= 3 && x in cs[k];
            if k < |init| {
              assert init[k] == cs[k];
            }
          }
          if x in LargeUnion(init) {
            var k :| 0 <= k < |init| && |init[k]| >= 3 && x in init[k];
            assert cs[k] == init[k];
          }
        }
      }
      u
  }

  /** The first pass keeps exactly the ids of the candidates with at least 3 ids. */
  lemma {:induction false} AttachUnion(cs: seq<set<string>>)
    ensures UnionOf(Attach(cs)) == LargeUnion(cs)
  {
    if cs != [] {
      var init := cs[..|cs| - 1];
      AttachUnion(init);
      var c := cs[|cs| - 1];
      if |c| >= 3 {
        AbsorbUnion(Attach(init), c);
      }
    }
  }

  lemma AbsorbUnion(m: seq<set<string>>, c: set<string>)
    ensures UnionOf(Absorb(m, c)) == UnionOf(m) + c
  {
    var r := Absorb(m, c);
    match AttachIndex(m, c, 0)
    case None =>
      assert r[|m|] == c;
      assert forall k :: 0 <= k < |m| ==> r[k] == m[k];
    case Some(i) =>
      forall x ensures x in UnionOf(r) <==> x in UnionOf(m) + c {
        if x in c {
          assert x in r[i];
        }
        if x in UnionOf(m) {
          var k :| 0 <= k < |m| && x in m[k];
          assert x in r[k];
        }
      }
  }

  lemma MergePairAt(m: seq<set<string>>, i: nat, j: nat, k: nat)
    requires i < j < |m| && k < |m| - 1
    ensures MergePair(m, i, j)[k] == if k == i then m[i] + m[j] else if k < j then m[k] else m[k + 1]
  {
  }

  lemma MergePairUnion(m: seq<set<string>>, i: nat, j: nat)
    requires i < j < |m|
    ensures UnionOf(MergePair(m, i, j)) == UnionOf(m)
    ensures AllLarge(m) ==> AllLarge(MergePair(m, i, j))
  {
    MergePairCovers(m, i, j);
    MergePairWithin(m, i, j);
    if AllLarge(m) {
      MergePairLarge(m, i, j);
    }
  }

  /** Every id of the list is still in the merged list. */
  lemma MergePairCovers(m: seq<set<string>>, i: nat, j: nat)
    requires i < j < |m|
    ensures UnionOf(m) <= UnionOf(MergePair(m, i, j))
  {
    var r := MergePair(m, i, j);
    forall x | x in UnionOf(m) ensures x in UnionOf(r) {
      var k :| 0 <= k < |m| && x in m[k];
      var at := if k == j then i else if k < j then k else k - 1;
      MergePairAt(m, i, j, at);
      assert x in r[at];
    }
  }

  /** The merged list has no id the list did not have. */
  lemma MergePairWithin(m: seq<set<string>>, i: nat, j: nat)
    requires i < j < |m|
    ensures UnionOf(MergePair(m, i, j)) <= UnionOf(m)
  {
    var r := MergePair(m, i, j);
    forall x | x in UnionOf(r) ensures x in UnionOf(m) {
      var k :| 0 <= k < |r| && x in r[k];
      MergePairAt(m, i, j, k);
      var from := if k == i then (if x in m[i] then i else j) else if k < j then k else k + 1;
      assert x in m[from];
    }
  }

  /** Merging two sets of at least 3 ids keeps every set at 3 ids or more. */
  lemma MergePairLarge(m: seq<set<string>>, i: nat, j: nat)
    requires i < j < |m| && AllLarge(m)
    ensures AllLarge(MergePair(m, i, j))
  {
    var r := MergePair(m, i, j);
    forall k | 0 <= k < |r| ensures |r[k]| >= 3 {
      MergePairAt(m, i, j, k);
      if k == i {
        UnionCard(m[i], m[j]);
      }
    }
  }

  /** The fixed point keeps the ids, keeps every set at 3 ids or more, and leaves no mergeable pair. */
  lemma {:induction false} SettleSpec(m: seq<set<string>>)
    ensures UnionOf(Settle(m)) == UnionOf(m)
    ensures AllLarge(m) ==> AllLarge(Settle(m))
    ensures Settled(Settle(m))
    decreases |m|
  {
    match FirstPair(m, 0)
    case None =>
    case Some(p) =>
      MergePairUnion(m, p.0, p.1);
      SettleSpec(MergePair(m, p.0, p.1));
  }

  /**
   * Every merged set has at least 3 ids, the merged sets hold exactly the ids of the
   * candidates with at least 3 ids, and no two of them overlap by half of the smaller.
   */
  lemma MergeCandidateSetsSpec(cs: seq<set<string>>)
    ensures var r := MergeCandidateSets(cs);
      AllLarge(r) && Settled(r)
      && forall x :: x in UnionOf(r) <==> InLarge(cs, x)
  {
    AttachLarge(cs);
    AttachUnion(cs);
    SettleSpec(Attach(cs));
    var s := Settle(Attach(cs));
    FilterAll(s, (t: set<string>) => |t| >= 3);
  }

  /** On a list that is already settled, the first pass just copies it. */
  lemma {:induction false} AttachOfSettled(m: seq<set<string>>)
    requires AllLarge(m) && Settled(m)
    ensures Attach(m) == m
    decreases |m|
  {
    if m != [] {
      var init := m[..|m| - 1];
      var c := m[|m| - 1];
      assert AllLarge(init) && Settled(init);
      AttachOfSettled(init);
      forall i | 0 <= i < |init| ensures !Mergeable(init[i], c) {
        MergeableSymmetric(init[i], c);
        assert !Mergeable(m[i], m[|m| - 1]);
      }
      assert AttachIndex(init, c, 0).None?;
    }
  }

  /** Merging the merged sets again changes nothing. */
  lemma MergeIdempotent(cs: seq<set<string>>)
    ensures MergeCandidateSets(MergeCandidateSets(cs)) == MergeCandidateSets(cs)
  {
    var r := MergeCandidateSets(cs);
    MergeCandidateSetsSpec(cs);
    AttachOfSettled(r);
    assert FirstPair(r, 0).None?;
    FilterAll(r, (t: set<string>) => |t| >= 3);
  }

  // ---------------------------------------------------------------- the loops

  /** The nested scan from row i: row i's first partner, or else the scan from the next row. */
  lemma FirstPairStep(m: seq<set<string>>, i: nat)
    requires i < |m|
    ensures PartnerFrom(m, i, i + 1).Some? ==> FirstPair(m, i) == Some((i, PartnerFrom(m, i, i + 1).value))
    ensures PartnerFrom(m, i, i + 1).None? ==> FirstPair(m, i) == FirstPair(m, i + 1)
  {
  }

  /** `_merge_candidate_sets` as written: the attach loop, then the `while changed` pair loop. */
  method MergeCandidateSetsInPlace(cs: seq<set<string>>) returns (r: seq<set<string>>)
    ensures r == MergeCandidateSets(cs)
  {
    var merged: seq<set<string>> := [];
    var n := 0;
    while n < |cs|
      invariant 0 <= n <= |cs|
      invariant merged == Attach(cs[..n])
    {
      var current := cs[n];
      assert cs[..n + 1][..n] == cs[..n];
      if |current| >= 3 {
        ghost var m0 := merged;
        var attached := false;
        var k := 0;
        while k < |merged| && !attached
          invariant 0 <= k <= |m0|
          invariant !attached ==> merged == m0 && AttachIndex(m0, current, 0) == AttachIndex(m0, current, k)
          invariant attached ==> merged == Absorb(m0, current)
          decreases |m0| - k, if attached then 0 else 1
        {
          if Mergeable(merged[k], current) {
            merged := merged[k := merged[k] + current];
            attached := true;
          } else {
            k := k + 1;
          }
        }
        if !attached {
          merged := merged + [current];
        }
      }
      n := n + 1;
    }
    assert cs[..|cs|] == cs;
    merged := SettleInPlace(merged);
    r := Filter(merged, (s: set<string>) => |s| >= 3);
  }

  /** The `while changed` loop: merge the first mergeable pair found by the nested scan, until none. */
  method SettleInPlace(start: seq<set<string>>) returns (merged: seq<set<string>>)
    ensures merged == Settle(start)
  {
    merged := start;
    var changed := true;
    while changed
      invariant !changed ==> FirstPair(merged, 0).None?
      invariant Settle(merged) == Settle(start)
      decreases |merged| + (if changed then 1 else 0)
    {
      ghost var m0 := merged;
      merged, changed := ScanPairs(merged);
    }
  }

  /**
   * One pass of the `for i` loop: scan the rows in order and merge the first mergeable
   * pair found, if any.
   */
  method ScanPairs(m0: seq<set<string>>) returns (merged: seq<set<string>>, changed: bool)
    ensures changed == FirstPair(m0, 0).Some?
    ensures changed ==> merged == MergePair(m0, FirstPair(m0, 0).value.0, FirstPair(m0, 0).value.1)
    ensures !changed ==> merged == m0
  {
    merged := m0;
    changed := false;
    ghost var target := FirstPair(m0, 0);
    var i := 0;
    while i < |merged| && !changed
      invariant !changed ==> merged == m0 && i <= |m0| && target == FirstPair(m0, i)
      invariant changed ==> target.Some? && target.value.0 < target.value.1 < |m0|
      invariant changed ==> merged == MergePair(m0, target.value.0, target.value.1)
      decreases |m0| - i, if changed then 0 else 1
    {
      FirstPairStep(m0, i);
      merged, changed := ScanRow(merged, i);
      i := i + 1;
    }
  }

  /** One pass of the `for j` loop for row i: merge row i with the first later row it is mergeable with. */
  method ScanRow(m0: seq<set<string>>, i: nat) returns (merged: seq<set<string>>, changed: bool)
    requires i < |m0|
    ensures changed == PartnerFrom(m0, i, i + 1).Some?
    ensures changed ==> merged == MergePair(m0, i, PartnerFrom(m0, i, i + 1).value)
    ensures !changed ==> merged == m0
  {
    merged := m0;
    changed := false;
    var j := i + 1;
    while j < |merged| && !changed
      invariant !changed ==> merged == m0 && i + 1 <= j <= |m0|
      invariant !changed ==> PartnerFrom(m0, i, i + 1) == PartnerFrom(m0, i, j)
      invariant changed ==> PartnerFrom(m0, i, i + 1).Some?
      invariant changed ==> merged == MergePair(m0, i, PartnerFrom(m0, i, i + 1).value)
      decreases |m0| - j, if changed then 0 else 1
    {
      if Mergeable(merged[i], merged[j]) {
        merged := merged[i := merged[i] + merged[j]];
        merged := merged[..j] + merged[j + 1..];
        changed := true;
      } else {
        j := j + 1;
      }
    }
  }
}
