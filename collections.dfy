// Sequence helpers standing for Python's list comprehensions, `sorted(key=...)`
// (a stable insertion sort), de-duplication in first-occurrence order and
// `collections.Counter` counting.

module Collections {
  import opened Common

  /** `[x for x in s if p(x)]` */
  function Filter<T(!new)>(s: seq<T>, p: T -> bool): (r: seq<T>)
    ensures |r| <= |s|
    ensures forall x :: x in r <==> x in s && p(x)
    ensures forall i :: 0 <= i < |r| ==> p(r[i])
  {
    if s == [] then []
    else if p(s[0]) then [s[0]] + Filter(s[1..], p)
    else Filter(s[1..], p)
  }

  lemma {:induction false} FilterAppend<T(!new)>(s: seq<T>, x: T, p: T -> bool)
    ensures Filter(s + [x], p) == Filter(s, p) + (if p(x) then [x] else [])
  {
    if s == [] {
      assert [x][1..] == [];
    } else {
      assert (s + [x])[1..] == s[1..] + [x];
      FilterAppend(s[1..], x, p);
    }
  }

  /** An element the predicate accepts is kept. */
  lemma {:induction false} FilterKeeps<T(!new)>(s: seq<T>, p: T -> bool, i: nat)
    requires i < |s| && p(s[i])
    ensures s[i] in Filter(s, p)
  {
    if i > 0 {
      FilterKeeps(s[1..], p, i - 1);
    }
  }

  lemma {:induction false} FilterAll<T(!new)>(s: seq<T>, p: T -> bool)
    requires forall i :: 0 <= i < |s| ==> p(s[i])
    ensures Filter(s, p) == s
  {
    if s != [] {
      FilterAll(s[1..], p);
    }
  }

  /** Nothing is kept exactly when the predicate refuses every element. */
  lemma {:induction false} FilterEmpty<T(!new)>(s: seq<T>, p: T -> bool)
    ensures Filter(s, p) == [] <==> forall i :: 0 <= i < |s| ==> !p(s[i])
  {
    if s != [] {
      FilterEmpty(s[1..], p);
      assert forall i :: 1 <= i < |s| ==> s[i] == s[1..][i - 1];
    }
  }

  /** Every element comes `before` each one after it. */
  predicate Chain<T>(s: seq<T>, before: (T, T) -> bool)
  {
    forall i, j :: 0 <= i < j < |s| ==> before(s[i], s[j])
  }

  /** Filtering keeps a relation that holds between every element and each later one. */
  lemma {:induction false} FilterChain<T(!new)>(s: seq<T>, p: T -> bool, before: (T, T) -> bool)
    requires Chain(s, before)
    ensures Chain(Filter(s, p), before)
  {
    if s != [] {
      var tail := s[1..];
      assert forall a :: 0 <= a < |tail| ==> tail[a] == s[a + 1];
      FilterChain(tail, p, before);
      if p(s[0]) {
        var f := Filter(tail, p);
        var r := [s[0]] + f;
        forall i, j | 0 <= i < j < |r| ensures before(r[i], r[j]) {
          assert r[j] == f[j - 1] && r[j] in f;
          if i == 0 {
            var k :| 0 <= k < |tail| && tail[k] == r[j];
          } else {
            assert r[i] == f[i - 1];
          }
        }
      }
    }
  }

  /** The first |ys| elements of xs mapped by f, one for one. */
  predicate Pointwise<T, U(==)>(ys: seq<U>, xs: seq<T>, f: T -> U)
  {
    |ys| <= |xs| && forall j :: 0 <= j < |ys| ==> ys[j] == f(xs[j])
  }

  /** Mapping the next element extends a pointwise prefix by one. */
  lemma PointwiseSnoc<T, U>(ys: seq<U>, xs: seq<T>, f: T -> U)
    requires Pointwise(ys, xs, f) && |ys| < |xs|
    ensures Pointwise(ys + [f(xs[|ys|])], xs, f) && (ys + [f(xs[|ys|])])[..|ys|] == ys
  {
    var next := ys + [f(xs[|ys|])];
    forall j | 0 <= j < |next| ensures next[j] == f(xs[j]) {
      if j < |ys| {
        assert next[j] == ys[j];
      }
    }
    assert next[..|ys|] == ys;
  }

  /** Filtering by p and then by q keeps what filtering once by "p and q" keeps. */
  lemma {:induction false} FilterFilter<T(!new)>(s: seq<T>, p: T -> bool, q: T -> bool, both: T -> bool)
    requires forall x :: both(x) == (p(x) && q(x))
    ensures Filter(Filter(s, p), q) == Filter(s, both)
  {
    if s != [] {
      FilterFilter(s[1..], p, q, both);
    }
  }

  /** Number of occurrences of x in s. */
  function Occurrences<T(==)>(s: seq<T>, x: T): (n: nat)
    ensures n == multiset(s)[x]
  {
    if s == [] then 0
    else
      assert s == [s[0]] + s[1..];
      (if s[0] == x then 1 else 0) + Occurrences(s[1..], x)
  }

  predicate Distinct<T(==)>(s: seq<T>)
  {
    forall i, j :: 0 <= i < j < |s| ==> s[i] != s[j]
  }

  /** A list without repeats holds each value at most once. */
  lemma {:induction false} DistinctAtMostOnce<T>(d: seq<T>, x: T)
    requires Distinct(d)
    ensures multiset(d)[x] <= 1
  {
    if d != [] {
      assert d == [d[0]] + d[1..];
      assert Distinct(d[1..]) by {
        forall i, j | 0 <= i < j < |d[1..]| ensures d[1..][i] != d[1..][j] {
          assert d[1..][i] == d[i + 1] && d[1..][j] == d[j + 1];
        }
      }
      DistinctAtMostOnce(d[1..], x);
      if d[0] == x {
        assert x !in d[1..] by {
          forall k | 0 <= k < |d[1..]| ensures d[1..][k] != x { assert d[1..][k] == d[k + 1]; }
        }
      }
    }
  }

  /** A value at two positions occurs at least twice. */
  lemma TwiceAtLeastTwo<T>(s: seq<T>, i: int, j: int)
    requires 0 <= i < j < |s| && s[i] == s[j]
    ensures multiset(s)[s[i]] >= 2
  {
    assert s == s[..j] + s[j..];
    assert s[i] == s[..j][i];
    assert s[j] == s[j..][0];
    assert multiset(s) == multiset(s[..j]) + multiset(s[j..]);
  }

  /** Reordering a list without repeats gives a list without repeats. */
  lemma DistinctPermutation<T>(d: seq<T>, s: seq<T>)
    requires Distinct(d) && multiset(s) == multiset(d)
    ensures Distinct(s)
  {
    forall i, j | 0 <= i < j < |s| ensures s[i] != s[j] {
      if s[i] == s[j] {
        TwiceAtLeastTwo(s, i, j);
        DistinctAtMostOnce(d, s[i]);
      }
    }
  }

  /** Reordering a list whose images are distinct gives a list whose images are distinct. */
  lemma PermutedImageDistinct<T, U>(d: seq<T>, s: seq<T>, f: T -> U)
    requires multiset(s) == multiset(d)
    requires forall i, j :: 0 <= i < j < |d| ==> f(d[i]) != f(d[j])
    ensures forall i, j :: 0 <= i < j < |s| ==> f(s[i]) != f(s[j])
  {
    assert Distinct(d);
    DistinctPermutation(d, s);
    forall i, j | 0 <= i < j < |s| ensures f(s[i]) != f(s[j]) {
      assert s[i] in multiset(d) && s[j] in multiset(d);
      var a :| 0 <= a < |d| && d[a] == s[i];
      var b :| 0 <= b < |d| && d[b] == s[j];
      assert a != b;
    }
  }

  /** A union is at least as large as either side. */
  lemma UnionCard<T>(a: set<T>, b: set<T>)
    ensures |a + b| >= |a| && |a + b| >= |b|
  {
    assert a + b == a + (b - a);
    assert a * (b - a) == {};
    assert a + b == b + (a - b);
    assert b * (a - b) == {};
  }

  /** A subset is no larger than its superset. */
  lemma SubsetCard<T>(a: set<T>, b: set<T>)
    requires a <= b
    ensures |a| <= |b|
  {
    assert b == a + (b - a);
    assert a * (b - a) == {};
  }

  /** A sequence has at most as many distinct elements as positions, and at least one if non-empty. */
  lemma {:induction false} ElementsCard<T>(s: seq<T>)
    ensures |set x | x in s| <= |s|
    ensures s != [] ==> |set x | x in s| >= 1
  {
    if s != [] {
      var init := s[..|s| - 1];
      ElementsCard(init);
      assert (set x | x in s) == (set x | x in init) + {s[|s| - 1]} by {
        assert s == init + [s[|s| - 1]];
      }
      UnionCard(set x | x in init, {s[|s| - 1]});
    }
  }

  /** The image of a list under f has at most as many elements as the list, and at least one if it is non-empty. */
  lemma {:induction false} ImageCard<T, U>(s: seq<T>, f: T -> U)
    ensures |set x | x in s :: f(x)| <= |s|
    ensures s != [] ==> |set x | x in s :: f(x)| >= 1
  {
    if s != [] {
      var init := s[..|s| - 1];
      ImageCard(init, f);
      assert s == init + [s[|s| - 1]];
      assert (set x | x in s :: f(x)) == (set x | x in init :: f(x)) + {f(s[|s| - 1])};
    }
  }

  /** The distinct elements of s in order of their first occurrence (dict-key order). */
  function Dedup<T(==,!new)>(s: seq<T>): (d: seq<T>)
    ensures Distinct(d)
    ensures forall x :: x in d <==> x in s
    ensures |d| <= |s|
  {
    if s == [] then []
    else
      var d := Dedup(s[..|s| - 1]);
      var x := s[|s| - 1];
      assert forall y :: y in s <==> y in s[..|s| - 1] || y == x by {
        assert s == s[..|s| - 1] + [x];
      }
      if x in d then d else d + [x]
  }

  lemma DedupDistinct<T(!new)>(s: seq<T>)
    requires Distinct(s)
    ensures Dedup(s) == s
  {
    if s != [] {
      var init := s[..|s| - 1];
      DedupDistinct(init);
      assert s[|s| - 1] !in init;
      assert s == init + [s[|s| - 1]];
    }
  }

  /** `le` relates every two elements one way or the other. */
  ghost predicate Total<T(!new)>(le: (T, T) -> bool)
  {
    forall a, b :: le(a, b) || le(b, a)
  }

  ghost predicate Transitive<T(!new)>(le: (T, T) -> bool)
  {
    forall a, b, c :: le(a, b) && le(b, c) ==> le(a, c)
  }

  /** Each element is related by `le` to the next one. */
  predicate SortedBy<T>(s: seq<T>, le: (T, T) -> bool)
  {
    forall i :: 0 <= i < |s| - 1 ==> le(s[i], s[i + 1])
  }

  /** Insert x in front of the first element it precedes-or-equals (stable for the head). */
  function Insert<T>(x: T, s: seq<T>, le: (T, T) -> bool): (r: seq<T>)
    ensures multiset(r) == multiset(s) + multiset{x}
    ensures |r| == |s| + 1
    ensures r != [] && (r[0] == x || (s != [] && r[0] == s[0]))
  {
    if s == [] then [x]
    else if le(x, s[0]) then [x] + s
    else
      assert s == [s[0]] + s[1..];
      [s[0]] + Insert(x, s[1..], le)
  }

  lemma {:induction false} InsertSorted<T(!new)>(x: T, s: seq<T>, le: (T, T) -> bool)
    requires Total(le)
    requires SortedBy(s, le)
    ensures SortedBy(Insert(x, s, le), le)
  {
    if s != [] && !le(x, s[0]) {
      InsertSorted(x, s[1..], le);
      assert le(s[0], x);
    }
  }

  /** Python's stable `sorted(s, ...)` where `le(a, b)` means a may come before b. */
  function SortBy<T>(s: seq<T>, le: (T, T) -> bool): (r: seq<T>)
    ensures multiset(r) == multiset(s)
    ensures |r| == |s|
  {
    if s == [] then []
    else
      assert s == [s[0]] + s[1..];
      Insert(s[0], SortBy(s[1..], le), le)
  }

  lemma {:induction false} SortBySorted<T(!new)>(s: seq<T>, le: (T, T) -> bool)
    requires Total(le)
    ensures SortedBy(SortBy(s, le), le)
  {
    if s != [] {
      SortBySorted(s[1..], le);
      InsertSorted(s[0], SortBy(s[1..], le), le);
    }
  }

  /** With a transitive order, adjacent sortedness gives order between any two positions. */
  lemma {:induction false} SortedPairwise<T(!new)>(s: seq<T>, le: (T, T) -> bool, i: int, j: int)
    requires Transitive(le)
    requires SortedBy(s, le)
    requires 0 <= i < j < |s|
    ensures le(s[i], s[j])
    decreases j - i
  {
    if j > i + 1 {
      SortedPairwise(s, le, i + 1, j);
    }
  }

  lemma SortByElements<T>(s: seq<T>, le: (T, T) -> bool)
    ensures forall x :: x in SortBy(s, le) <==> x in s
  {
    var r := SortBy(s, le);
    forall x ensures x in r <==> x in s {
      assert x in r <==> x in multiset(r);
      assert x in s <==> x in multiset(s);
    }
  }

  /** A `collections.Counter` as (key, count) pairs in first-insertion order. */
  function CountAll<T(==,!new)>(s: seq<T>): (c: seq<(T, nat)>)
    ensures |c| == |Dedup(s)|
    ensures forall i :: 0 <= i < |c| ==> c[i].0 == Dedup(s)[i] && c[i].1 == Occurrences(s, c[i].0)
  {
    var d := Dedup(s);
    seq(|d|, i requires 0 <= i < |d| => (d[i], Occurrences(s, d[i])))
  }

  /** Every key of a count was seen at least once. */
  lemma CountAllPositive<T(!new)>(s: seq<T>)
    ensures forall i :: 0 <= i < |CountAll(s)| ==> CountAll(s)[i].1 >= 1
  {
    forall i | 0 <= i < |CountAll(s)| ensures CountAll(s)[i].1 >= 1 {
      assert CountAll(s)[i].0 in Dedup(s);
    }
  }

  /** Every count is 1 exactly when no element occurs twice. */
  lemma CountAllOnes<T(!new)>(s: seq<T>)
    ensures (forall i :: 0 <= i < |CountAll(s)| ==> CountAll(s)[i].1 == 1)
      <==> (forall i :: 0 <= i < |s| ==> Occurrences(s, s[i]) == 1)
  {
    var c := CountAll(s);
    if forall i :: 0 <= i < |c| ==> c[i].1 == 1 {
      forall i | 0 <= i < |s| ensures Occurrences(s, s[i]) == 1 {
        assert s[i] in Dedup(s);
        var k :| 0 <= k < |Dedup(s)| && Dedup(s)[k] == s[i];
        assert c[k].1 == 1;
      }
    }
    if forall i :: 0 <= i < |s| ==> Occurrences(s, s[i]) == 1 {
      forall i | 0 <= i < |c| ensures c[i].1 == 1 {
        assert c[i].0 in Dedup(s);
        var k :| 0 <= k < |s| && s[k] == c[i].0;
      }
    }
  }

  /** `Counter.most_common()`: counts in non-increasing order, ties in insertion order. */
  function MostCommon<T>(c: seq<(T, nat)>): (r: seq<(T, nat)>)
    ensures multiset(r) == multiset(c)
    ensures |r| == |c|
  {
    SortBy(c, (a: (T, nat), b: (T, nat)) => a.1 >= b.1)
  }

  lemma MostCommonOrdered<T(!new)>(c: seq<(T, nat)>)
    ensures forall i, j :: 0 <= i < j < |MostCommon(c)| ==> MostCommon(c)[i].1 >= MostCommon(c)[j].1
  {
    var le := (a: (T, nat), b: (T, nat)) => a.1 >= b.1;
    SortBySorted(c, le);
    forall i, j | 0 <= i < j < |MostCommon(c)| ensures MostCommon(c)[i].1 >= MostCommon(c)[j].1 {
      SortedPairwise(MostCommon(c), le, i, j);
    }
  }

  lemma MostCommonKeys<T>(c: seq<(T, nat)>)
    ensures forall p :: p in MostCommon(c) <==> p in c
  {
    SortByElements(c, (a: (T, nat), b: (T, nat)) => a.1 >= b.1);
  }

  /** The keys of a list of pairs. */
  function Keys<K, V>(c: seq<(K, V)>): (ks: seq<K>)
    ensures |ks| == |c|
    ensures forall i :: 0 <= i < |c| ==> ks[i] == c[i].0
  {
    seq(|c|, i requires 0 <= i < |c| => c[i].0)
  }

  /** `dict` grouping: each distinct key (in first-occurrence order) with the elements having it. */
  function GroupBy<T(!new), K(==,!new)>(s: seq<T>, key: T -> K): (g: seq<(K, seq<T>)>)
    ensures |g| == |Dedup(MapSeq(s, key))|
    ensures forall i :: 0 <= i < |g| ==> g[i].0 == Dedup(MapSeq(s, key))[i]
    ensures forall i :: 0 <= i < |g| ==> g[i].1 == Filter(s, x => key(x) == g[i].0)
  {
    var ks := Dedup(MapSeq(s, key));
    seq(|ks|, i requires 0 <= i < |ks| => (ks[i], Filter(s, x => key(x) == ks[i])))
  }

  /** `[f(x) for x in s]` */
  function MapSeq<T, U>(s: seq<T>, f: T -> U): (r: seq<U>)
    ensures |r| == |s|
    ensures forall i :: 0 <= i < |s| ==> r[i] == f(s[i])
  {
    seq(|s|, i requires 0 <= i < |s| => f(s[i]))
  }

  /** Every group is non-empty, so no key is reported without an element. */
  lemma GroupsNonEmpty<T(!new), K(!new)>(s: seq<T>, key: T -> K)
    ensures forall i :: 0 <= i < |GroupBy(s, key)| ==> |GroupBy(s, key)[i].1| > 0
  {
    var g := GroupBy(s, key);
    var ks := MapSeq(s, key);
    forall i | 0 <= i < |g| ensures |g[i].1| > 0 {
      var k := g[i].0;
      assert k in Dedup(ks);
      assert k in ks;
      var j :| 0 <= j < |ks| && ks[j] == k;
      assert s[j] in Filter(s, x => key(x) == k);
    }
  }

  /** The size of a group is the number of elements carrying its key. */
  lemma {:induction false} FilterKeyCount<T(!new), K(!new)>(s: seq<T>, key: T -> K, k: K)
    ensures |Filter(s, x => key(x) == k)| == Occurrences(MapSeq(s, key), k)
  {
    if s != [] {
      FilterKeyCount(s[1..], key, k);
      assert MapSeq(s, key) == [key(s[0])] + MapSeq(s[1..], key);
    }
  }

  function SumCounts<T>(c: seq<(T, nat)>): nat
  {
    if c == [] then 0 else c[0].1 + SumCounts(c[1..])
  }

  /** The counts of a Counter add up to the number of counted elements. */
  lemma CountAllSum<T(!new)>(s: seq<T>)
    ensures SumCounts(CountAll(s)) == |s|
  {
    var d := Dedup(s);
    forall x | x in multiset(s) ensures x in d {
      assert x in s;
    }
    CoverSum(d, multiset(s));
    CountAllIsCountsOf(s, d);
  }

  function CountsOf<T>(ks: seq<T>, m: multiset<T>): nat
  {
    if ks == [] then 0 else m[ks[0]] + CountsOf(ks[1..], m)
  }

  lemma {:induction false} CountAllIsCountsOf<T(!new)>(s: seq<T>, d: seq<T>)
    requires d == Dedup(s)
    ensures SumCounts(CountAll(s)) == CountsOf(d, multiset(s))
  {
    var c := CountAll(s);
    CountsAgree(c, d, multiset(s));
  }

  lemma {:induction false} CountsAgree<T>(c: seq<(T, nat)>, d: seq<T>, m: multiset<T>)
    requires |c| == |d|
    requires forall i :: 0 <= i < |c| ==> c[i].0 == d[i] && c[i].1 == m[d[i]]
    ensures SumCounts(c) == CountsOf(d, m)
  {
    if c != [] {
      CountsAgree(c[1..], d[1..], m);
    }
  }

  /** Summing the multiplicities of distinct keys that cover a multiset gives its size. */
  lemma {:induction false} CoverSum<T>(ks: seq<T>, m: multiset<T>)
    requires Distinct(ks)
    requires forall x :: x in m ==> x in ks
    ensures CountsOf(ks, m) == |m|
  {
    if ks != [] {
      var k := ks[0];
      var rest := m[k := 0];
      assert m == rest + multiset{}[k := m[k]];
      assert |m| == |rest| + m[k];
      forall x | x in rest ensures x in ks[1..] {
        assert x != k;
        assert x in ks;
      }
      CoverSum(ks[1..], rest);
      CountsOfIgnores(ks[1..], m, rest, k);
    }
  }

  lemma {:induction false} CountsOfIgnores<T>(ks: seq<T>, m: multiset<T>, rest: multiset<T>, k: T)
    requires k !in ks
    requires rest == m[k := 0]
    ensures CountsOf(ks, m) == CountsOf(ks, rest)
  {
    if ks != [] {
      CountsOfIgnores(ks[1..], m, rest, k);
    }
  }

  /** The first kept element is the earliest element satisfying the predicate. */
  lemma {:induction false} FilterFirst<T(!new)>(s: seq<T>, p: T -> bool)
    requires Filter(s, p) != []
    ensures exists i :: (0 <= i < |s| && s[i] == Filter(s, p)[0] && p(s[i])
                         && forall j :: 0 <= j < i ==> !p(s[j]))
  {
    if !p(s[0]) {
      FilterFirst(s[1..], p);
      var i :| (0 <= i < |s[1..]| && s[1..][i] == Filter(s[1..], p)[0] && p(s[1..][i])
                && forall j :: 0 <= j < i ==> !p(s[1..][j]));
      assert s[i + 1] == s[1..][i];
      forall j | 0 <= j < i + 1 ensures !p(s[j]) {
        if j > 0 { assert s[j] == s[1..][j - 1]; }
      }
    }
  }

  /** De-duplicating a prefix gives a prefix of the de-duplicated whole. */
  lemma {:induction false} DedupOfPrefix<T(!new)>(a: seq<T>, b: seq<T>)
    requires a <= b
    ensures Dedup(a) <= Dedup(b)
    decreases |b|
  {
    if |a| < |b| {
      var init := b[..|b| - 1];
      assert a <= init;
      DedupOfPrefix(a, init);
    } else {
      assert a == b;
    }
  }

  /** A reordering of pairs with distinct keys still has distinct keys. */
  lemma PermutedKeysDistinct<K, V>(c: seq<(K, V)>, r: seq<(K, V)>)
    requires forall i, j :: 0 <= i < j < |c| ==> c[i].0 != c[j].0
    requires multiset(r) == multiset(c)
    ensures forall i, j :: 0 <= i < j < |r| ==> r[i].0 != r[j].0
  {
    assert Distinct(c);
    forall i, j | 0 <= i < j < |r| ensures r[i].0 != r[j].0 {
      if r[i].0 == r[j].0 {
        assert r[i] in multiset(c) && r[j] in multiset(c);
        var a :| 0 <= a < |c| && c[a] == r[i];
        var b :| 0 <= b < |c| && c[b] == r[j];
        assert a == b;
        TwiceAtLeastTwo(r, i, j);
        DistinctAtMostOnce(c, r[i]);
      }
    }
  }

  lemma {:induction false} SumCountsPermutation<T>(a: seq<(T, nat)>, b: seq<(T, nat)>)
    requires multiset(a) == multiset(b)
    ensures SumCounts(a) == SumCounts(b)
    decreases |a|
  {
    if a == [] {
      assert |b| == |multiset(b)| == 0;
    } else {
      var x := a[0];
      assert x in multiset(b) by { assert x in multiset(a); }
      var k :| 0 <= k < |b| && b[k] == x;
      var rest := Remove(b, k);
      assert multiset(a[1..]) == multiset(rest) by {
        assert a == [x] + a[1..];
        assert multiset(a[1..]) == multiset(a) - multiset{x};
      }
      SumCountsPermutation(a[1..], rest);
      SumCountsRemove(b, k);
      assert SumCounts(a) == x.1 + SumCounts(a[1..]);
    }
  }

  /** s without its element at position k. */
  function Remove<T>(s: seq<T>, k: nat): (r: seq<T>)
    requires k < |s|
    ensures |r| == |s| - 1
    ensures multiset(r) == multiset(s) - multiset{s[k]}
  {
    assert s == s[..k] + [s[k]] + s[k + 1..];
    s[..k] + s[k + 1..]
  }

  lemma {:induction false} SumCountsRemove<T>(b: seq<(T, nat)>, k: nat)
    requires k < |b|
    ensures SumCounts(b) == b[k].1 + SumCounts(Remove(b, k))
  {
    if k == 0 {
      assert Remove(b, k) == b[1..];
    } else {
      SumCountsRemove(b[1..], k - 1);
      var r := Remove(b[1..], k - 1);
      RemoveCons(b, k);
      assert SumCounts([b[0]] + r) == b[0].1 + SumCounts(r) by {
        assert ([b[0]] + r)[1..] == r;
      }
    }
  }

  /** `[f(k, x) for k, x in enumerate(s, start=1)]` */
  function Enumerate<T, U>(s: seq<T>, f: (int, T) -> U): (r: seq<U>)
    ensures |r| == |s|
  {
    if s == [] then [] else Enumerate(s[..|s| - 1], f) + [f(|s|, s[|s| - 1])]
  }

  lemma {:induction false} EnumerateAt<T, U>(s: seq<T>, f: (int, T) -> U, i: nat)
    requires i < |s|
    ensures Enumerate(s, f)[i] == f(i + 1, s[i])
  {
    var init := s[..|s| - 1];
    if i < |init| {
      EnumerateAt(init, f, i);
      assert init[i] == s[i];
    }
  }

  /** Entries numbered by distinct positions carry distinct tags. */
  lemma EnumerateTagsDistinct<T, U, V>(s: seq<T>, f: (int, T) -> U, id: U -> V, tag: int -> V)
    requires forall a: int, x: T :: id(f(a, x)) == tag(a)
    requires forall a: int, b: int :: a != b ==> tag(a) != tag(b)
    ensures forall i, j :: 0 <= i < j < |s| ==> id(Enumerate(s, f)[i]) != id(Enumerate(s, f)[j])
  {
    forall i, j | 0 <= i < j < |s| ensures id(Enumerate(s, f)[i]) != id(Enumerate(s, f)[j]) {
      EnumerateAt(s, f, i);
      EnumerateAt(s, f, j);
    }
  }

  /** The keys of a list of pairs are pairwise different. */
  predicate DistinctKeys<K(==), V>(c: seq<(K, V)>)
  {
    forall i, j :: 0 <= i < j < |c| ==> c[i].0 != c[j].0
  }

  /** Keeping some of a list of pairs with distinct keys keeps the keys distinct. */
  lemma FilterKeysDistinct<K(!new), V(!new)>(c: seq<(K, V)>, p: ((K, V)) -> bool)
    requires DistinctKeys(c)
    ensures DistinctKeys(Filter(c, p))
  {
    var rel := (a: (K, V), b: (K, V)) => a.0 != b.0;
    assert Chain(c, rel);
    FilterChain(c, p, rel);
    var f := Filter(c, p);
    forall i, j | 0 <= i < j < |f| ensures f[i].0 != f[j].0 {
      assert rel(f[i], f[j]);
    }
  }

  /** Grouping puts each element under its own key, once per key. */
  lemma GroupByKeyed<T(!new), K(!new)>(s: seq<T>, key: T -> K)
    ensures var g := GroupBy(s, key);
      DistinctKeys(g)
      && (forall i :: 0 <= i < |g| ==> g[i].1 != [] && forall x :: x in g[i].1 ==> x in s && key(x) == g[i].0)
  {
    var g := GroupBy(s, key);
    var d := Dedup(MapSeq(s, key));
    GroupsNonEmpty(s, key);
    forall i, j | 0 <= i < j < |g| ensures g[i].0 != g[j].0 {
      assert g[i].0 == d[i] && g[j].0 == d[j];
    }
  }

  /** Grouping misses no element. */
  lemma GroupByCovers<T(!new), K(!new)>(s: seq<T>, key: T -> K, x: T)
    requires x in s
    ensures exists i :: 0 <= i < |GroupBy(s, key)| && GroupBy(s, key)[i].0 == key(x) && x in GroupBy(s, key)[i].1
  {
    var g := GroupBy(s, key);
    var ks := MapSeq(s, key);
    var d := Dedup(ks);
    var k :| 0 <= k < |s| && s[k] == x;
    assert ks[k] == key(x);
    assert key(x) in d;
    var i :| 0 <= i < |d| && d[i] == key(x);
    assert g[i].1 == Filter(s, y => key(y) == g[i].0);
  }

  /** Each key of a count is one of the counted values, with its number of occurrences. */
  lemma CountAllShape<T(!new)>(s: seq<T>)
    ensures var c := CountAll(s);
      DistinctKeys(c)
      && (forall k :: 0 <= k < |c| ==> c[k].0 in s && c[k].1 == Occurrences(s, c[k].0) >= 1)
      && (forall x :: x in s ==> exists k :: 0 <= k < |c| && c[k].0 == x)
  {
    var c := CountAll(s);
    var d := Dedup(s);
    forall i, j | 0 <= i < j < |c| ensures c[i].0 != c[j].0 {
      assert c[i].0 == d[i] && c[j].0 == d[j];
    }
    CountAllPositive(s);
    forall k | 0 <= k < |c| ensures c[k].0 in s {
      assert c[k].0 == d[k];
    }
    forall x | x in s ensures exists k :: 0 <= k < |c| && c[k].0 == x {
      assert x in d;
      var k :| 0 <= k < |d| && d[k] == x;
      assert c[k].0 == x;
    }
  }

  /**
   * A count sorted by a total order: distinct keys in order, each with its number of
   * occurrences, every counted value present, and the counts adding up to |s|.
   */
  lemma SortedCountsShape<T(!new)>(s: seq<T>, le: ((T, nat), (T, nat)) -> bool)
    requires Total(le) && Transitive(le)
    ensures var es := SortBy(CountAll(s), le);
      DistinctKeys(es)
      && (forall i, j :: 0 <= i < j < |es| ==> le(es[i], es[j]))
      && (forall k :: 0 <= k < |es| ==> es[k].0 in s && es[k].1 == Occurrences(s, es[k].0) >= 1)
      && (forall x :: x in s ==> exists k :: 0 <= k < |es| && es[k].0 == x)
      && SumCounts(es) == |s|
  {
    var c := CountAll(s);
    var es := SortBy(c, le);
    CountAllShape(s);
    PermutedKeysDistinct(c, es);
    SortBySorted(c, le);
    forall i, j | 0 <= i < j < |es| ensures le(es[i], es[j]) {
      SortedPairwise(es, le, i, j);
    }
    forall k | 0 <= k < |es| ensures es[k].0 in s && es[k].1 == Occurrences(s, es[k].0) >= 1 {
      assert es[k] in multiset(c);
    }
    forall x | x in s ensures exists k :: 0 <= k < |es| && es[k].0 == x {
      var a :| 0 <= a < |c| && c[a].0 == x;
      assert c[a] in multiset(es);
    }
    CountAllSum(s);
    SumCountsPermutation(c, es);
  }

  /** An ordering of the counts of s: distinct keys, true counts, every value of s present. */
  predicate CountsOfValues<T(==)>(c: seq<(T, nat)>, s: seq<T>)
  {
    DistinctKeys(c)
    && (forall k :: 0 <= k < |c| ==> c[k].0 in s && c[k].1 == Occurrences(s, c[k].0))
    && (forall x :: x in s ==> exists k :: 0 <= k < |c| && c[k].0 == x)
  }

  predicate CountOrdered<T>(c: seq<(T, nat)>)
  {
    forall i, j :: 0 <= i < j < |c| ==> c[i].1 >= c[j].1
  }

  lemma MostCommonShape<T(!new)>(s: seq<T>)
    ensures CountsOfValues(MostCommon(CountAll(s)), s)
    ensures CountOrdered(MostCommon(CountAll(s)))
    ensures |MostCommon(CountAll(s))| == |Dedup(s)|
  {
    var c := CountAll(s);
    var mc := MostCommon(c);
    CountAllShape(s);
    PermutedKeysDistinct(c, mc);
    MostCommonOrdered(c);
    forall k | 0 <= k < |mc| ensures mc[k].0 in s && mc[k].1 == Occurrences(s, mc[k].0) {
      assert mc[k] in multiset(c);
    }
    forall x | x in s ensures exists k :: 0 <= k < |mc| && mc[k].0 == x {
      var a :| 0 <= a < |c| && c[a].0 == x;
      assert c[a] in multiset(mc);
    }
  }

  /**
   * `Counter(s).most_common(limit)` keys: distinct values of s, as many as the limit allows,
   * in non-increasing order of count, and no value left out is more frequent than the
   * last one kept.
   */
  lemma TopKeysShape<T(!new)>(s: seq<T>, limit: nat)
    ensures var r := Keys(Take(MostCommon(CountAll(s)), limit));
      |r| == (if limit < |Dedup(s)| then limit else |Dedup(s)|)
      && Distinct(r)
      && (forall k :: 0 <= k < |r| ==> r[k] in s)
      && (forall i, j :: 0 <= i < j < |r| ==> Occurrences(s, r[i]) >= Occurrences(s, r[j]))
      && (forall x :: x in s && x !in r ==>
            |r| == limit && (limit > 0 ==> Occurrences(s, x) <= Occurrences(s, r[limit - 1])))
  {
    MostCommonShape(s);
    TakeKeysShape(MostCommon(CountAll(s)), s, limit);
  }

  lemma TakeKeysShape<T>(mc: seq<(T, nat)>, s: seq<T>, limit: nat)
    requires CountsOfValues(mc, s) && CountOrdered(mc)
    ensures var r := Keys(Take(mc, limit));
      Distinct(r)
      && (forall k :: 0 <= k < |r| ==> r[k] in s)
      && (forall i, j :: 0 <= i < j < |r| ==> Occurrences(s, r[i]) >= Occurrences(s, r[j]))
      && (forall x :: x in s && x !in r ==>
            |r| == limit && (limit > 0 ==> Occurrences(s, x) <= Occurrences(s, r[limit - 1])))
  {
    var r := Keys(Take(mc, limit));
    assert Distinct(r) by {
      forall i, j | 0 <= i < j < |r| ensures r[i] != r[j] {
        assert r[i] == mc[i].0 && r[j] == mc[j].0;
      }
    }
    forall x | x in s && x !in r
      ensures |r| == limit && (limit > 0 ==> Occurrences(s, x) <= Occurrences(s, r[limit - 1]))
    {
      var k :| 0 <= k < |mc| && mc[k].0 == x;
      LeftOutRanksLower(mc, limit, k);
    }
  }

  /** In a list ordered by non-increasing count, an entry cut off by `[:limit]` counts no more than the last kept. */
  lemma LeftOutRanksLower<T>(mc: seq<(T, nat)>, limit: nat, k: nat)
    requires k < |mc|
    requires CountOrdered(mc)
    requires mc[k].0 !in Keys(Take(mc, limit))
    ensures k >= limit && |Keys(Take(mc, limit))| == limit
    ensures limit > 0 ==> mc[k].1 <= mc[limit - 1].1 && Keys(Take(mc, limit))[limit - 1] == mc[limit - 1].0
  {
  }

  lemma RemoveCons<T>(b: seq<T>, k: nat)
    requires 0 < k < |b|
    ensures Remove(b, k) == [b[0]] + Remove(b[1..], k - 1)
  {
    assert b[..k] == [b[0]] + b[1..][..k - 1];
    assert b[k + 1..] == b[1..][k..];
  }

  /**
   * The first n of a stable sort: elements of the input, in order, and no two with one key
   * when the input has none.
   */
  lemma SortTakeShape<K(!new), V(!new)>(c: seq<(K, V)>, le: ((K, V), (K, V)) -> bool, n: nat)
    requires Total(le) && Transitive(le)
    ensures var r := Take(SortBy(c, le), n);
      |r| <= n && (|r| == n || |r| == |c|)
      && (forall k :: 0 <= k < |r| ==> r[k] in c)
      && (forall i, j :: 0 <= i < j < |r| ==> le(r[i], r[j]))
      && (DistinctKeys(c) ==> DistinctKeys(r))
  {
    var sorted := SortBy(c, le);
    var r := Take(sorted, n);
    SortBySorted(c, le);
    SortByElements(c, le);
    forall i, j | 0 <= i < j < |r| ensures le(r[i], r[j]) {
      SortedPairwise(sorted, le, i, j);
    }
    if DistinctKeys(c) {
      PermutedKeysDistinct(c, sorted);
    }
  }

  lemma EnumerateSnoc<T, U>(s: seq<T>, f: (int, T) -> U, i: nat)
    requires i < |s|
    ensures Enumerate(s[..i + 1], f) == Enumerate(s[..i], f) + [f(i + 1, s[i])]
  {
    assert s[..i + 1][..i] == s[..i];
  }

  /** A group with at least two members. */
  predicate Repeated<K, T>(g: (K, seq<T>)) { |g.1| >= 2 }

  /**
   * The groups with at least two members: distinct keys, each holding only elements of
   * its key, and none exactly when no key repeats.
   */
  lemma RepeatedGroupsShape<T(!new), K(!new)>(s: seq<T>, key: T -> K)
    ensures var g := GroupBy(s, key); var r := Filter(g, Repeated);
      DistinctKeys(r)
      && (forall i :: 0 <= i < |r| ==> |r[i].1| >= 2 && forall x :: x in r[i].1 ==> key(x) == r[i].0)
      && (r == [] <==> forall i :: 0 <= i < |g| ==> |g[i].1| < 2)
  {
    var g := GroupBy(s, key);
    var r := Filter(g, Repeated);
    GroupByKeyed(s, key);
    FilterKeysDistinct(g, Repeated);
    forall i | 0 <= i < |r| ensures |r[i].1| >= 2 && forall x :: x in r[i].1 ==> key(x) == r[i].0 {
      assert r[i] in g;
    }
    if exists i :: 0 <= i < |g| && |g[i].1| >= 2 {
      var i :| 0 <= i < |g| && |g[i].1| >= 2;
      FilterKeeps(g, Repeated, i);
    }
    if r != [] {
      assert r[0] in g;
    }
  }

  /** `[f(x) for x in s if keep(f(x))]` */
  function KeptImages<T, U>(s: seq<T>, f: T -> U, keep: U -> bool): seq<U>
  {
    if s == [] then []
    else
      var y := f(s[|s| - 1]);
      KeptImages(s[..|s| - 1], f, keep) + (if keep(y) then [y] else [])
  }

  lemma KeptImagesSnoc<T, U>(s: seq<T>, f: T -> U, keep: U -> bool, i: nat)
    requires i < |s|
    ensures KeptImages(s[..i + 1], f, keep)
      == KeptImages(s[..i], f, keep) + (if keep(f(s[i])) then [f(s[i])] else [])
  {
    assert s[..i + 1][..i] == s[..i];
  }

  lemma {:induction false} KeptImagesPrefix<T, U>(s: seq<T>, f: T -> U, keep: U -> bool, i: nat)
    requires i <= |s|
    ensures KeptImages(s[..i], f, keep) <= KeptImages(s, f, keep)
  {
    if i < |s| {
      var init := s[..|s| - 1];
      assert s[..i] == init[..i];
      KeptImagesPrefix(init, f, keep, i);
    } else {
      assert s[..i] == s;
    }
  }

  /** Each kept image is accepted and is the image of an element. */
  lemma {:induction false} KeptImagesFrom<T, U>(s: seq<T>, f: T -> U, keep: U -> bool)
    ensures forall y :: y in KeptImages(s, f, keep) ==> keep(y) && exists i :: 0 <= i < |s| && f(s[i]) == y
  {
    if s != [] {
      var init := s[..|s| - 1];
      KeptImagesFrom(init, f, keep);
      forall y | y in KeptImages(s, f, keep) ensures keep(y) && exists i :: 0 <= i < |s| && f(s[i]) == y {
        if y in KeptImages(init, f, keep) {
          var i :| 0 <= i < |init| && f(init[i]) == y;
          assert s[i] == init[i];
        } else {
          assert f(s[|s| - 1]) == y;
        }
      }
    }
  }

  /** An accepted image is kept. */
  lemma {:induction false} KeptImagesKeeps<T, U>(s: seq<T>, f: T -> U, keep: U -> bool, i: nat)
    requires i < |s| && keep(f(s[i]))
    ensures f(s[i]) in KeptImages(s, f, keep)
  {
    var init := s[..|s| - 1];
    if i < |init| {
      KeptImagesKeeps(init, f, keep, i);
      assert init[i] == s[i];
    }
  }

  lemma DedupSnoc<T(!new)>(s: seq<T>, x: T)
    ensures Dedup(s + [x]) == if x in Dedup(s) then Dedup(s) else Dedup(s) + [x]
  {
    assert (s + [x])[..|s|] == s;
  }

  lemma MapSeqSnoc<T, U>(s: seq<T>, x: T, f: T -> U)
    ensures MapSeq(s + [x], f) == MapSeq(s, f) + [f(x)]
  {
  }

  /**
   * The first n of a stable sort: as many as there are (up to n), drawn from the input,
   * in order, and no element left out precedes any element kept.
   */
  lemma TopOfSort<T(!new)>(s: seq<T>, le: (T, T) -> bool, n: nat)
    requires Total(le) && Transitive(le)
    ensures var r := Take(SortBy(s, le), n);
      |r| == (if n < |s| then n else |s|)
      && multiset(r) <= multiset(s)
      && (forall i, j :: 0 <= i < j < |r| ==> le(r[i], r[j]))
      && (forall x, k :: x in multiset(s) - multiset(r) && 0 <= k < |r| ==> le(r[k], x))
  {
    var sorted := SortBy(s, le);
    SortBySorted(s, le);
    var r := Take(sorted, n);
    var m := |r|;
    var rest := sorted[m..];
    assert sorted == r + rest;
    assert multiset(sorted) == multiset(r) + multiset(rest);
    forall i, j | 0 <= i < j < |r| ensures le(r[i], r[j]) {
      SortedPairwise(sorted, le, i, j);
    }
    forall x, k | x in multiset(s) - multiset(r) && 0 <= k < |r| ensures le(r[k], x) {
      assert x in multiset(rest);
      var j :| 0 <= j < |rest| && rest[j] == x;
      SortedPairwise(sorted, le, k, m + j);
    }
  }

  /** Python's `max(s, key=key)`: the position of the first element with the largest key. */
  function FirstMax<T>(s: seq<T>, key: T -> int): (b: nat)
    requires s != []
    ensures b < |s|
  {
    if |s| == 1 then 0
    else
      var b := FirstMax(s[..|s| - 1], key);
      if key(s[|s| - 1]) > key(s[b]) then |s| - 1 else b
  }

  /** No element has a larger key than the one chosen, and every earlier one has a smaller key. */
  lemma {:induction false} FirstMaxShape<T>(s: seq<T>, key: T -> int)
    requires s != []
    ensures var b := FirstMax(s, key);
      (forall k :: 0 <= k < |s| ==> key(s[k]) <= key(s[b]))
      && (forall k :: 0 <= k < b ==> key(s[k]) < key(s[b]))
    decreases |s|
  {
    if |s| > 1 {
      var init := s[..|s| - 1];
      FirstMaxShape(init, key);
      forall k | 0 <= k < |init| ensures init[k] == s[k] { }
    }
  }
}
