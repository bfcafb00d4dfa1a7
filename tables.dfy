// The row operations the two stores ask of their SQL table, over an in-memory sequence of
// rows kept in ascending order of a timestamp key: insertion at the place `ORDER BY` gives
// a new row, deletion of the oldest rows beyond a capacity, and `OFFSET`/`LIMIT` paging.

module Tables {
  import opened Common
  import opened Collections

  /** Each row's key is at most the next row's: the table in `ORDER BY key ASC` order. */
  predicate Ascending<T>(s: seq<T>, key: T -> int)
  {
    forall i, j :: 0 <= i < j < |s| ==> key(s[i]) <= key(s[j])
  }

  /**
   * A new row in key order: after every row whose key is not larger, so that rows with
   * equal keys keep their insertion order.
   */
  function Place<T>(x: T, s: seq<T>, key: T -> int): (r: seq<T>)
    ensures |r| == |s| + 1
    ensures multiset(r) == multiset(s) + multiset{x}
  {
    if s == [] then [x]
    else if key(x) < key(s[0]) then [x] + s
    else
      assert s == [s[0]] + s[1..];
      [s[0]] + Place(x, s[1..], key)
  }

  /** Placing a row keeps the table in key order. */
  lemma {:induction false} PlaceAscending<T>(x: T, s: seq<T>, key: T -> int)
    requires Ascending(s, key)
    ensures Ascending(Place(x, s, key), key)
  {
    if s != [] && key(x) >= key(s[0]) {
      var tail := s[1..];
      assert Ascending(tail, key) by {
        forall i, j | 0 <= i < j < |tail| ensures key(tail[i]) <= key(tail[j]) {
          assert tail[i] == s[i + 1] && tail[j] == s[j + 1];
        }
      }
      PlaceAscending(x, tail, key);
      var p := Place(x, tail, key);
      var r := [s[0]] + p;
      forall i, j | 0 <= i < j < |r| ensures key(r[i]) <= key(r[j]) {
        if i == 0 {
          assert r[j] in multiset(p);
          assert r[j] == x || r[j] in multiset(tail);
          if r[j] != x {
            var k :| 0 <= k < |tail| && tail[k] == r[j];
            assert tail[k] == s[k + 1];
          }
        } else {
          assert r[i] == p[i - 1] && r[j] == p[j - 1];
        }
      }
    }
  }

  /**
   * Placing a row keeps a finer order when the row belongs after each row whose key is not
   * larger and before each row whose key is.
   */
  lemma {:induction false} PlaceChain<T>(x: T, s: seq<T>, key: T -> int, before: (T, T) -> bool)
    requires Ascending(s, key) && Chain(s, before)
    requires forall i :: 0 <= i < |s| ==> if key(s[i]) <= key(x) then before(s[i], x) else before(x, s[i])
    ensures Chain(Place(x, s, key), before)
  {
    if s != [] && key(x) >= key(s[0]) {
      var tail := s[1..];
      assert forall a :: 0 <= a < |tail| ==> tail[a] == s[a + 1];
      PlaceChain(x, tail, key, before);
      var p := Place(x, tail, key);
      var r := [s[0]] + p;
      forall i, j | 0 <= i < j < |r| ensures before(r[i], r[j]) {
        if i == 0 {
          assert r[j] == p[j - 1] && r[j] in multiset(p);
          if r[j] != x {
            var k :| 0 <= k < |tail| && tail[k] == r[j];
          }
        } else {
          assert r[i] == p[i - 1] && r[j] == p[j - 1];
        }
      }
    } else if s != [] {
      var r := [x] + s;
      forall i, j | 0 <= i < j < |r| ensures before(r[i], r[j]) {
        assert r[j] == s[j - 1];
        if i > 0 {
          assert r[i] == s[i - 1];
        }
      }
    }
  }

  /** Every suffix of an ordered table is ordered. */
  lemma SuffixChain<T>(s: seq<T>, k: nat, before: (T, T) -> bool)
    requires k <= |s| && Chain(s, before)
    ensures Chain(s[k..], before)
  {
    var r := s[k..];
    forall i, j | 0 <= i < j < |r| ensures before(r[i], r[j]) {
      assert r[i] == s[k + i] && r[j] == s[k + j];
    }
  }

  /** No two rows share an id. */
  predicate UniqueBy<T, K(==)>(s: seq<T>, id: T -> K)
  {
    forall i, j :: 0 <= i < j < |s| ==> id(s[i]) != id(s[j])
  }

  /** Placing a row with an id no other row has keeps the ids unique. */
  lemma {:induction false} PlaceUnique<T, K>(x: T, s: seq<T>, key: T -> int, id: T -> K)
    requires UniqueBy(s, id)
    requires forall i :: 0 <= i < |s| ==> id(s[i]) != id(x)
    ensures UniqueBy(Place(x, s, key), id)
  {
    if s != [] && key(x) >= key(s[0]) {
      var tail := s[1..];
      assert forall a :: 0 <= a < |tail| ==> tail[a] == s[a + 1];
      PlaceUnique(x, tail, key, id);
      var p := Place(x, tail, key);
      var r := [s[0]] + p;
      forall i, j | 0 <= i < j < |r| ensures id(r[i]) != id(r[j]) {
        if i == 0 {
          assert r[j] == p[j - 1] && r[j] in multiset(p);
          if r[j] != x {
            var k :| 0 <= k < |tail| && tail[k] == r[j];
          }
        } else {
          assert r[i] == p[i - 1] && r[j] == p[j - 1];
        }
      }
    } else if s != [] {
      var r := [x] + s;
      forall i, j | 0 <= i < j < |r| ensures id(r[i]) != id(r[j]) {
        assert r[j] == s[j - 1];
        if i > 0 {
          assert r[i] == s[i - 1];
        }
      }
    }
  }

  /** The newest rows of an ordered table with unique ids are again ordered, with unique ids. */
  lemma SuffixKeeps<T, K>(s: seq<T>, k: nat, key: T -> int, id: T -> K)
    requires k <= |s|
    requires Ascending(s, key) && UniqueBy(s, id)
    ensures Ascending(s[k..], key) && UniqueBy(s[k..], id)
  {
    var r := s[k..];
    forall i, j | 0 <= i < j < |r| ensures key(r[i]) <= key(r[j]) && id(r[i]) != id(r[j]) {
      assert r[i] == s[k + i] && r[j] == s[k + j];
    }
  }

  /** A row whose key is not below any other goes last: the usual case of a fresh timestamp. */
  lemma {:induction false} PlaceLatest<T>(x: T, s: seq<T>, key: T -> int)
    requires forall i :: 0 <= i < |s| ==> key(s[i]) <= key(x)
    ensures Place(x, s, key) == s + [x]
  {
    if s != [] {
      var tail := s[1..];
      forall i | 0 <= i < |tail| ensures key(tail[i]) <= key(x) {
        assert tail[i] == s[i + 1];
      }
      PlaceLatest(x, tail, key);
      assert s == [s[0]] + tail;
    }
  }

  /**
   * Deleting the `count - cap` rows that come first in key order once the table holds more
   * than cap rows; every row goes when cap is not positive.
   */
  function KeepNewest<T>(s: seq<T>, cap: int): (r: seq<T>)
    ensures |r| == MinInt(|s|, MaxInt(cap, 0))
    ensures r == s[|s| - |r|..]
  {
    var overflow := |s| - cap;
    if overflow > 0 then s[MinInt(overflow, |s|)..] else s
  }

  /** Evicting before appending a row and again after is the same as evicting once after. */
  lemma KeepNewestSnoc<T>(s: seq<T>, x: T, cap: int)
    ensures KeepNewest(KeepNewest(s, cap) + [x], cap) == KeepNewest(s + [x], cap)
  {
    var a, b := KeepNewest(KeepNewest(s, cap) + [x], cap), KeepNewest(s + [x], cap);
    var k := KeepNewest(s, cap);
    assert |a| == |b|;
    forall i | 0 <= i < |a| ensures a[i] == b[i] {
      if i < |a| - 1 {
        assert a[i] == k[|k| + 1 - |a| + i];
        assert k[|k| + 1 - |a| + i] == s[|s| - |k| + |k| + 1 - |a| + i];
      }
    }
  }

  /** The table after saving each row in turn: each placed in order, then the oldest evicted. */
  function SaveAll<T>(rows: seq<T>, cap: int, key: T -> int): seq<T>
  {
    if rows == [] then [] else KeepNewest(Place(rows[|rows| - 1], SaveAll(rows[..|rows| - 1], cap, key), key), cap)
  }

  /**
   * Saving rows one after another, each no older than the rows before, leaves exactly the
   * newest cap of them: the oldest are evicted first.
   */
  lemma {:induction false} SaveAllKeepsNewest<T>(rows: seq<T>, cap: int, key: T -> int)
    requires Ascending(rows, key)
    ensures SaveAll(rows, cap, key) == KeepNewest(rows, cap)
  {
    if rows != [] {
      var init := rows[..|rows| - 1];
      var x := rows[|rows| - 1];
      assert rows == init + [x];
      InitBelowLast(rows, init, key);
      SaveAllKeepsNewest(init, cap, key);
      KeepNewestBelow(init, cap, key, key(x));
      PlaceLatest(x, KeepNewest(init, cap), key);
      KeepNewestSnoc(init, x, cap);
    }
  }

  /** Without its last row an ordered table is still ordered, and no row is newer than the last. */
  lemma InitBelowLast<T>(rows: seq<T>, init: seq<T>, key: T -> int)
    requires rows != [] && Ascending(rows, key) && init == rows[..|rows| - 1]
    ensures Ascending(init, key)
    ensures forall i :: 0 <= i < |init| ==> key(init[i]) <= key(rows[|rows| - 1])
  {
    forall i, j | 0 <= i < j < |init| ensures key(init[i]) <= key(init[j]) {
      assert init[i] == rows[i] && init[j] == rows[j];
    }
    forall i | 0 <= i < |init| ensures key(init[i]) <= key(rows[|rows| - 1]) {
      assert init[i] == rows[i];
    }
  }

  /** The rows `KeepNewest` keeps are rows of the table, so a bound on every key still holds. */
  lemma KeepNewestBelow<T>(s: seq<T>, cap: int, key: T -> int, bound: int)
    requires forall i :: 0 <= i < |s| ==> key(s[i]) <= bound
    ensures forall i :: 0 <= i < |KeepNewest(s, cap)| ==> key(KeepNewest(s, cap)[i]) <= bound
  {
    var kept := KeepNewest(s, cap);
    forall i | 0 <= i < |kept| ensures key(kept[i]) <= bound {
      assert kept[i] == s[|s| - |kept| + i];
    }
  }

  /** How many rows satisfy p. */
  function CountIf<T>(s: seq<T>, p: T -> bool): (n: nat)
    ensures n <= |s|
  {
    if s == [] then 0 else CountIf(s[..|s| - 1], p) + (if p(s[|s| - 1]) then 1 else 0)
  }

  lemma CountIfSnoc<T>(s: seq<T>, i: nat, p: T -> bool)
    requires i < |s|
    ensures CountIf(s[..i + 1], p) == CountIf(s[..i], p) + (if p(s[i]) then 1 else 0)
  {
    assert s[..i + 1][..i] == s[..i];
  }

  /** `OFFSET offset LIMIT limit` */
  function Page<T>(s: seq<T>, offset: nat, limit: nat): (r: seq<T>)
    ensures |r| == MinInt(limit, MaxInt(|s| - offset, 0))
    ensures forall k :: 0 <= k < |r| ==> r[k] == s[offset + k]
  {
    if offset >= |s| then [] else s[offset..MinInt(offset + limit, |s|)]
  }

  /** A page of an ordered table read backwards runs against the order. */
  lemma ReversedPageChain<T>(m: seq<T>, offset: nat, limit: nat, before: (T, T) -> bool)
    requires Chain(m, before)
    ensures var page := Page(Reversed(m), offset, limit);
      forall i, j :: 0 <= i < j < |page| ==> before(page[j], page[i])
  {
    var page := Page(Reversed(m), offset, limit);
    forall i, j | 0 <= i < j < |page| ensures before(page[j], page[i]) {
      assert page[i] == m[|m| - 1 - (offset + i)] && page[j] == m[|m| - 1 - (offset + j)];
    }
  }

  /** Two consecutive pages make up the page that spans both. */
  lemma PageSplit<T>(s: seq<T>, offset: nat, a: nat, b: nat)
    ensures Page(s, offset, a) + Page(s, offset + a, b) == Page(s, offset, a + b)
  {
    var p, q, r := Page(s, offset, a), Page(s, offset + a, b), Page(s, offset, a + b);
    assert |p + q| == |r|;
    forall k | 0 <= k < |r| ensures (p + q)[k] == r[k] {
      if k >= |p| {
        assert (p + q)[k] == q[k - |p|];
      }
    }
  }

  /** In a table without repeated rows, successive pages never share a row. */
  lemma PagesDisjoint<T>(s: seq<T>, offset: nat, limit: nat, later: nat)
    requires forall i, j :: 0 <= i < j < |s| ==> s[i] != s[j]
    ensures forall x :: x in Page(s, offset, limit) ==> x !in Page(s, offset + limit, later)
  {
    var p, q := Page(s, offset, limit), Page(s, offset + limit, later);
    forall x | x in p ensures x !in q {
      var i :| 0 <= i < |p| && p[i] == x;
      assert x == s[offset + i];
    }
  }

  /** `ORDER BY key DESC`: the rows newest first. */
  function Reversed<T>(s: seq<T>): (r: seq<T>)
    ensures |r| == |s|
    ensures forall k :: 0 <= k < |s| ==> r[k] == s[|s| - 1 - k]
  {
    if s == [] then [] else [s[|s| - 1]] + Reversed(s[..|s| - 1])
  }
}
