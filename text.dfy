// Character classes and the few Python string operations the services rely on
// (`lower`, `strip`, `split`, `join`, `in`, `startswith`, `endswith`).
// Strings are sequences of characters; case folding covers ASCII and Latin-1 letters.

module Text {

  /** Python's `str.isspace` / regex `\s` for one character. */
  predicate IsSpace(c: char)
  {
    c == ' ' || ('\t' <= c <= '\r') || ('\U{1C}' <= c <= '\U{1F}') || c == '\U{85}' || c == '\U{A0}'
    || c == '\U{1680}' || ('\U{2000}' <= c <= '\U{200A}') || c == '\U{2028}' || c == '\U{2029}'
    || c == '\U{202F}' || c == '\U{205F}' || c == '\U{3000}'
  }

  predicate IsAsciiDigit(c: char) { '0' <= c <= '9' }

  predicate IsAsciiLower(c: char) { 'a' <= c <= 'z' }

  predicate IsAsciiUpper(c: char) { 'A' <= c <= 'Z' }

  /** Python's `str.isalnum` restricted to ASCII letters and digits. */
  predicate IsAlnum(c: char) { IsAsciiDigit(c) || IsAsciiLower(c) || IsAsciiUpper(c) }

  /** Upper-case letters that `lower` changes: ASCII and Latin-1 (except the multiplication sign). */
  predicate IsUpper(c: char)
  {
    IsAsciiUpper(c) || ('\U{C0}' <= c <= '\U{DE}' && c != '\U{D7}')
  }

  function LowerChar(c: char): (r: char)
    ensures IsUpper(c) ==> r as int == c as int + 32
    ensures !IsUpper(c) ==> r == c
    ensures !IsUpper(r)
  {
    if IsUpper(c) then (c as int + 32) as char else c
  }

  /** Python's `str.lower`. */
  function Lower(s: string): (r: string)
    ensures |r| == |s|
    ensures forall i :: 0 <= i < |s| ==> r[i] == LowerChar(s[i])
  {
    if s == [] then [] else [LowerChar(s[0])] + Lower(s[1..])
  }

  lemma LowerIdempotent(s: string)
    ensures Lower(Lower(s)) == Lower(s)
  {
  }

  lemma {:induction false} LowerAppend(a: string, b: string)
    ensures Lower(a + b) == Lower(a) + Lower(b)
  {
    if a == [] {
      assert a + b == b;
    } else {
      assert (a + b)[1..] == a[1..] + b;
      LowerAppend(a[1..], b);
    }
  }

  /** Number of leading characters of s that are whitespace. */
  function LeadingSpace(s: string): (n: nat)
    ensures n <= |s|
    ensures forall i :: 0 <= i < n ==> IsSpace(s[i])
    ensures n < |s| ==> !IsSpace(s[n])
  {
    if s == [] || !IsSpace(s[0]) then 0 else 1 + LeadingSpace(s[1..])
  }

  /** Python's `str.lstrip()`. */
  function LStrip(s: string): (r: string)
    ensures r == s[LeadingSpace(s)..]
    ensures r != [] ==> !IsSpace(r[0])
  {
    s[LeadingSpace(s)..]
  }

  /** Python's `str.rstrip()`. */
  function RStrip(s: string): (r: string)
    ensures |r| <= |s| && r == s[..|r|]
    ensures r != [] ==> !IsSpace(r[|r| - 1])
    ensures forall i :: |r| <= i < |s| ==> IsSpace(s[i])
  {
    if s == [] then []
    else if IsSpace(s[|s| - 1]) then RStrip(s[..|s| - 1])
    else s
  }

  /** Python's `str.strip()`. */
  function Strip(s: string): (r: string)
    ensures |r| <= |s|
    ensures r != [] ==> !IsSpace(r[0]) && !IsSpace(r[|r| - 1])
  {
    RStrip(LStrip(s))
  }

  /** Strip leaves a string with a non-space character at each end unchanged. */
  lemma StripOfTrimmed(s: string)
    requires s != [] ==> !IsSpace(s[0]) && !IsSpace(s[|s| - 1])
    ensures Strip(s) == s
  {
  }

  /** One leading space is stripped off a string that has non-space characters at both ends. */
  lemma StripSpaced(s: string)
    requires s != [] && !IsSpace(s[0]) && !IsSpace(s[|s| - 1])
    ensures Strip(" " + s) == s
  {
    assert (" " + s)[1..] == s;
    assert LeadingSpace(" " + s) == 1;
    StripOfTrimmed(s);
  }

  lemma StripIdempotent(s: string)
    ensures Strip(Strip(s)) == Strip(s)
  {
    StripOfTrimmed(Strip(s));
  }

  /** A string is blank when `s.strip()` is empty, i.e. every character is whitespace. */
  predicate IsBlank(s: string) { forall i :: 0 <= i < |s| ==> IsSpace(s[i]) }

  lemma {:induction false} StripEmptyIffBlank(s: string)
    ensures Strip(s) == [] <==> IsBlank(s)
  {
    var l := LeadingSpace(s);
    if l < |s| {
      assert !IsSpace(s[l]);
      assert LStrip(s)[0] == s[l];
      assert RStrip(LStrip(s)) != [] by {
        RStripKeepsNonSpace(LStrip(s));
      }
    }
  }

  lemma RStripKeepsNonSpace(s: string)
    requires s != [] && !IsSpace(s[0])
    ensures RStrip(s) != []
  {
  }

  /** Lower-casing never turns a character into whitespace or whitespace into something else. */
  lemma LowerKeepsSpace(c: char)
    ensures IsSpace(LowerChar(c)) <==> IsSpace(c)
  {
  }

  lemma LowerSlice(s: string, i: nat, j: nat)
    requires i <= j <= |s|
    ensures Lower(s[i..j]) == Lower(s)[i..j]
  {
  }

  lemma {:induction false} LeadingSpaceLower(s: string)
    ensures LeadingSpace(Lower(s)) == LeadingSpace(s)
  {
    if s != [] {
      LowerKeepsSpace(s[0]);
      LowerSlice(s, 1, |s|);
      LeadingSpaceLower(s[1..]);
    }
  }

  lemma {:induction false} RStripLower(s: string)
    ensures RStrip(Lower(s)) == Lower(RStrip(s))
  {
    if s != [] {
      LowerKeepsSpace(s[|s| - 1]);
      LowerSlice(s, 0, |s| - 1);
      RStripLower(s[..|s| - 1]);
    }
  }

  /** `s.lower().strip() == s.strip().lower()` */
  lemma {:induction false} StripLower(s: string)
    ensures Strip(Lower(s)) == Lower(Strip(s))
  {
    LStripLower(s);
    RStripLower(LStrip(s));
  }

  /** `s.lower().lstrip() == s.lstrip().lower()` */
  lemma {:induction false} LStripLower(s: string)
    ensures LStrip(Lower(s)) == Lower(LStrip(s))
  {
    var l := LeadingSpace(s);
    LeadingSpaceLower(s);
    LowerSlice(s, l, |s|);
    assert s[l..|s|] == s[l..];
    assert Lower(s)[l..|s|] == Lower(s)[l..];
  }

  /** Python's `s.rstrip(c)` for one character c. */
  function RStripChar(s: string, c: char): (r: string)
    ensures |r| <= |s| && r == s[..|r|]
    ensures r != [] ==> r[|r| - 1] != c
    ensures forall i :: |r| <= i < |s| ==> s[i] == c
  {
    if s == [] then []
    else if s[|s| - 1] == c then RStripChar(s[..|s| - 1], c)
    else s
  }

  /** Python's `s.lstrip(c)` for one character c. */
  function LStripChar(s: string, c: char): (r: string)
    ensures |r| <= |s| && r == s[|s| - |r|..]
    ensures r != [] ==> r[0] != c
    ensures forall i :: 0 <= i < |s| - |r| ==> s[i] == c
  {
    if s == [] then []
    else if s[0] == c then LStripChar(s[1..], c)
    else s
  }

  /** Python's `s.strip(c)` for one character c. */
  function StripChar(s: string, c: char): (r: string)
    ensures |r| <= |s|
    ensures r != [] ==> r[0] != c && r[|r| - 1] != c
  {
    RStripChar(LStripChar(s, c), c)
  }

  predicate StartsWith(s: string, prefix: string)
  {
    |prefix| <= |s| && s[..|prefix|] == prefix
  }

  predicate EndsWith(s: string, suffix: string)
  {
    |suffix| <= |s| && s[|s| - |suffix|..] == suffix
  }

  /** A suffix of a suffix is a suffix. */
  lemma EndsWithTrans(s: string, t: string, u: string)
    requires EndsWith(s, t) && EndsWith(t, u)
    ensures EndsWith(s, u)
  {
    assert s[|s| - |u|..] == s[|s| - |t|..][|t| - |u|..];
  }

  /** A prefix of a prefix is a prefix. */
  lemma StartsWithTrans(s: string, t: string, u: string)
    requires StartsWith(s, t) && StartsWith(t, u)
    ensures StartsWith(s, u)
  {
    assert s[..|u|] == s[..|t|][..|u|];
  }

  /** Two strings that differ at an index within both prefixes cannot both be prefixes of s. */
  lemma StartsWithDiffer(s: string, t: string, u: string, i: nat)
    requires StartsWith(s, t) && i < |t| && i < |u| && t[i] != u[i]
    ensures !StartsWith(s, u)
  {
    assert s[..|t|][i] == s[i];
  }

  /** What follows position i is a suffix. */
  lemma EndsWithDrop(s: string, i: nat)
    requires i <= |s|
    ensures EndsWith(s, s[i..])
  {
  }

  /** Python's `t in s` for strings: t occurs in s as a contiguous substring. */
  predicate Contains(s: string, t: string)
  {
    exists i :: 0 <= i <= |s| - |t| && OccursAt(s, t, i)
  }

  /** t occurs in s starting at index i. */
  predicate OccursAt(s: string, t: string, i: int)
  {
    0 <= i <= |s| - |t| && s[i..i + |t|] == t
  }

  /** A computable version of Contains, searched left to right. */
  function ContainsFrom(s: string, t: string, k: nat): (b: bool)
    requires k <= |s|
    ensures b <==> exists i :: k <= i <= |s| - |t| && OccursAt(s, t, i)
    decreases |s| - k
  {
    if k + |t| > |s| then false
    else if OccursAt(s, t, k) then true
    else ContainsFrom(s, t, k + 1)
  }

  function ContainsStr(s: string, t: string): (b: bool)
    ensures b <==> Contains(s, t)
  {
    ContainsFrom(s, t, 0)
  }

  /** A text found in a middle part is found in the whole. */
  lemma ContainsInside(a: string, b: string, c: string, t: string)
    requires Contains(b, t)
    ensures Contains(a + b + c, t)
  {
    var i :| 0 <= i <= |b| - |t| && OccursAt(b, t, i);
    var s := a + b + c;
    assert s[|a| + i..|a| + i + |t|] == b[i..i + |t|];
    assert OccursAt(s, t, |a| + i);
  }

  /** A text found in one of the parts is found in their join. */
  lemma {:induction false} JoinContains(parts: seq<string>, sep: string, k: nat, t: string)
    requires k < |parts| && Contains(parts[k], t)
    ensures Contains(Join(parts, sep), t)
    decreases |parts|
  {
    if |parts| > 1 {
      var rest := Join(parts[1..], sep);
      if k == 0 {
        assert Join(parts, sep) == [] + parts[0] + (sep + rest);
        ContainsInside([], parts[0], sep + rest, t);
      } else {
        JoinContains(parts[1..], sep, k - 1, t);
        assert Join(parts, sep) == (parts[0] + sep) + rest + [];
        ContainsInside(parts[0] + sep, rest, [], t);
      }
    }
  }

  predicate HasChar(s: string, c: char) { c in s }

  /** Index of the first occurrence of c in s, or |s| when there is none. */
  function IndexOf(s: string, c: char): (k: nat)
    ensures k <= |s|
    ensures k < |s| ==> s[k] == c
    ensures forall i :: 0 <= i < k ==> s[i] != c
  {
    if s == [] then 0 else if s[0] == c then 0 else 1 + IndexOf(s[1..], c)
  }

  /** Index of the last occurrence of c in s, or -1 when there is none. */
  function LastIndexOf(s: string, c: char): (k: int)
    ensures -1 <= k < |s|
    ensures k >= 0 ==> s[k] == c
    ensures forall i :: k < i < |s| ==> s[i] != c
  {
    if s == [] then -1
    else if s[|s| - 1] == c then |s| - 1
    else LastIndexOf(s[..|s| - 1], c)
  }

  /** Python's `s.split(c)` for a one-character separator: always one more part than separators. */
  function Split(s: string, c: char): (parts: seq<string>)
    ensures |parts| >= 1
    ensures forall k :: 0 <= k < |parts| ==> c !in parts[k]
    decreases |s|
  {
    var i := IndexOf(s, c);
    if i == |s| then [s]
    else [s[..i]] + Split(s[i + 1..], c)
  }

  /** Python's `sep.join(parts)`. */
  function Join(parts: seq<string>, sep: string): string
  {
    if parts == [] then []
    else if |parts| == 1 then parts[0]
    else parts[0] + sep + Join(parts[1..], sep)
  }

  lemma {:induction false} JoinSplit(s: string, c: char)
    ensures Join(Split(s, c), [c]) == s
    decreases |s|
  {
    var i := IndexOf(s, c);
    if i < |s| {
      JoinSplit(s[i + 1..], c);
      assert s == s[..i] + [c] + s[i + 1..];
    }
  }

  /** A string without the separator splits into itself. */
  lemma SplitWithout(a: string, c: char)
    requires c !in a
    ensures Split(a, c) == [a]
  {
    assert IndexOf(a, c) == |a|;
  }

  /** Splitting at the first separator peels off the text before it. */
  lemma SplitAtFirst(a: string, b: string, c: char)
    requires c !in a
    ensures Split(a + [c] + b, c) == [a] + Split(b, c)
  {
    var s := a + [c] + b;
    assert s[|a|] == c;
    assert IndexOf(s, c) == |a|;
    assert s[..|a|] == a && s[|a| + 1..] == b;
  }

  /** Each string of `ps` with `t` put in front of it. */
  function PrefixEach(t: string, ps: seq<string>): (r: seq<string>)
    ensures |r| == |ps|
  {
    seq(|ps|, k requires 0 <= k < |ps| => t + ps[k])
  }

  /** Splitting `pre` + the parts joined with `c` + `tail`, as one sequence of chunks. */
  lemma {:induction false} SplitJoinedChunks(pre: string, parts: seq<string>, c: char, tail: string)
    requires c !in pre && c !in tail
    requires forall k :: 0 <= k < |parts| ==> c !in parts[k]
    ensures Split(pre + Join(parts, [c] + tail), c) ==
      if parts == [] then [pre] else [pre + parts[0]] + PrefixEach(tail, parts[1..])
    decreases |parts|
  {
    if parts == [] {
      assert pre + Join(parts, [c] + tail) == pre;
      SplitWithout(pre, c);
    } else if |parts| == 1 {
      assert pre + Join(parts, [c] + tail) == pre + parts[0];
      SplitWithout(pre + parts[0], c);
      assert PrefixEach(tail, parts[1..]) == [];
    } else {
      var rest := parts[1..];
      SplitJoinedStep(pre, parts, c, tail);
      SplitJoinedChunks(tail, rest, c, tail);
      PrefixEachCons(tail, rest);
    }
  }

  /** `PrefixEach` of a non-empty sequence, first string first. */
  lemma PrefixEachCons(t: string, ps: seq<string>)
    requires ps != []
    ensures PrefixEach(t, ps) == [t + ps[0]] + PrefixEach(t, ps[1..])
  {
    var a := PrefixEach(t, ps);
    var b := [t + ps[0]] + PrefixEach(t, ps[1..]);
    forall k | 0 <= k < |a| ensures a[k] == b[k] {
      if k > 0 {
        assert b[k] == PrefixEach(t, ps[1..])[k - 1];
      }
    }
  }

  /** Past the first part, splitting goes on with `tail` + the rest joined. */
  lemma SplitJoinedStep(pre: string, parts: seq<string>, c: char, tail: string)
    requires |parts| >= 2 && c !in pre && c !in parts[0]
    ensures Split(pre + Join(parts, [c] + tail), c) ==
      [pre + parts[0]] + Split(tail + Join(parts[1..], [c] + tail), c)
  {
    var joined := Join(parts[1..], [c] + tail);
    assert Join(parts, [c] + tail) == parts[0] + ([c] + tail) + joined;
    assert pre + Join(parts, [c] + tail) == (pre + parts[0]) + [c] + (tail + joined);
    SplitAtFirst(pre + parts[0], tail + joined, c);
  }

  /**
   * Splitting `pre` followed by the parts joined with `c` + `tail` at `c`: the first chunk
   * is `pre` + the first part and every later chunk is `tail` + its part.
   */
  lemma {:induction false} SplitJoined(pre: string, parts: seq<string>, c: char, tail: string)
    requires c !in pre && c !in tail
    requires forall k :: 0 <= k < |parts| ==> c !in parts[k]
    ensures var chunks := Split(pre + Join(parts, [c] + tail), c);
      |chunks| == (if parts == [] then 1 else |parts|)
      && (parts == [] ==> chunks[0] == pre)
      && (parts != [] ==> chunks[0] == pre + parts[0])
      && forall k :: 1 <= k < |parts| ==> chunks[k] == tail + parts[k]
  {
    SplitJoinedChunks(pre, parts, c, tail);
    var chunks := Split(pre + Join(parts, [c] + tail), c);
    ChunksAt(chunks, pre, parts, tail);
  }

  /** The chunks of `SplitJoinedChunks`, one at a time. */
  lemma ChunksAt(chunks: seq<string>, pre: string, parts: seq<string>, tail: string)
    requires chunks == if parts == [] then [pre] else [pre + parts[0]] + PrefixEach(tail, parts[1..])
    ensures |chunks| == (if parts == [] then 1 else |parts|)
    ensures parts == [] ==> chunks[0] == pre
    ensures parts != [] ==> chunks[0] == pre + parts[0]
    ensures forall k :: 1 <= k < |parts| ==> chunks[k] == tail + parts[k]
  {
  }

  /** The last item of a non-empty sequence, `xs[-1]`. */
  function Last<T>(xs: seq<T>): T
    requires xs != []
  {
    xs[|xs| - 1]
  }

  /** `s.split(c)[-1]` */
  function LastPart(s: string, c: char): string
  {
    Last(Split(s, c))
  }

  /** Putting one item in front of a non-empty sequence keeps its last item. */
  lemma LastOfCons<T>(x: T, p: seq<T>)
    requires p != []
    ensures Last([x] + p) == Last(p)
  {
  }

  /** With a separator in s, the split is the text before it and the split of the rest. */
  lemma SplitAtIndex(s: string, c: char)
    requires IndexOf(s, c) < |s|
    ensures Split(s, c) == [s[..IndexOf(s, c)]] + Split(s[IndexOf(s, c) + 1..], c)
  {
  }

  /** Past the first separator, the last part is the last part of the rest. */
  lemma LastPartOfRest(s: string, c: char)
    requires IndexOf(s, c) < |s|
    ensures LastPart(s, c) == LastPart(s[IndexOf(s, c) + 1..], c)
  {
    SplitAtIndex(s, c);
    LastOfCons(s[..IndexOf(s, c)], Split(s[IndexOf(s, c) + 1..], c));
  }

  /** The last part of a split is the text after the last separator. */
  lemma {:induction false} SplitLastIsSuffix(s: string, c: char)
    ensures EndsWith(s, LastPart(s, c))
    decreases |s|
  {
    var i := IndexOf(s, c);
    if i < |s| {
      var t := s[i + 1..];
      SplitLastIsSuffix(t, c);
      LastPartOfRest(s, c);
      EndsWithDrop(s, i + 1);
      EndsWithTrans(s, t, LastPart(t, c));
    } else {
      assert Split(s, c) == [s];
    }
  }

  /** Python's `s.split(c, 1)` when c occurs in s: the text before and after the first c. */
  function SplitOnce(s: string, c: char): (r: (string, string))
    requires c in s
    ensures r.0 + [c] + r.1 == s
    ensures c !in r.0
  {
    var i := IndexOf(s, c);
    assert s == s[..i] + [c] + s[i + 1..];
    (s[..i], s[i + 1..])
  }

  /** Python's `str.split()` with no argument: the maximal runs of non-whitespace. */
  function Words(s: string): (ws: seq<string>)
    ensures forall k :: 0 <= k < |ws| ==> ws[k] != [] && forall j :: 0 <= j < |ws[k]| ==> !IsSpace(ws[k][j])
    decreases |s|
  {
    var t := LStrip(s);
    if t == [] then []
    else
      var n := NonSpaceRun(t);
      [t[..n]] + Words(t[n..])
  }

  /** Length of the run of non-whitespace at the start of s. */
  function NonSpaceRun(s: string): (n: nat)
    ensures n <= |s|
    ensures forall i :: 0 <= i < n ==> !IsSpace(s[i])
    ensures n < |s| ==> IsSpace(s[n])
    ensures s != [] && !IsSpace(s[0]) ==> n > 0
  {
    if s == [] || IsSpace(s[0]) then 0 else 1 + NonSpaceRun(s[1..])
  }

  /** Collapse each run of whitespace into one space (the `\s+` to " " substitution). */
  function CollapseSpace(s: string): (r: string)
    ensures forall i :: 0 <= i < |r| ==> IsSpace(r[i]) ==> r[i] == ' '
    ensures forall i :: 0 <= i < |r| - 1 ==> !(r[i] == ' ' && r[i + 1] == ' ')
    ensures r != [] && r[0] == ' ' ==> s != [] && IsSpace(s[0])
    ensures |r| <= |s|
    ensures forall i :: 0 <= i < |r| ==> r[i] == ' ' || r[i] in s
    decreases |s|
  {
    if s == [] then []
    else if IsSpace(s[0]) then [' '] + CollapseSpace(s[LeadingSpace(s)..])
    else
      var n := NonSpaceRun(s);
      s[..n] + CollapseSpace(s[n..])
  }

  /** A non-space first character is kept in front of what the rest collapses to. */
  lemma {:induction false} CollapseHead(s: string)
    requires s != [] && !IsSpace(s[0])
    ensures CollapseSpace(s) == [s[0]] + CollapseSpace(s[1..])
  {
    var n := NonSpaceRun(s);
    var t := s[1..];
    if n == 1 {
      assert s[..n] == [s[0]];
    } else {
      var m := NonSpaceRun(t);
      assert m == n - 1;
      assert t[m..] == s[n..];
      ConsSplit(s, n, CollapseSpace(s[n..]));
    }
  }

  /** Strings that agree on their first m characters agree on every slice within them. */
  lemma PrefixSlices(s: string, x: string, m: nat, a: nat, b: nat)
    requires m <= |s| && m <= |x| && s[..m] == x[..m] && a <= b <= m
    ensures s[a..b] == x[a..b]
  {
    forall i | 0 <= i < b - a
      ensures s[a..b][i] == x[a..b][i]
    {
      assert s[a + i] == s[..m][a + i] == x[..m][a + i] == x[a + i];
    }
  }

  /** The pieces around one inserted character. */
  lemma SplitAround(r: string, a: string, c: char, b: string)
    requires r == a + [c] + b
    ensures |r| == |a| + 1 + |b| && r[..|a|] == a && r[|a|] == c && r[|a| + 1..] == b
  {
  }

  lemma ConcatAssoc(a: string, b: string, c: string)
    ensures a + b + c == a + (b + c)
  {
  }

  lemma ConsSplit(s: string, n: nat, rest: string)
    requires 1 <= n <= |s|
    ensures s[..n] + rest == [s[0]] + (s[1..][..n - 1] + rest)
  {
    assert s[..n] == [s[0]] + s[1..][..n - 1];
  }

  /** `re.sub(r"\s+", " ", s).strip()`: words separated by single spaces. */
  function CollapseAndStrip(s: string): (r: string)
    ensures r != [] ==> r[0] != ' ' && r[|r| - 1] != ' '
    ensures forall i :: 0 <= i < |r| ==> IsSpace(r[i]) ==> r[i] == ' '
    ensures forall i :: 0 <= i < |r| - 1 ==> !(r[i] == ' ' && r[i + 1] == ' ')
    ensures forall i :: 0 <= i < |r| ==> r[i] == ' ' || r[i] in s
  {
    var c := CollapseSpace(s);
    var t := Strip(c);
    StripSub(c);
    t
  }

  /** Strip returns a contiguous piece of its input. */
  lemma StripSub(s: string)
    ensures exists k :: 0 <= k <= |s| - |Strip(s)| && OccursAt(s, Strip(s), k)
  {
    var l := LeadingSpace(s);
    var r := Strip(s);
    assert r == s[l..][..|r|];
    assert s[l..l + |r|] == r;
    assert OccursAt(s, r, l);
  }

  /** Whitespace appears only as single ' ' characters between non-space text. */
  predicate SingleSpaced(s: string)
  {
    (s != [] ==> s[0] != ' ' && s[|s| - 1] != ' ')
    && (forall i :: 0 <= i < |s| ==> IsSpace(s[i]) ==> s[i] == ' ')
    && (forall i :: 0 <= i < |s| - 1 ==> !(s[i] == ' ' && s[i + 1] == ' '))
  }

  /** Collapsing leaves alone text whose whitespace is already single ' ' characters. */
  lemma {:induction false} CollapseSpaceOfSingle(s: string)
    requires forall i :: 0 <= i < |s| ==> IsSpace(s[i]) ==> s[i] == ' '
    requires forall i :: 0 <= i < |s| - 1 ==> !(s[i] == ' ' && s[i + 1] == ' ')
    ensures CollapseSpace(s) == s
    decreases |s|
  {
    if s != [] {
      if IsSpace(s[0]) {
        assert |s| > 1 ==> !IsSpace(s[1]);
        assert LeadingSpace(s) == 1;
        CollapseSpaceOfSingle(s[1..]);
        assert s == [' '] + s[1..];
      } else {
        var n := NonSpaceRun(s);
        CollapseSpaceOfSingle(s[n..]);
        assert s == s[..n] + s[n..];
      }
    }
  }

  lemma CollapseAndStripOfSingle(s: string)
    requires SingleSpaced(s)
    ensures CollapseAndStrip(s) == s
  {
    CollapseSpaceOfSingle(s);
    StripOfTrimmed(s);
  }

  /** Python's `a <= b` on strings: lexicographic order by code point. */
  predicate StrLe(a: string, b: string)
    decreases |a|
  {
    a == [] || (b != [] && (a[0] < b[0] || (a[0] == b[0] && StrLe(a[1..], b[1..]))))
  }

  lemma {:induction false} StrLeTotal(a: string, b: string)
    ensures StrLe(a, b) || StrLe(b, a)
    decreases |a|
  {
    if a != [] && b != [] && a[0] == b[0] {
      StrLeTotal(a[1..], b[1..]);
    }
  }

  lemma {:induction false} StrLeTransitive(a: string, b: string, c: string)
    requires StrLe(a, b) && StrLe(b, c)
    ensures StrLe(a, c)
    decreases |a|
  {
    if a != [] && b != [] && c != [] && a[0] == b[0] && b[0] == c[0] {
      StrLeTransitive(a[1..], b[1..], c[1..]);
    }
  }

  lemma {:induction false} StrLeAntisymmetric(a: string, b: string)
    requires StrLe(a, b) && StrLe(b, a)
    ensures a == b
    decreases |a|
  {
    if a != [] && b != [] {
      StrLeAntisymmetric(a[1..], b[1..]);
      assert a == [a[0]] + a[1..] && b == [b[0]] + b[1..];
    }
  }
}
