// The detection endpoints (backend/app/api/v1/detect.py): the guards each upload passes
// before a detector runs, the classification of fetched URLs, text extraction from HTML,
// and the consensus overwrite of a detector's verdict.

module DetectApi {
  import opened Common
  import opened Text
  import opened DetectionModels
  import ProviderConsensus

  // ---------------------------------------------------------------- HTML text extraction

  /** The two elements whose content is dropped with them. */
  datatype Tag = Script | Style

  /** Length of the tag's name: "script" or "style". */
  function NameLength(t: Tag): nat
  {
    match t
    case Script => 6
    case Style => 5
  }

  /** Length of the closing tag `</script>` or `</style>`. */
  function CloseLength(t: Tag): nat
  {
    NameLength(t) + 3
  }

  /** c is the ASCII letter lo or its upper-case form up. */
  predicate Letter(c: char, lo: char, up: char)
  {
    c == lo || c == up
  }

  /** The name of t starts at index j of s, compared case-insensitively. */
  predicate NameAt(s: string, j: nat, t: Tag)
  {
    match t
    case Script =>
      j + 6 <= |s| && Letter(s[j], 's', 'S') && Letter(s[j + 1], 'c', 'C') && Letter(s[j + 2], 'r', 'R')
      && Letter(s[j + 3], 'i', 'I') && Letter(s[j + 4], 'p', 'P') && Letter(s[j + 5], 't', 'T')
    case Style =>
      j + 5 <= |s| && Letter(s[j], 's', 'S') && Letter(s[j + 1], 't', 'T') && Letter(s[j + 2], 'y', 'Y')
      && Letter(s[j + 3], 'l', 'L') && Letter(s[j + 4], 'e', 'E')
  }

  /** The closing tag of t starts at index j of s. */
  predicate CloseAt(s: string, j: nat, t: Tag)
  {
    j + CloseLength(t) <= |s| && s[j] == '<' && s[j + 1] == '/' && NameAt(s, j + 2, t)
    && s[j + 2 + NameLength(t)] == '>'
  }

  /** The element opening at index i: a '<' and a name, `script` tried before `style`. */
  function OpenTagAt(s: string, i: nat): Option<Tag>
  {
    if i < |s| && s[i] == '<' then
      if NameAt(s, i + 1, Script) then Some(Script)
      else if NameAt(s, i + 1, Style) then Some(Style)
      else None
    else None
  }

  /** Some '>' lies at an index in [a, b). */
  predicate GtBetween(s: string, a: nat, b: nat)
  {
    exists g :: a <= g < b && g < |s| && s[g] == '>'
  }

  /** Index of the first c in s at or after k, or |s|. */
  function FindChar(s: string, c: char, k: nat): (i: nat)
    requires k <= |s|
    ensures k <= i <= |s|
    ensures i < |s| ==> s[i] == c
    decreases |s| - k
  {
    if k == |s| || s[k] == c then k else FindChar(s, c, k + 1)
  }

  /** FindChar finds the first c: there is none before it. */
  lemma {:induction false} FindCharFirst(s: string, c: char, k: nat)
    requires k <= |s|
    ensures forall j :: k <= j < FindChar(s, c, k) ==> s[j] != c
    decreases |s| - k
  {
    if k < |s| && s[k] != c {
      FindCharFirst(s, c, k + 1);
    }
  }

  /** Index of the first closing tag of t in s at or after k, or |s|. */
  function FindClose(s: string, t: Tag, k: nat): (i: nat)
    requires k <= |s|
    ensures k <= i <= |s|
    ensures i < |s| ==> CloseAt(s, i, t)
    decreases |s| - k
  {
    if k == |s| then |s|
    else if CloseAt(s, k, t) then k
    else FindClose(s, t, k + 1)
  }

  /** FindClose finds the first closing tag: there is none before it. */
  lemma {:induction false} FindCloseFirst(s: string, t: Tag, k: nat)
    requires k <= |s|
    ensures forall j :: k <= j < FindClose(s, t, k) ==> !CloseAt(s, j, t)
    decreases |s| - k
  {
    if k < |s| && !CloseAt(s, k, t) {
      FindCloseFirst(s, t, k + 1);
    }
  }

  /**
   * Length of the match of `(?is)<(script|style).*?>.*?</\1>` at index i of s: the open tag
   * up to its first '>', then everything up to the first closing tag of the same name.
   */
  function ElementAt(s: string, i: nat): (k: Option<nat>)
    ensures k.Some? ==> 0 < k.value && i + k.value <= |s| && s[i] == '<'
  {
    match OpenTagAt(s, i)
    case None => None
    case Some(t) =>
      var gt := FindChar(s, '>', i + 1 + NameLength(t));
      if gt == |s| then None
      else
        var at := FindClose(s, t, gt + 1);
        if at == |s| then None else Some(at + CloseLength(t) - i)
  }

  /** The parts of a matched element: the first '>' after the name and its closing tag. */
  lemma {:induction false} ElementParts(s: string, i: nat) returns (t: Tag, g: nat, at: nat)
    requires ElementAt(s, i).Some?
    ensures OpenTagAt(s, i) == Some(t) && i + 1 + NameLength(t) <= g < at && g < |s| && s[g] == '>'
    ensures CloseAt(s, at, t) && ElementAt(s, i).value == at + CloseLength(t) - i
    ensures forall j :: i + 1 + NameLength(t) <= j < g ==> s[j] != '>'
    ensures forall j :: g < j < at ==> !CloseAt(s, j, t)
  {
    t := OpenTagAt(s, i).value;
    g := FindChar(s, '>', i + 1 + NameLength(t));
    FindCharFirst(s, '>', i + 1 + NameLength(t));
    at := FindClose(s, t, g + 1);
    FindCloseFirst(s, t, g + 1);
  }

  /** A '>' after the name followed by the closing tag makes a match. */
  lemma {:induction false} ElementFrom(s: string, i: nat, t: Tag, g: nat, j: nat)
    requires OpenTagAt(s, i) == Some(t) && i + 1 + NameLength(t) <= g < j && g < |s| && s[g] == '>'
    requires CloseAt(s, j, t)
    ensures ElementAt(s, i).Some?
  {
    var gt := FindChar(s, '>', i + 1 + NameLength(t));
    FindCharFirst(s, '>', i + 1 + NameLength(t));
    assert gt <= g;
    var at := FindClose(s, t, gt + 1);
    FindCloseFirst(s, t, gt + 1);
    assert at <= j;
  }

  /**
   * An element is matched at i exactly when one opens there and some '>' after the name is
   * followed by the closing tag of that name.
   */
  lemma {:induction false} ElementAtMeaning(s: string, i: nat)
    ensures ElementAt(s, i).Some? <==>
      OpenTagAt(s, i).Some? &&
      exists j: nat :: GtBetween(s, i + 1 + NameLength(OpenTagAt(s, i).value), j) && CloseAt(s, j, OpenTagAt(s, i).value)
  {
    if ElementAt(s, i).Some? {
      var t, g, at := ElementParts(s, i);
      assert GtBetween(s, i + 1 + NameLength(t), at);
    }
    if OpenTagAt(s, i).Some? {
      var t := OpenTagAt(s, i).value;
      var n := i + 1 + NameLength(t);
      if exists j: nat :: GtBetween(s, n, j) && CloseAt(s, j, t) {
        var j: nat :| GtBetween(s, n, j) && CloseAt(s, j, t);
        var g :| n <= g < j && g < |s| && s[g] == '>';
        ElementFrom(s, i, t, g, j);
      }
    }
  }

  /**
   * A match ends with the first closing tag that has a '>' between the name and itself: no
   * earlier closing tag does.
   */
  lemma {:induction false} ElementAtEnd(s: string, i: nat)
    requires ElementAt(s, i).Some?
    ensures
      var t := OpenTagAt(s, i).value;
      var n := i + 1 + NameLength(t);
      var at := i + ElementAt(s, i).value - CloseLength(t);
      n <= at && CloseAt(s, at, t) && GtBetween(s, n, at) &&
      forall j: nat :: n <= j < at && GtBetween(s, n, j) ==> !CloseAt(s, j, t)
  {
    var t, g, at := ElementParts(s, i);
    var n := i + 1 + NameLength(t);
    assert GtBetween(s, n, at);
    forall j: nat | n <= j < at && GtBetween(s, n, j) ensures !CloseAt(s, j, t) {
      var h :| n <= h < j && h < |s| && s[h] == '>';
    }
  }

  /** The first substitution, from index i on: each script or style element becomes one space. */
  function RemoveFrom(s: string, i: nat): string
    requires i <= |s|
    decreases |s| - i
  {
    if i == |s| then []
    else match ElementAt(s, i)
      case Some(k) => " " + RemoveFrom(s, i + k)
      case None => [s[i]] + RemoveFrom(s, i + 1)
  }

  /** `re.sub(r"(?is)<(script|style).*?>.*?</\1>", " ", html)`. */
  function RemoveElements(s: string): string
  {
    RemoveFrom(s, 0)
  }

  /** Every character of the substitution's result is a replacing space or comes from s. */
  lemma {:induction false} RemoveFromChars(s: string, i: nat)
    requires i <= |s|
    ensures forall n :: 0 <= n < |RemoveFrom(s, i)| ==> RemoveFrom(s, i)[n] == ' ' || RemoveFrom(s, i)[n] in s
    decreases |s| - i
  {
    if i < |s| {
      var next := if ElementAt(s, i).Some? then i + ElementAt(s, i).value else i + 1;
      RemoveFromChars(s, next);
    }
  }

  /** No script or style element starts anywhere in r. */
  predicate ElementFree(r: string)
  {
    forall i :: 0 <= i < |r| ==> ElementAt(r, i).None?
  }

  /** Index of the first element at or after p in t, or |t|. */
  function FirstElementFrom(t: string, p: nat): (q: nat)
    requires p <= |t|
    ensures p <= q <= |t|
    ensures q < |t| ==> ElementAt(t, q).Some?
    ensures forall j :: p <= j < q ==> ElementAt(t, j).None?
    decreases |t| - p
  {
    if p == |t| || ElementAt(t, p).Some? then p else FirstElementFrom(t, p + 1)
  }

  /** Characters where no element starts pass through the substitution unchanged. */
  lemma {:induction false} KeptRun(t: string, p: nat, q: nat)
    requires p <= q <= |t|
    requires forall j :: p <= j < q ==> ElementAt(t, j).None?
    ensures RemoveFrom(t, p) == t[p..q] + RemoveFrom(t, q)
    decreases q - p
  {
    if p < q {
      KeptRun(t, p + 1, q);
      assert t[p..q] == [t[p]] + t[p + 1..q];
      ConcatAssoc([t[p]], t[p + 1..q], RemoveFrom(t, q));
    }
  }

  /**
   * From index p, the text is kept up to the first element, at q, which becomes one space;
   * or, when no element follows p, all of it is kept.
   */
  lemma {:induction false} NextElement(t: string, p: nat) returns (q: nat, k: nat, h: nat)
    requires p <= |t|
    ensures p <= q <= |t|
    ensures q == |t| ==> RemoveFrom(t, p) == t[p..q]
    ensures q < |t| ==> 1 <= h < k && q + k <= |t| && t[q + h] == '>'
    ensures q < |t| ==> RemoveFrom(t, p) == t[p..q] + " " + RemoveFrom(t, q + k)
  {
    q := FirstElementFrom(t, p);
    KeptRun(t, p, q);
    if q < |t| {
      k := ElementAt(t, q).value;
      h := ElementGt(t, q);
      ConcatAssoc(t[p..q], " ", RemoveFrom(t, q + k));
    } else {
      k, h := 0, 0;
      assert t[p..q] + [] == t[p..q];
    }
  }

  /** A matched element has a '>' at offset h inside it. */
  lemma {:induction false} ElementGt(t: string, q: nat) returns (h: nat)
    requires ElementAt(t, q).Some?
    ensures 1 <= h < ElementAt(t, q).value && t[q + h] == '>'
  {
    var _, g, _ := ElementParts(t, q);
    h := g - q;
  }

  /** A closing tag holds no ' '. */
  lemma {:induction false} CloseNoSpace(x: string, j: nat, t: Tag)
    requires CloseAt(x, j, t)
    ensures forall m :: j <= m < j + CloseLength(t) ==> x[m] != ' '
  {
  }

  /** A closing tag found in a piece of s is found in s, shifted. */
  lemma {:induction false} CloseInSlice(s: string, p: nat, q: nat, j: nat, t: Tag)
    requires p <= q <= |s| && CloseAt(s[p..q], j, t)
    ensures CloseAt(s, p + j, t)
  {
    forall m | j <= m < j + CloseLength(t) ensures s[p..q][m] == s[p + m] { }
  }

  /** A closing tag found in a + " " + b lies within a or within b. */
  lemma {:induction false} CloseAroundSpace(r: string, a: string, b: string, t: Tag, j: nat) returns (inA: bool, jb: nat)
    requires r == a + " " + b && CloseAt(r, j, t)
    ensures inA ==> CloseAt(a, j, t)
    ensures !inA ==> j == |a| + 1 + jb && CloseAt(b, jb, t)
  {
    inA, jb := j + CloseLength(t) <= |a|, if j > |a| then j - |a| - 1 else 0;
    CloseNoSpace(r, j, t);
    assert r[|a|] == ' ';
    if j + CloseLength(t) <= |a| {
      forall m | j <= m < j + CloseLength(t) ensures r[m] == a[m] { }
    } else {
      forall m | j <= m < j + CloseLength(t) ensures r[m] == b[m - |a| - 1] { }
    }
  }

  /**
   * A closing tag found in what s becomes from index a on was already in s at or after a:
   * the replacing spaces make none.
   */
  lemma {:induction false} CloseSurvives(s: string, a: nat, t: Tag, j: nat) returns (j': nat)
    requires a <= |s| && CloseAt(RemoveFrom(s, a), j, t)
    ensures a <= j' && CloseAt(s, j', t)
    decreases |s| - a
  {
    var found, b, jb;
    found, j', b, jb := CloseStep(s, a, t, j);
    if !found {
      j' := CloseSurvives(s, b, t, jb);
    }
  }

  /**
   * One step of CloseSurvives: the closing tag lies in the text kept up to the next element,
   * or in what the text after that element becomes.
   */
  lemma {:induction false} CloseStep(s: string, a: nat, t: Tag, j: nat) returns (found: bool, j': nat, b: nat, jb: nat)
    requires a <= |s| && CloseAt(RemoveFrom(s, a), j, t)
    ensures found ==> a <= j' && CloseAt(s, j', t)
    ensures !found ==> a < b <= |s| && CloseAt(RemoveFrom(s, b), jb, t)
  {
    var q, k, _ := NextElement(s, a);
    b, jb := 0, 0;
    if q == |s| {
      CloseInSlice(s, a, q, j, t);
      found, j' := true, a + j;
    } else {
      var kept, rest := s[a..q], RemoveFrom(s, q + k);
      var inKept, jr := CloseAroundSpace(RemoveFrom(s, a), kept, rest, t, j);
      if inKept {
        CloseInSlice(s, a, q, j, t);
        found, j' := true, a + j;
      } else {
        found, j', b, jb := false, 0, q + k, jr;
      }
    }
  }

  /** Two strings that agree on m characters, from index i of s and 0 of x, open alike. */
  lemma {:induction false} SameOpening(s: string, i: nat, x: string, m: nat)
    requires i + m <= |s| && m <= |x| && forall d :: 0 <= d < m ==> s[i + d] == x[d]
    requires OpenTagAt(x, 0).Some? && 1 + NameLength(OpenTagAt(x, 0).value) <= m
    ensures OpenTagAt(s, i) == OpenTagAt(x, 0)
  {
    assert s[i] == x[0] && s[i + 1] == x[1] && s[i + 2] == x[2] && s[i + 3] == x[3];
    assert s[i + 4] == x[4] && s[i + 5] == x[5];
    if OpenTagAt(x, 0) == Some(Script) {
      assert s[i + 6] == x[6];
    }
  }

  /** The name of an element opening in front of a space lies before that space. */
  lemma {:induction false} OpeningBeforeSpace(s: string, i: nat, x: string, m: nat)
    requires i + m <= |s| && m < |x| && x[m] == ' ' && forall d :: 0 <= d < m ==> s[i + d] == x[d]
    requires OpenTagAt(x, 0).Some?
    ensures 1 + NameLength(OpenTagAt(x, 0).value) <= m && OpenTagAt(s, i) == OpenTagAt(x, 0)
  {
    assert m != 0 && m != 1 && m != 2 && m != 3 && m != 4 && m != 5;
    if OpenTagAt(x, 0) == Some(Script) {
      assert m != 6;
    }
    SameOpening(s, i, x, m);
  }

  /** The kept piece in front of the space agrees with the input character by character. */
  lemma {:induction false} KeptAgree(s: string, i: nat, q: nat, tail: string, x: string)
    requires i <= q <= |s| && x == s[i..q] + " " + tail
    ensures q - i < |x| && x[q - i] == ' ' && forall d :: 0 <= d < q - i ==> s[i + d] == x[d]
  {
    forall d | 0 <= d < q - i ensures s[i + d] == x[d] {
      assert x[d] == s[i..q][d];
    }
  }

  /**
   * An element that opens at a kept '<' at index i and runs past the space of the element
   * removed at q was an element of the input: its name lies before that space, and its
   * closing tag either lies before it too or was in the input after the removed element,
   * whose '>' at q + h then serves.
   */
  lemma {:induction false} ElementAcrossSpace(s: string, i: nat, q: nat, k: nat, h: nat, x: string)
    requires i < q && 1 <= h < k && q + k <= |s| && s[q + h] == '>'
    requires x == s[i..q] + " " + RemoveFrom(s, q + k)
    requires ElementAt(x, 0).Some?
    ensures ElementAt(s, i).Some?
  {
    var kept, tail := s[i..q], RemoveFrom(s, q + k);
    var t, g, j := ElementParts(x, 0);
    KeptAgree(s, i, q, tail, x);
    OpeningBeforeSpace(s, i, x, q - i);
    var inKept, jr := CloseAroundSpace(x, kept, tail, t, j);
    if inKept {
      CloseBeforeSpace(s, i, q, x, t, g, j);
    } else {
      CloseAfterSpace(s, i, q, k, h, t, jr);
    }
  }

  /** An element whose closing tag lies after the removed one was an element of the input. */
  lemma {:induction false} CloseAfterSpace(s: string, i: nat, q: nat, k: nat, h: nat, t: Tag, j: nat)
    requires i < q && 1 <= h < k && q + k <= |s| && s[q + h] == '>'
    requires OpenTagAt(s, i) == Some(t) && i + 1 + NameLength(t) <= q
    requires CloseAt(RemoveFrom(s, q + k), j, t)
    ensures ElementAt(s, i).Some?
  {
    var j' := CloseSurvives(s, q + k, t, j);
    ElementFrom(s, i, t, q + h, j');
  }

  /** An element whose closing tag lies in the kept piece was an element of the input. */
  lemma {:induction false} CloseBeforeSpace(s: string, i: nat, q: nat, x: string, t: Tag, g: nat, j: nat)
    requires i < q <= |s| && q - i < |x| && forall d :: 0 <= d < q - i ==> s[i + d] == x[d]
    requires OpenTagAt(s, i) == Some(t) && 1 + NameLength(t) <= g < j && g < |x| && x[g] == '>'
    requires CloseAt(s[i..q], j, t)
    ensures ElementAt(s, i).Some?
  {
    CloseInSlice(s, i, q, j, t);
    assert j + CloseLength(t) <= q - i;
    assert s[i + g] == x[g];
    ElementFrom(s, i, t, i + g, i + j);
  }

  /** The character at i in front of the rest of the input opens no element the input lacks. */
  lemma {:induction false} HeadElement(s: string, i: nat)
    requires i < |s|
    ensures ElementAt([s[i]] + RemoveFrom(s, i + 1), 0).Some? ==> ElementAt(s, i).Some?
  {
    var x := [s[i]] + RemoveFrom(s, i + 1);
    if ElementAt(x, 0).Some? {
      var q, k, h := NextElement(s, i + 1);
      if q == |s| {
        HeadKept(s, i, x);
      } else {
        HeadJoin(s, i, q, RemoveFrom(s, q + k));
        ElementAcrossSpace(s, i, q, k, h, x);
      }
    }
  }

  /** With nothing removed after it, the character at i sees the input as it is. */
  lemma {:induction false} HeadKept(s: string, i: nat, x: string)
    requires i < |s| && x == [s[i]] + s[i + 1..]
    ensures ElementAt(x, 0) == ElementAt(s, i)
  {
    assert x == s[i..];
    ElementAtShift(s[..i], s[i..], 0);
    assert s[..i] + s[i..] == s;
  }

  /** The character at i in front of a kept piece and what follows it. */
  lemma {:induction false} HeadJoin(s: string, i: nat, q: nat, tail: string)
    requires i < q <= |s|
    ensures [s[i]] + (s[i + 1..q] + " " + tail) == s[i..q] + " " + tail
  {
    assert s[i..q] == [s[i]] + s[i + 1..q];
    ConcatAssoc([s[i]], s[i + 1..q], " ");
    ConcatAssoc([s[i]], s[i + 1..q] + " ", tail);
  }

  /** A closing tag is found behind a prefix exactly where it is found without it, shifted. */
  lemma {:induction false} CloseShift(c: string, x: string, j: nat, t: Tag)
    ensures CloseAt(c + x, |c| + j, t) <==> CloseAt(x, j, t)
  {
    forall n | j <= n < j + CloseLength(t) && n < |x| ensures (c + x)[|c| + n] == x[n] { }
  }

  lemma {:induction false} FindCharShift(c: string, x: string, ch: char, k: nat)
    requires k <= |x|
    ensures FindChar(c + x, ch, |c| + k) == |c| + FindChar(x, ch, k)
    decreases |x| - k
  {
    if k < |x| {
      assert (c + x)[|c| + k] == x[k];
      FindCharShift(c, x, ch, k + 1);
    }
  }

  lemma {:induction false} FindCloseShift(c: string, x: string, t: Tag, k: nat)
    requires k <= |x|
    ensures FindClose(c + x, t, |c| + k) == |c| + FindClose(x, t, k)
    decreases |x| - k
  {
    if k < |x| {
      CloseShift(c, x, k, t);
      FindCloseShift(c, x, t, k + 1);
    }
  }

  /** The element opening at j does not depend on what lies before it. */
  lemma {:induction false} OpenTagShift(c: string, x: string, j: nat)
    ensures OpenTagAt(c + x, |c| + j) == OpenTagAt(x, j)
  {
    forall n | j <= n <= j + 6 && n < |x| ensures (c + x)[|c| + n] == x[n] { }
  }

  /** Whether an element is matched at an index does not depend on what lies before it. */
  lemma {:induction false} ElementAtShift(c: string, x: string, j: nat)
    requires j <= |x|
    ensures ElementAt(c + x, |c| + j) == ElementAt(x, j)
  {
    OpenTagShift(c, x, j);
    if OpenTagAt(x, j).Some? {
      ScanShift(c, x, j, OpenTagAt(x, j).value);
    }
  }

  /** The '>' and the closing tag after an opening are found at the same places behind a prefix. */
  lemma {:induction false} ScanShift(c: string, x: string, j: nat, t: Tag)
    requires OpenTagAt(x, j) == Some(t)
    ensures FindChar(c + x, '>', |c| + j + 1 + NameLength(t)) == |c| + FindChar(x, '>', j + 1 + NameLength(t))
    ensures var gt := FindChar(x, '>', j + 1 + NameLength(t));
      gt < |x| ==> FindClose(c + x, t, |c| + gt + 1) == |c| + FindClose(x, t, gt + 1)
  {
    FindCharShift(c, x, '>', j + 1 + NameLength(t));
    var gt := FindChar(x, '>', j + 1 + NameLength(t));
    if gt < |x| {
      FindCloseShift(c, x, t, gt + 1);
    }
  }

  /** No element starts at the head of what the substitution makes of s from index i on. */
  lemma {:induction false} HeadFree(s: string, i: nat)
    requires i < |s|
    ensures ElementAt(RemoveFrom(s, i), 0).None?
  {
    if ElementAt(s, i).None? {
      HeadElement(s, i);
    }
  }

  /** No script or style element is left once the substitution has run from index i on. */
  lemma {:induction false} RemoveFromLeavesNone(s: string, i: nat)
    requires i <= |s|
    ensures ElementFree(RemoveFrom(s, i))
    decreases |s| - i
  {
    if i < |s| {
      var r := RemoveFrom(s, i);
      var c := if ElementAt(s, i).Some? then " " else [s[i]];
      var next := if ElementAt(s, i).Some? then i + ElementAt(s, i).value else i + 1;
      var rest := RemoveFrom(s, next);
      assert r == c + rest;
      RemoveFromLeavesNone(s, next);
      HeadFree(s, i);
      forall j | 1 <= j < |r| ensures ElementAt(r, j).None? {
        ElementAtShift(c, rest, j - 1);
      }
    }
  }

  /**
   * No script or style element is left once the first substitution has run: a replacing space
   * neither joins an opening to a closing tag nor makes one, since neither holds a space.
   */
  lemma {:induction false} RemoveElementsLeavesNone(s: string)
    ensures ElementFree(RemoveElements(s))
  {
    RemoveFromLeavesNone(s, 0);
  }

  /**
   * No tag is left: a '<' is followed by '>' at once (the empty `<>`, which `<[^>]+>` does
   * not match) or by no '>' at all.
   */
  predicate TagFree(r: string)
  {
    forall i, g :: 0 <= i < g < |r| && r[i] == '<' && r[g] == '>' ==> r[i + 1] == '>'
  }

  /** The second substitution, `(?s)<[^>]+>` to one space: every tag is removed. */
  function RemoveTags(s: string): (r: string)
    ensures TagFree(r)
    ensures '>' in r ==> '>' in s
    ensures s != [] && s[0] != '<' ==> r != [] && r[0] == s[0]
    ensures forall i :: 0 <= i < |r| ==> r[i] == ' ' || r[i] in s
    decreases |s|
  {
    if s == [] then []
    else
      var gt := IndexOf(s, '>');
      if s[0] == '<' && 2 <= gt < |s| then
        var rest := RemoveTags(s[gt + 1..]);
        TagFreeCons(' ', rest);
        " " + rest
      else
        var rest := RemoveTags(s[1..]);
        UnmatchedOpen(s);
        TagFreeCons(s[0], rest);
        [s[0]] + rest
  }

  /** A '<' that starts no tag has its '>' right after it, or none after it. */
  lemma {:induction false} UnmatchedOpen(s: string)
    requires s != [] && !(s[0] == '<' && 2 <= IndexOf(s, '>') < |s|)
    ensures s[0] == '<' ==> (|s| > 1 && s[1] == '>') || '>' !in s[1..]
  {
    if s[0] == '<' && '>' in s[1..] {
      var g :| 0 <= g < |s[1..]| && s[1..][g] == '>';
      assert s[1 + g] == '>';
    }
  }

  /** A character in front of tag-free text keeps it tag-free when it is not an unclosed '<'. */
  lemma {:induction false} TagFreeCons(c: char, r: string)
    requires TagFree(r)
    requires c == '<' ==> (r != [] && r[0] == '>') || '>' !in r
    ensures TagFree([c] + r)
  {
    var t := [c] + r;
    forall i, g | 0 <= i < g < |t| && t[i] == '<' && t[g] == '>' ensures t[i + 1] == '>' {
      assert t[g] == r[g - 1];
      if i > 0 {
        assert t[i] == r[i - 1] && t[i + 1] == r[i];
      }
    }
  }

  /** A suffix of tag-free text is tag-free. */
  lemma {:induction false} TagFreeSuffix(s: string, a: nat)
    requires a <= |s| && TagFree(s)
    ensures TagFree(s[a..])
  {
    var t := s[a..];
    forall i, g | 0 <= i < g < |t| && t[i] == '<' && t[g] == '>' ensures t[i + 1] == '>' {
      assert t[i] == s[a + i] && t[g] == s[a + g] && t[i + 1] == s[a + i + 1];
    }
  }

  /** A prefix of tag-free text is tag-free. */
  lemma {:induction false} TagFreePrefix(s: string, b: nat)
    requires b <= |s| && TagFree(s)
    ensures TagFree(s[..b])
  {
    var t := s[..b];
    forall i, g | 0 <= i < g < |t| && t[i] == '<' && t[g] == '>' ensures t[i + 1] == '>' {
      assert t[i] == s[i] && t[g] == s[g] && t[i + 1] == s[i + 1];
    }
  }

  /** Collapsing whitespace keeps text tag-free: it neither moves nor adds '<' or '>'. */
  lemma {:induction false} CollapseSpaceTagFree(s: string)
    requires TagFree(s)
    ensures TagFree(CollapseSpace(s))
    decreases |s|
  {
    if s != [] {
      if IsSpace(s[0]) {
        var l := LeadingSpace(s);
        TagFreeSuffix(s, l);
        CollapseSpaceTagFree(s[l..]);
        CollapseSpaceStep(s);
      } else {
        TagFreeSuffix(s, 1);
        CollapseSpaceTagFree(s[1..]);
        CollapseCharStep(s);
      }
    }
  }

  /** A run of whitespace in front collapses to one space, which is no '<'. */
  lemma {:induction false} CollapseSpaceStep(s: string)
    requires s != [] && IsSpace(s[0]) && TagFree(CollapseSpace(s[LeadingSpace(s)..]))
    ensures TagFree(CollapseSpace(s))
  {
    TagFreeCons(' ', CollapseSpace(s[LeadingSpace(s)..]));
  }

  /** A kept first character keeps the collapsed rest tag-free. */
  lemma {:induction false} CollapseCharStep(s: string)
    requires s != [] && !IsSpace(s[0]) && TagFree(s) && TagFree(CollapseSpace(s[1..]))
    ensures TagFree(CollapseSpace(s))
  {
    var c := CollapseSpace(s[1..]);
    CollapseHead(s);
    if s[0] == '<' {
      if |s| > 1 && s[1] == '>' {
        CollapseHead(s[1..]);
      } else {
        NoGtAfter(s);
      }
    }
    TagFreeCons(s[0], c);
  }

  /** A '<' at the head of tag-free text not followed at once by '>' has no '>' after it. */
  lemma {:induction false} NoGtAfter(s: string)
    requires s != [] && s[0] == '<' && TagFree(s) && !(|s| > 1 && s[1] == '>')
    ensures '>' !in CollapseSpace(s[1..])
  {
    var c := CollapseSpace(s[1..]);
    forall n | 0 <= n < |c| ensures c[n] != '>' {
      if c[n] != ' ' {
        var g :| 0 <= g < |s[1..]| && s[1..][g] == c[n];
        assert s[1 + g] == c[n];
      }
    }
  }

  /** `re.sub(r"\s+", " ", ...).strip()` keeps text tag-free. */
  lemma {:induction false} CollapseAndStripTagFree(s: string)
    requires TagFree(s)
    ensures TagFree(CollapseAndStrip(s))
  {
    var c := CollapseSpace(s);
    CollapseSpaceTagFree(s);
    TagFreeSuffix(c, LeadingSpace(c));
    var l := LStrip(c);
    TagFreePrefix(l, |RStrip(l)|);
  }

  /** A matched element has its name's first letter right after the '<', and a '>' later. */
  lemma {:induction false} ElementNeedsGt(s: string, i: nat)
    ensures ElementAt(s, i).Some? ==>
      i + 1 < |s| && s[i + 1] != '>' && exists g :: i + 1 < g < |s| && s[g] == '>'
  {
    if ElementAt(s, i).Some? {
      var t, g, _ := ElementParts(s, i);
    }
  }

  /** Tag-free text holds no script or style element. */
  lemma {:induction false} TagFreeNoElement(r: string)
    requires TagFree(r)
    ensures ElementFree(r)
  {
    forall i | 0 <= i < |r| ensures ElementAt(r, i).None? {
      ElementNeedsGt(r, i);
    }
  }

  /**
   * `_extract_text_from_html`: elements, then tags dropped, then whitespace collapsed. What is
   * left holds no tag and no script or style element.
   */
  function ExtractText(html: string): (text: string)
    ensures SingleSpaced(text)
    ensures TagFree(text) && ElementFree(text)
    ensures forall i :: 0 <= i < |text| ==> text[i] == ' ' || text[i] in html
  {
    var r := CollapseAndStrip(RemoveTags(RemoveElements(html)));
    ExtractedTagFree(html);
    ExtractedChars(html, r);
    r
  }

  /** The extraction's result holds no tag and no element. */
  lemma {:induction false} ExtractedTagFree(html: string)
    ensures TagFree(CollapseAndStrip(RemoveTags(RemoveElements(html))))
    ensures ElementFree(CollapseAndStrip(RemoveTags(RemoveElements(html))))
  {
    CollapseAndStripTagFree(RemoveTags(RemoveElements(html)));
    TagFreeNoElement(CollapseAndStrip(RemoveTags(RemoveElements(html))));
  }

  /** Every character of the extraction's result is a space or comes from the page. */
  lemma {:induction false} ExtractedChars(html: string, r: string)
    requires r == CollapseAndStrip(RemoveTags(RemoveElements(html)))
    ensures forall i :: 0 <= i < |r| ==> r[i] == ' ' || r[i] in html
  {
    var t := RemoveTags(RemoveElements(html));
    RemoveFromChars(html, 0);
    assert forall i :: 0 <= i < |r| ==> r[i] == ' ' || r[i] in t;
  }

  /** Text without markup passes the first substitution unchanged from index i on. */
  lemma {:induction false} NoMarkupKept(s: string, i: nat)
    requires i <= |s| && '<' !in s
    ensures RemoveFrom(s, i) == s[i..]
    decreases |s| - i
  {
    if i < |s| {
      NoMarkupKept(s, i + 1);
      assert s[i..] == [s[i]] + s[i + 1..];
    }
  }

  /** Text without markup passes the two substitutions unchanged. */
  lemma {:induction false} NoMarkupUnchanged(s: string)
    requires '<' !in s
    ensures RemoveElements(s) == s && RemoveTags(s) == s
    decreases |s|
  {
    NoMarkupKept(s, 0);
    NoTagKept(s);
  }

  lemma {:induction false} NoTagKept(s: string)
    requires '<' !in s
    ensures RemoveTags(s) == s
    decreases |s|
  {
    if s != [] {
      assert '<' !in s[1..];
      NoTagKept(s[1..]);
      assert s == [s[0]] + s[1..];
    }
  }

  /** Plain text is only whitespace-collapsed by the extraction. */
  lemma PlainTextExtract(s: string)
    requires '<' !in s
    ensures ExtractText(s) == CollapseAndStrip(s)
  {
    NoMarkupUnchanged(s);
  }

  /** Extracting twice is extracting once: the second pass finds no markup left to remove. */
  lemma ExtractAgainOnlyCollapses(html: string)
    requires '<' !in html
    ensures ExtractText(ExtractText(html)) == ExtractText(html)
  {
    var t := ExtractText(html);
    assert '<' !in t;
    PlainTextExtract(t);
    CollapseAndStripOfSingle(t);
  }

  // ---------------------------------------------------------------- file names from URLs

  const DefaultImageName := "downloaded_image"

  /**
   * `_filename_from_url` on the URL's path: the last segment once trailing '/' are removed,
   * "downloaded_image" when nothing is left.
   */
  function FilenameFromPath(path: string): (name: string)
    ensures name != [] && '/' !in name
    ensures name != DefaultImageName ==> EndsWith(RStripChar(path, '/'), name)
  {
    var trimmed := RStripChar(path, '/');
    if trimmed == [] then DefaultImageName
    else
      var last := LastPart(trimmed, '/');
      SplitLastIsSuffix(trimmed, '/');
      if last == [] then DefaultImageName else last
  }

  /** A path that ends in a file keeps the file's name. */
  lemma FilenameOfFile(dir: string, file: string)
    requires file != [] && '/' !in file && file[|file| - 1] != '/'
    ensures FilenameFromPath(dir + "/" + file) == file
  {
    var p := dir + "/" + file;
    assert p[|p| - 1] == file[|file| - 1];
    assert RStripChar(p, '/') == p;
    SplitTail(dir, file);
  }

  lemma {:induction false} SplitTail(dir: string, file: string)
    requires '/' !in file
    ensures LastPart(dir + "/" + file, '/') == file
    decreases |dir|
  {
    var s := dir + "/" + file;
    assert s[|dir|] == '/';
    var i := IndexOf(s, '/');
    assert i <= |dir|;
    LastPartOfRest(s, '/');
    if i == |dir| {
      assert s[i + 1..] == file;
      SplitWithout(file, '/');
    } else {
      assert s[i] == dir[i];
      var d := dir[i + 1..];
      assert s[i + 1..] == d + "/" + file;
      SplitTail(d, file);
    }
  }


  // ---------------------------------------------------------------- upload guards

  /** Why an endpoint answers 400. */
  datatype Rejection =
    | EmptyText
    | TextTooLong
    | InvalidFileType
    | EmptyUpload
    | TooLarge
    | FetchFailed
    | UpstreamStatus(code: int)
    | NoText
    | UnsupportedContent(contentType: string)

  const MiB := 1024 * 1024

  /** `detect_text`'s guards: blank text, then text longer than the maximum. */
  function CheckText(text: string, maxTextLength: int): (r: Result<string, Rejection>)
    ensures r == Err(EmptyText) <==> IsBlank(text)
    ensures r == Err(TextTooLong) <==> !IsBlank(text) && |text| > maxTextLength
    ensures r.Ok? <==> !IsBlank(text) && |text| <= maxTextLength
    ensures r.Ok? ==> r.value == text
  {
    StripEmptyIffBlank(text);
    if Strip(text) == [] then Err(EmptyText)
    else if |text| > maxTextLength then Err(TextTooLong)
    else Ok(text)
  }

  /** The content type is one of the listed ones; a missing type is not. */
  predicate Listed(contentType: Option<string>, types: seq<string>)
  {
    contentType.Some? && contentType.value in types
  }

  /** `name.lower().endswith(extensions)` */
  predicate HasExtension(name: string, extensions: seq<string>)
  {
    exists k :: 0 <= k < |extensions| && EndsWith(Lower(name), extensions[k])
  }

  function AnyEndsWith(name: string, extensions: seq<string>): (b: bool)
    ensures b <==> exists k :: 0 <= k < |extensions| && EndsWith(name, extensions[k])
  {
    if extensions == [] then false
    else EndsWith(name, extensions[0]) || AnyEndsWith(name, extensions[1..])
  }

  /** `file.filename or default` */
  function NameOr(filename: Option<string>, default: string): string
  {
    if filename.Some? && filename.value != [] then filename.value else default
  }

  /**
   * An upload's guards, in order: a listed content type (or, where extensions are given, a
   * file name with one of them), a non-empty body, a body within the size limit. The result
   * is the file name the detector sees.
   */
  function CheckUpload(contentType: Option<string>, filename: Option<string>, size: nat, types: seq<string>,
                       extensions: seq<string>, defaultName: string, maxBytes: int): (r: Result<string, Rejection>)
    ensures var typed := Listed(contentType, types) || HasExtension(NameOr(filename, defaultName), extensions);
      (r == Err(InvalidFileType) <==> !typed) &&
      (r == Err(EmptyUpload) <==> typed && size == 0) &&
      (r == Err(TooLarge) <==> typed && size > 0 && size > maxBytes) &&
      (r.Ok? <==> typed && 0 < size <= maxBytes)
    ensures r.Ok? ==> r.value == NameOr(filename, defaultName)
  {
    var name := NameOr(filename, defaultName);
    if !(Listed(contentType, types) || AnyEndsWith(Lower(name), extensions)) then Err(InvalidFileType)
    else if size == 0 then Err(EmptyUpload)
    else if size > maxBytes then Err(TooLarge)
    else Ok(name)
  }

  const ImageTypes := ["image/png", "image/jpeg", "image/jpg", "image/webp"]
  const AudioTypes := ["audio/wav", "audio/x-wav", "audio/wave", "audio/vnd.wave", "audio/vnd.wav"]
  const AudioExtensions := [".wav"]
  const VideoTypes := ["video/mp4", "video/webm", "video/quicktime", "video/x-msvideo", "video/x-matroska"]
  const VideoExtensions := [".mp4", ".webm", ".mov", ".avi", ".mkv"]

  /** `detect_image`: only the four image types; the file name defaults to "unknown". */
  function CheckImage(contentType: Option<string>, filename: Option<string>, size: nat, maxImageMb: int)
    : (r: Result<string, Rejection>)
    ensures r == Err(InvalidFileType) <==> !Listed(contentType, ImageTypes)
    ensures r.Ok? <==> Listed(contentType, ImageTypes) && 0 < size <= maxImageMb * MiB
    ensures r.Ok? ==> r.value == NameOr(filename, "unknown")
  {
    CheckUpload(contentType, filename, size, ImageTypes, [], "unknown", maxImageMb * MiB)
  }

  /** `detect_audio`: a WAV type, or a name ending in ".wav"; the name defaults to "unknown.wav". */
  function CheckAudio(contentType: Option<string>, filename: Option<string>, size: nat, maxAudioMb: int)
    : (r: Result<string, Rejection>)
    ensures var typed := Listed(contentType, AudioTypes) || EndsWith(Lower(NameOr(filename, "unknown.wav")), ".wav");
      (r == Err(InvalidFileType) <==> !typed) && (r.Ok? <==> typed && 0 < size <= maxAudioMb * MiB)
    ensures r.Ok? ==> r.value == NameOr(filename, "unknown.wav")
  {
    CheckUpload(contentType, filename, size, AudioTypes, AudioExtensions, "unknown.wav", maxAudioMb * MiB)
  }

  /** `detect_video`: a listed video type or extension; the name defaults to "unknown.mp4". */
  function CheckVideo(contentType: Option<string>, filename: Option<string>, size: nat, maxVideoMb: int)
    : (r: Result<string, Rejection>)
    ensures var typed := Listed(contentType, VideoTypes) || HasExtension(NameOr(filename, "unknown.mp4"), VideoExtensions);
      (r == Err(InvalidFileType) <==> !typed) && (r.Ok? <==> typed && 0 < size <= maxVideoMb * MiB)
    ensures r.Ok? ==> r.value == NameOr(filename, "unknown.mp4")
  {
    CheckUpload(contentType, filename, size, VideoTypes, VideoExtensions, "unknown.mp4", maxVideoMb * MiB)
  }

  /** An image needs a listed content type: no file name makes up for a missing one. */
  lemma ImageNeedsType(filename: Option<string>, size: nat, maxImageMb: int)
    ensures CheckImage(None, filename, size, maxImageMb) == Err(InvalidFileType)
  {
  }

  /** An audio upload without a content type is still accepted by a ".wav" name. */
  lemma AudioByName(name: string, size: nat, maxAudioMb: int)
    requires name != [] && EndsWith(Lower(name), ".wav")
    requires 0 < size <= maxAudioMb * MiB
    ensures CheckAudio(None, Some(name), size, maxAudioMb) == Ok(name)
  {
    assert EndsWith(Lower(name), AudioExtensions[0]);
  }

  // ---------------------------------------------------------------- URL detection

  /** `headers.get("content-type", "").split(";")[0].strip().lower()` */
  function MediaType(header: Option<string>): (m: string)
    ensures header.None? ==> m == ""
    ensures header.Some? && ';' !in header.value ==> m == Lower(Strip(header.value))
    ensures ';' !in m && forall i :: 0 <= i < |m| ==> !IsUpper(m[i])
    ensures m != [] ==> !IsSpace(m[0]) && !IsSpace(m[|m| - 1])
  {
    var h := if header.Some? then header.value else "";
    var parts := Split(h, ';');
    MediaTypeShape(parts[0]);
    Lower(Strip(parts[0]))
  }

  /** A stripped, lower-cased part without ';' keeps no ';', no upper case and no edge space. */
  lemma MediaTypeShape(p: string)
    requires ';' !in p
    ensures var m := Lower(Strip(p));
      ';' !in m && (forall i :: 0 <= i < |m| ==> !IsUpper(m[i])) && (m != [] ==> !IsSpace(m[0]) && !IsSpace(m[|m| - 1]))
  {
    var t := Strip(p);
    var m := Lower(t);
    var l := LStrip(p);
    forall i | 0 <= i < |m| ensures m[i] != ';' {
      assert t[i] == l[i] == p[LeadingSpace(p) + i];
    }
    if m != [] {
      LowerKeepsSpace(t[0]);
      LowerKeepsSpace(t[|t| - 1]);
    }
  }

  datatype UrlKind = ImageUrl | TextUrl | UnsupportedUrl

  const ImageExtensions := [".png", ".jpg", ".jpeg", ".webp", ".gif", ".bmp"]

  /**
   * How `detect_from_url` treats a response: by its media type when there is one (an image
   * type wins over a text-like one), otherwise by the path's extension, falling back to text.
   */
  function ClassifyUrl(mediaType: string, path: string): (k: UrlKind)
    ensures mediaType == "" ==> k != UnsupportedUrl
    ensures mediaType == "" ==> (k == ImageUrl <==> AnyEndsWith(Lower(path), ImageExtensions))
    ensures mediaType != "" ==> (k == ImageUrl <==> StartsWith(mediaType, "image/"))
    ensures mediaType != "" ==> (k == TextUrl <==> !StartsWith(mediaType, "image/") && TextLike(mediaType))
  {
    var isImage := if mediaType == "" then AnyEndsWith(Lower(path), ImageExtensions) else StartsWith(mediaType, "image/");
    var isText := if mediaType == "" then !isImage
                  else StartsWith(mediaType, "text/") || ContainsStr(mediaType, "json") || ContainsStr(mediaType, "xml");
    if isImage then ImageUrl else if isText then TextUrl else UnsupportedUrl
  }

  /** A media type `detect_from_url` reads as text. */
  predicate TextLike(mediaType: string)
  {
    StartsWith(mediaType, "text/") || ContainsStr(mediaType, "json") || ContainsStr(mediaType, "xml")
  }

  /** What the fetch of the URL gave: a transport error, or a response. */
  datatype Fetch =
    | FetchError
    | Fetched(status: int, contentType: Option<string>, resolvedPath: string, bodySize: nat, bodyText: string)

  /** What `detect_from_url` goes on to detect. */
  datatype UrlJob = ImageJob(filename: string) | TextJob(text: string)

  /** The text of a text response: extracted when it is HTML, then whitespace-collapsed. */
  function UrlText(mediaType: string, body: string): (t: string)
    ensures SingleSpaced(t)
    ensures ContainsStr(mediaType, "html") ==> t == ExtractText(body)
    ensures '<' !in body ==> t == CollapseAndStrip(body)
  {
    var extracted := if ContainsStr(mediaType, "html") then ExtractText(body) else body;
    CollapseAndStripOfSingle(ExtractText(body));
    if '<' !in body then PlainTextExtract(body); CollapseAndStrip(extracted)
    else CollapseAndStrip(extracted)
  }

  /**
   * `detect_from_url` up to the detector: a failed fetch or an error status is rejected; an
   * image must fit the image limit; a text must leave something after extraction and is cut
   * to the maximum length.
   */
  function UrlPlan(f: Fetch, maxImageMb: int, maxTextLength: nat): (r: Result<UrlJob, Rejection>)
    ensures f.FetchError? ==> r == Err(FetchFailed)
    ensures f.Fetched? && f.status >= 400 ==> r == Err(UpstreamStatus(f.status))
    ensures r.Ok? && r.value.ImageJob? ==>
      ClassifyUrl(MediaType(f.contentType), f.resolvedPath) == ImageUrl && f.bodySize <= maxImageMb * MiB &&
      r.value.filename == FilenameFromPath(f.resolvedPath)
    ensures r.Ok? && r.value.TextJob? ==>
      var full := UrlText(MediaType(f.contentType), f.bodyText);
      full != [] && r.value.text == Take(full, maxTextLength) && |r.value.text| <= maxTextLength &&
      (maxTextLength > 0 ==> r.value.text != [])
    ensures f.Fetched? && f.status < 400 && ClassifyUrl(MediaType(f.contentType), f.resolvedPath) == UnsupportedUrl ==>
      r == Err(UnsupportedContent(MediaType(f.contentType)))
    ensures f.Fetched? && f.status < 400 && ClassifyUrl(MediaType(f.contentType), f.resolvedPath) == ImageUrl ==>
      r == if f.bodySize > maxImageMb * MiB then Err(TooLarge) else Ok(ImageJob(FilenameFromPath(f.resolvedPath)))
    ensures f.Fetched? && f.status < 400 && ClassifyUrl(MediaType(f.contentType), f.resolvedPath) == TextUrl ==>
      var full := UrlText(MediaType(f.contentType), f.bodyText);
      r == if full == [] then Err(NoText) else Ok(TextJob(Take(full, maxTextLength)))
  {
    match f
    case FetchError => Err(FetchFailed)
    case Fetched(status, header, path, size, body) =>
      if status >= 400 then Err(UpstreamStatus(status))
      else
        var ct := MediaType(header);
        match ClassifyUrl(ct, path)
        case ImageUrl =>
          if size > maxImageMb * MiB then Err(TooLarge) else Ok(ImageJob(FilenameFromPath(path)))
        case TextUrl =>
          var t := UrlText(ct, body);
          if t == [] then Err(NoText) else Ok(TextJob(Take(t, maxTextLength)))
        case UnsupportedUrl => Err(UnsupportedContent(if ct == "" then "unknown" else ct))
  }

  // ---------------------------------------------------------------- consensus overwrite

  /** The fields `_apply_consensus` touches on a detection response. */
  class DetectionResponse {
    var confidence: real
    var isAiGenerated: bool
    var modelPrediction: Option<AIModel>
    var consensus: Option<ProviderConsensus.ConsensusSummary>

    constructor (confidence: real, isAiGenerated: bool, modelPrediction: Option<AIModel>)
      ensures this.confidence == confidence && this.isAiGenerated == isAiGenerated
      ensures this.modelPrediction == modelPrediction && consensus.None?
    {
      this.confidence := confidence;
      this.isAiGenerated := isAiGenerated;
      this.modelPrediction := modelPrediction;
      consensus := None;
    }

    /** An AI verdict names a model. */
    predicate Attributed()
      reads this
    {
      isAiGenerated ==> modelPrediction.Some?
    }

    /**
     * `_apply_consensus`: the consensus replaces the confidence and the verdict; a response
     * turned AI without a model is attributed to the unknown model; a named model stays.
     */
    method ApplyConsensus(c: ProviderConsensus.ConsensusSummary)
      modifies this
      ensures consensus == Some(c) && confidence == c.finalProbability && isAiGenerated == c.isAiGenerated
      ensures old(modelPrediction).Some? ==> modelPrediction == old(modelPrediction)
      ensures old(modelPrediction).None? ==> modelPrediction == if c.isAiGenerated then Some(UnknownModel) else None
      ensures Attributed()
    {
      consensus := Some(c);
      confidence := c.finalProbability;
      isAiGenerated := c.isAiGenerated;
      if isAiGenerated && modelPrediction.None? {
        modelPrediction := Some(UnknownModel);
      }
    }
  }
}
