// Decoded JSON values, as the services receive them from provider responses, from
// c2patool's output and from stored reports, with the dict and list access they use.

module Json {
  import opened Common
  import opened Text

  /**
   * A decoded JSON value. An object keeps its members in order; as in a Python dict its keys
   * are meant to be distinct, and lookups read the first member with the key.
   */
  datatype Json =
    | JNull
    | JBool(b: bool)
    | JInt(i: int)
    | JReal(r: real)
    | JStr(s: string)
    | JArr(items: seq<Json>)
    | JObj(members: seq<(string, Json)>)

  /** The position of the first member named key, or -1 when there is none. */
  function KeyIndex(members: seq<(string, Json)>, key: string): (i: int)
    ensures -1 <= i < |members|
    ensures i >= 0 ==> members[i].0 == key && forall j :: 0 <= j < i ==> members[j].0 != key
    ensures i == -1 ==> forall j :: 0 <= j < |members| ==> members[j].0 != key
  {
    if members == [] then -1
    else if members[0].0 == key then 0
    else
      var r := KeyIndex(members[1..], key);
      if r == -1 then -1 else r + 1
  }

  /** `isinstance(node, dict) and key in node` */
  predicate HasKey(j: Json, key: string)
  {
    j.JObj? && KeyIndex(j.members, key) >= 0
  }

  /** `node[key]` on a dict that holds key. */
  function Member(j: Json, key: string): Json
    requires HasKey(j, key)
  {
    j.members[KeyIndex(j.members, key)].1
  }

  /** `node.get(key)` on a dict; None where node is not a dict or lacks the key. */
  function Get(j: Json, key: string): Option<Json>
  {
    if HasKey(j, key) then Some(Member(j, key)) else None
  }

  /** `dict.get`: a member that is there is found, with the value stored under its key. */
  lemma GetFindsMember(members: seq<(string, Json)>, k: nat)
    requires k < |members|
    requires forall j :: 0 <= j < k ==> members[j].0 != members[k].0
    ensures Get(JObj(members), members[k].0) == Some(members[k].1)
  {
  }

  /**
   * `node[key] = value` on a dict: the first member with the key takes the new value in its
   * place, or a new member goes last.
   */
  function SetMember(j: Json, key: string, v: Json): (r: Json)
    requires j.JObj?
    ensures r.JObj?
  {
    var i := KeyIndex(j.members, key);
    if i >= 0 then JObj(j.members[i := (key, v)]) else JObj(j.members + [(key, v)])
  }

  /** After `node[key] = value` the key reads the value and every other key reads as before. */
  lemma SetMemberGet(j: Json, key: string, v: Json, k: string)
    requires j.JObj?
    ensures Get(SetMember(j, key, v), k) == if k == key then Some(v) else Get(j, k)
  {
    var m := j.members;
    var i := KeyIndex(m, key);
    var n := SetMember(j, key, v).members;
    assert forall p :: 0 <= p < |m| ==> n[p].0 == m[p].0;
    if k == key {
      KeyIndexIs(n, key, if i >= 0 then i else |m|);
    } else {
      var e := KeyIndex(m, k);
      KeyIndexIs(n, k, e);
      if e >= 0 {
        assert n[e] == m[e];
      }
    }
  }

  /** The first position holding key, or -1 when none does, is the one `KeyIndex` finds. */
  lemma KeyIndexIs(members: seq<(string, Json)>, key: string, i: int)
    requires -1 <= i < |members|
    requires i >= 0 ==> members[i].0 == key && forall j :: 0 <= j < i ==> members[j].0 != key
    requires i == -1 ==> forall j :: 0 <= j < |members| ==> members[j].0 != key
    ensures KeyIndex(members, key) == i
  {
  }

  /** `isinstance(value, (int, float))`; a `bool` is an `int` in Python and passes. */
  predicate IsNumber(j: Json)
  {
    j.JBool? || j.JInt? || j.JReal?
  }

  /** `float(value)` for a number. */
  function NumberValue(j: Json): real
    requires IsNumber(j)
  {
    match j
    case JBool(b) => if b then 1.0 else 0.0
    case JInt(i) => i as real
    case JReal(r) => r
  }

  /** An optional value that is a number. */
  predicate IsSomeNumber(v: Option<Json>)
  {
    v.Some? && IsNumber(v.value)
  }

  /** Python truth: null, false, zero and empty strings, lists and dicts are false. */
  predicate Truthy(j: Json)
  {
    match j
    case JNull => false
    case JBool(b) => b
    case JInt(i) => i != 0
    case JReal(r) => r != 0.0
    case JStr(s) => s != []
    case JArr(items) => items != []
    case JObj(members) => members != []
  }

  /** The truth of an optional value, None being false. */
  predicate TruthySome(v: Option<Json>)
  {
    v.Some? && Truthy(v.value)
  }

  /** `a or b` on optional values: a when it is true, b otherwise. */
  function OrElse(a: Option<Json>, b: Option<Json>): Option<Json>
  {
    if TruthySome(a) then a else b
  }

  /** `value if isinstance(value, str) and value.strip() else None` */
  function AsStr(v: Option<Json>): (r: Option<string>)
    ensures r.Some? <==> v.Some? && v.value.JStr? && Strip(v.value.s) != []
    ensures r.Some? ==> r.value == v.value.s
  {
    if v.Some? && v.value.JStr? && Strip(v.value.s) != [] then Some(v.value.s) else None
  }

  /** Walks a path of keys through dicts only; None at the first key that is not there. */
  function DictPath(node: Json, keys: seq<string>): Option<Json>
    decreases |keys|
  {
    if keys == [] then Some(node)
    else if !HasKey(node, keys[0]) then None
    else DictPath(Member(node, keys[0]), keys[1..])
  }

  /** A dict path made of two parts walks the first part, then the second from where it ended. */
  lemma {:induction false} DictPathAppend(node: Json, a: seq<string>, b: seq<string>)
    ensures DictPath(node, a + b) == (match DictPath(node, a) case None => None case Some(n) => DictPath(n, b))
    decreases |a|
  {
    if a != [] {
      assert (a + b)[0] == a[0] && (a + b)[1..] == a[1..] + b;
      if HasKey(node, a[0]) {
        DictPathAppend(Member(node, a[0]), a[1..], b);
      }
    } else {
      assert a + b == b;
    }
  }
}
