/**
  Decoded JSON values as Python's json module hands them to the scripts, Python dicts as
  association lists in insertion order, and the Python operations on them that the scripts use.
  */
module Json {
  import opened Text

  datatype Option<+T> = None | Some(value: T)

  /**
    A decoded JSON value. An object is a Python dict: its fields in insertion order, which is
    the order of the document. A float is kept as its value and never computed with.
    */
  datatype Json =
    | JNull
    | JBool(b: bool)
    | JInt(i: int)
    | JFloat(r: real)
    | JStr(s: string)
    | JArr(items: seq<Json>)
    | JObj(fields: seq<(string, Json)>)

  /** The Python exceptions the scripts raise on values of an unexpected shape. */
  datatype Exc = AttributeError | KeyError | TypeError

  /** A Python computation that either returns a value or raises. */
  datatype Result<+T> = Ok(value: T) | Raises(exc: Exc)

  /** Python's truth value (`bool(x)`) of a decoded value. */
  predicate Truthy(j: Json) {
    match j
    case JNull => false
    case JBool(b) => b
    case JInt(i) => i != 0
    case JFloat(r) => r != 0.0
    case JStr(s) => s != []
    case JArr(xs) => xs != []
    case JObj(fs) => fs != []
  }

  /** Python's `a or b`: the first operand when it is truthy, otherwise the second. */
  function Or(a: Json, b: Json): (r: Json)
    ensures Truthy(r) <==> Truthy(a) || Truthy(b)
    ensures Truthy(a) ==> r == a
  {
    if Truthy(a) then a else b
  }

  function Keys<K, V>(d: seq<(K, V)>): (ks: seq<K>)
    ensures |ks| == |d| && forall i :: 0 <= i < |d| ==> ks[i] == d[i].0
  {
    seq(|d|, i requires 0 <= i < |d| => d[i].0)
  }

  /** What a Python dict guarantees of its keys. */
  predicate DistinctKeys<K(==), V>(d: seq<(K, V)>) {
    forall i, j :: 0 <= i < j < |d| ==> d[i].0 != d[j].0
  }

  /** The position of key `k` in `d`, or -1 when `k` is not a key. */
  function Find<K(==), V>(d: seq<(K, V)>, k: K): (i: int)
    ensures -1 <= i < |d|
    ensures i == -1 <==> k !in Keys(d)
    ensures i >= 0 ==> d[i].0 == k && forall j :: 0 <= j < i ==> d[j].0 != k
  {
    if d == [] then -1
    else if d[0].0 == k then 0
    else var i := Find(d[1..], k); if i == -1 then -1 else i + 1
  }

  /** `k in d` and `d[k]` together: the value stored under `k`, if any. */
  function Lookup<K(==), V>(d: seq<(K, V)>, k: K): (r: Option<V>)
    ensures r.None? <==> k !in Keys(d)
  {
    var i := Find(d, k);
    if i < 0 then None else Some(d[i].1)
  }

  /** `d.get(k, default)` on a dict. */
  function GetOr<K(==), V>(d: seq<(K, V)>, k: K, default: V): V {
    match Lookup(d, k)
    case Some(v) => v
    case None => default
  }

  /** `d[k] = v`: an existing key keeps its position and takes the new value; a new key is appended. */
  function Put<K(==), V>(d: seq<(K, V)>, k: K, v: V): seq<(K, V)> {
    if d == [] then [(k, v)]
    else if d[0].0 == k then [(k, v)] + d[1..]
    else [d[0]] + Put(d[1..], k, v)
  }

  /** `d[k] = v` keeps the keys, or appends the new one. */
  lemma {:induction false} PutKeys<K, V>(d: seq<(K, V)>, k: K, v: V)
    ensures k in Keys(d) ==> Keys(Put(d, k, v)) == Keys(d)
    ensures k !in Keys(d) ==> Keys(Put(d, k, v)) == Keys(d) + [k]
  {
    if d != [] {
      assert d == [d[0]] + d[1..];
      ConsKeys(d[0], d[1..]);
      if d[0].0 == k {
        ConsKeys((k, v), d[1..]);
      } else {
        PutKeys(d[1..], k, v);
        ConsKeys(d[0], Put(d[1..], k, v));
      }
    }
  }

  /** `d[k] = v` for a new key appends the entry at the end. */
  lemma {:induction false} PutAppends<K, V>(d: seq<(K, V)>, k: K, v: V)
    requires k !in Keys(d)
    ensures Put(d, k, v) == d + [(k, v)]
  {
    if d != [] {
      assert d == [d[0]] + d[1..];
      ConsKeys(d[0], d[1..]);
      PutAppends(d[1..], k, v);
      assert [d[0]] + (d[1..] + [(k, v)]) == d + [(k, v)];
    }
  }

  /** `d[k] = v` keeps a dict's keys distinct. */
  lemma PutDistinct<K, V>(d: seq<(K, V)>, k: K, v: V)
    requires DistinctKeys(d)
    ensures DistinctKeys(Put(d, k, v))
  {
    PutKeys(d, k, v);
    var r := Put(d, k, v);
    assert Keys(r) == Keys(d) || Keys(r) == Keys(d) + [k];
    forall i, j | 0 <= i < j < |r| ensures r[i].0 != r[j].0 {
      assert Keys(r)[i] == r[i].0 && Keys(r)[j] == r[j].0;
      if j < |d| {
        assert Keys(d)[i] == d[i].0 && Keys(d)[j] == d[j].0;
      } else {
        assert Keys(d)[i] == d[i].0;
      }
    }
  }

  /** After `d[k] = v`, `k` holds `v` and every other key holds what it held. */
  lemma {:induction false} PutLookup<K, V>(d: seq<(K, V)>, k: K, v: V, k': K)
    ensures Lookup(Put(d, k, v), k') == if k' == k then Some(v) else Lookup(d, k')
  {
    if d == [] {
      ConsLookup((k, v), [], k');
    } else {
      assert d == [d[0]] + d[1..];
      ConsLookup(d[0], d[1..], k');
      if d[0].0 == k {
        ConsLookup((k, v), d[1..], k');
      } else {
        PutLookup(d[1..], k, v, k');
        ConsLookup(d[0], Put(d[1..], k, v), k');
      }
    }
  }

  lemma ConsKeys<K, V>(x: (K, V), d: seq<(K, V)>)
    ensures Keys([x] + d) == [x.0] + Keys(d)
  {
  }

  lemma ConsLookup<K, V>(x: (K, V), d: seq<(K, V)>, k: K)
    ensures Lookup([x] + d, k) == if x.0 == k then Some(x.1) else Lookup(d, k)
  {
    assert ([x] + d)[1..] == d;
  }

  /** Python's `x.get(k, default)`: only a dict has `get`. */
  function DictGet(x: Json, k: string, default: Json): (r: Result<Json>)
    ensures r.Raises? <==> !x.JObj?
    ensures r.Raises? ==> r.exc == AttributeError
    ensures x.JObj? ==> r.value == GetOr(x.fields, k, default)
  {
    if x.JObj? then Ok(GetOr(x.fields, k, default)) else Raises(AttributeError)
  }

  /** Python's `x[k]` with a string key: a dict without `k` raises KeyError, a non-dict TypeError. */
  function Subscript(x: Json, k: string): (r: Result<Json>)
    ensures r.Ok? <==> x.JObj? && k in Keys(x.fields)
    ensures r.Ok? ==> Lookup(x.fields, k) == Some(r.value)
    ensures r.Raises? ==> r.exc == if x.JObj? then KeyError else TypeError
  {
    if !x.JObj? then Raises(TypeError)
    else match Lookup(x.fields, k)
      case Some(v) => Ok(v)
      case None => Raises(KeyError)
  }

  /** Python's `k in x` for a string `k`: a key of a dict, an element of a list, a substring of a string. */
  function Contains(x: Json, k: string): (r: Result<bool>)
    ensures r.Raises? <==> !(x.JObj? || x.JArr? || x.JStr?)
    ensures x.JObj? ==> r == Ok(k in Keys(x.fields))
    ensures x.JArr? ==> r == Ok(JStr(k) in x.items)
    ensures x.JStr? ==> r == Ok(IsSubstring(k, x.s))
  {
    match x
    case JObj(fs) => Ok(k in Keys(fs))
    case JArr(xs) => Ok(JStr(k) in xs)
    case JStr(s) => Ok(IsSubstring(k, s))
    case _ => Raises(TypeError)
  }

  /** Python's `for e in x`: a list's items, a dict's keys, a string's characters. */
  function Iterate(x: Json): (r: Result<seq<Json>>)
    ensures r.Raises? <==> !(x.JObj? || x.JArr? || x.JStr?)
    ensures x.JArr? ==> r == Ok(x.items)
    ensures x.JObj? ==> (r.Ok? && |r.value| == |x.fields| &&
                         forall i :: 0 <= i < |x.fields| ==> r.value[i] == JStr(x.fields[i].0))
    ensures x.JStr? ==> (r.Ok? && |r.value| == |x.s| &&
                         forall i :: 0 <= i < |x.s| ==> r.value[i] == JStr([x.s[i]]))
  {
    match x
    case JArr(xs) => Ok(xs)
    case JObj(fs) => Ok(seq(|fs|, i requires 0 <= i < |fs| => JStr(fs[i].0)))
    case JStr(s) => Ok(seq(|s|, i requires 0 <= i < |s| => JStr([s[i]])))
    case _ => Raises(TypeError)
  }

  /**
    The library functions the scripts call whose results the model does not compute:
    `repr` of a float, list or dict; `json.dumps` compact and with `indent=2`;
    `urllib.parse.urlencode` of a list of pairs; base64 encoding of a string.
    */
  datatype PyLib = PyLib(
    repr: Json -> string,
    dumps: Json -> string,
    dumpsIndented: Json -> string,
    urlencode: seq<(Json, Json)> -> string,
    b64encode: string -> string)

  /** Python's `str(x)` (as used inside f-strings) on a decoded value. */
  function Str(x: Json, lib: PyLib): (r: string)
    ensures x.JStr? ==> r == x.s
    ensures x.JNull? ==> r == "None"
    ensures x.JBool? ==> r == if x.b then "True" else "False"
    ensures x.JInt? ==> r == IntToString(x.i)
  {
    match x
    case JNull => "None"
    case JBool(b) => if b then "True" else "False"
    case JInt(i) => IntToString(i)
    case JStr(s) => s
    case _ => lib.repr(x)
  }
}
