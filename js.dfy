/** JavaScript values as the content layer and its callers see them: the
    shapes of CMS entries, `where` conditions, mock fixtures and envelopes,
    with JavaScript's truthiness and property access written out. */
module Js {

  datatype Option<+T> = None | Some(value: T)

  /** A JavaScript value. Numbers are integers here (no fractions, no NaN).
      An object keeps its own enumerable string keys in insertion order.
      That is the order `Object.keys` reports for keys that are not array
      indices; JavaScript lists index-like keys ("0", "1", ...) first, in
      ascending order, which this model does not do. The objects the
      accessors build have only non-index keys. `Opaque` stands for a
      nested part of a mock fixture whose text the model does not carry
      (always a non-empty record, list or string, so always truthy). */
  datatype Json =
    | Undefined
    | Null
    | Bool(b: bool)
    | Num(n: int)
    | Str(s: string)
    | Arr(items: seq<Json>)
    | Obj(fields: seq<(string, Json)>)
    | Opaque(tag: string)

  type Fields = seq<(string, Json)>

  /** JavaScript truthiness: `undefined`, `null`, `false`, `0` and `''` are
      falsy; every object and array, even an empty one, is truthy. */
  predicate Truthy(v: Json)
  {
    match v
    case Undefined => false
    case Null => false
    case Bool(b) => b
    case Num(n) => n != 0
    case Str(s) => s != ""
    case Arr(_) => true
    case Obj(_) => true
    case Opaque(_) => true
  }

  /** Truthiness of the typed optional parameters (`x?: string`, ...). */
  predicate TruthyStr(x: Option<string>) { x.Some? && x.value != "" }
  predicate TruthyNum(x: Option<int>) { x.Some? && x.value != 0 }
  predicate TruthyBool(x: Option<bool>) { x == Some(true) }

  /** The value an optional string parameter holds, as a JavaScript value. */
  function OfStr(x: Option<string>): (v: Json)
    ensures Truthy(v) <==> TruthyStr(x)
  {
    match x
    case None => Undefined
    case Some(s) => Str(s)
  }

  /** `v[0]`: `None` when the access throws a TypeError (on `undefined` and
      `null`); an absent element or property reads as `undefined`. */
  function ElementZero(v: Json): (r: Option<Json>)
    ensures r.None? <==> v.Undefined? || v.Null?
    ensures v.Arr? ==> r == Some(if |v.items| > 0 then v.items[0] else Undefined)
  {
    match v
    case Undefined => None
    case Null => None
    case Bool(_) => Some(Undefined)
    case Num(_) => Some(Undefined)
    case Str(s) => Some(if |s| > 0 then Str([s[0]]) else Undefined)
    case Arr(items) => Some(if |items| > 0 then items[0] else Undefined)
    case Obj(fields) => Some(Lookup(fields, "0"))
    // No modelled path indexes into a fixture's nested part; its element
    // is left as `undefined`.
    case Opaque(_) => Some(Undefined)
  }

  /** The keys of an object, in order. */
  function Keys(f: Fields): (ks: seq<string>)
    ensures |ks| == |f|
    ensures forall i :: 0 <= i < |f| ==> ks[i] == f[i].0
  {
    if f == [] then [] else [f[0].0] + Keys(f[1..])
  }

  predicate HasKey(f: Fields, k: string)
  {
    k in Keys(f)
  }

  /** `obj[k]`: the value of the first field named `k`, `undefined` if none. */
  function Lookup(f: Fields, k: string): (v: Json)
    ensures !HasKey(f, k) ==> v == Undefined
  {
    if f == [] then Undefined
    else if f[0].0 == k then f[0].1
    else Lookup(f[1..], k)
  }

  /** `obj[k] = v`: overwrite the field in place if the key exists, else
      append it (JavaScript keeps a property's original position). */
  function Assign(f: Fields, k: string, v: Json): Fields
  {
    if f == [] then [(k, v)]
    else if f[0].0 == k then [(k, v)] + f[1..]
    else [f[0]] + Assign(f[1..], k, v)
  }

  /** After the assignment the property reads as `v`, and every other
      property reads as before. */
  lemma {:induction false} AssignLookup(f: Fields, k: string, v: Json)
    ensures Lookup(Assign(f, k, v), k) == v
    ensures forall k' {:trigger Lookup(Assign(f, k, v), k')} :: k' != k ==>
      Lookup(Assign(f, k, v), k') == Lookup(f, k')
  {
    if f != [] && f[0].0 != k {
      AssignLookup(f[1..], k, v);
      var r := Assign(f, k, v);
      assert r[1..] == Assign(f[1..], k, v);
    }
  }

  /** A new property goes at the end; an existing one keeps its place, so
      the keys do not change. */
  lemma {:induction false} AssignShape(f: Fields, k: string, v: Json)
    ensures !HasKey(f, k) ==> Assign(f, k, v) == f + [(k, v)]
    ensures HasKey(f, k) ==> Keys(Assign(f, k, v)) == Keys(f)
  {
    if f != [] {
      assert Keys(f) == [f[0].0] + Keys(f[1..]);
      if f[0].0 == k {
        assert Keys(Assign(f, k, v)) == [k] + Keys(f[1..]);
      } else {
        AssignShape(f[1..], k, v);
        assert Keys(Assign(f, k, v)) == [f[0].0] + Keys(Assign(f[1..], k, v));
      }
    }
  }

  /** A JavaScript object never holds two properties of the same name. */
  predicate UniqueKeys(f: Fields)
  {
    forall i, j :: 0 <= i < j < |f| ==> f[i].0 != f[j].0
  }

  /** In an object, a key/value pair is present iff the key is present and
      reads as that value. */
  lemma {:induction false} PairIffLookup(f: Fields, k: string, v: Json)
    requires UniqueKeys(f)
    ensures (k, v) in f <==> HasKey(f, k) && Lookup(f, k) == v
  {
    if f != [] {
      assert UniqueKeys(f[1..]) by {
        forall i, j | 0 <= i < j < |f[1..]| ensures f[1..][i].0 != f[1..][j].0 {
          assert f[1..][i] == f[i + 1] && f[1..][j] == f[j + 1];
        }
      }
      PairIffLookup(f[1..], k, v);
      assert f == [f[0]] + f[1..];
      assert Keys(f) == [f[0].0] + Keys(f[1..]);
    }
  }

  /** Assigning a property keeps the keys unique. */
  lemma AssignKeepsUnique(f: Fields, k: string, v: Json)
    requires UniqueKeys(f)
    ensures UniqueKeys(Assign(f, k, v))
  {
    var r := Assign(f, k, v);
    AssignShape(f, k, v);
    if !HasKey(f, k) {
      forall i, j | 0 <= i < j < |r| ensures r[i].0 != r[j].0 {
        if j == |f| {
          assert Keys(f)[i] == f[i].0;
        }
      }
    } else {
      assert Keys(r) == Keys(f);
      forall i, j | 0 <= i < j < |r| ensures r[i].0 != r[j].0 {
        assert Keys(r)[i] == Keys(f)[i] && Keys(r)[j] == Keys(f)[j];
      }
    }
  }
}
