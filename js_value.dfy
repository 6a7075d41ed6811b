/** The dynamically typed JavaScript values that the views keep in their form
    state and read out of remote replies.  An object is the list of its own
    properties in insertion order, which is the order `Object.keys` reports and
    the order in which object spread copies them. */
module JsValue {
  import opened Base
  import opened JsString

  datatype Value =
    | Undefined
    | Null
    | Bool(b: bool)
    | Num(n: int)                             // an integral number or a BigInt
    | Str(s: string)
    | Arr(items: seq<Value>)
    | Obj(props: seq<(string, Value)>)

  type Props = seq<(string, Value)>

  /** The property names, in order. */
  function Keys(ps: Props): (ks: seq<string>)
    ensures |ks| == |ps|
    ensures forall i :: 0 <= i < |ps| ==> ks[i] == ps[i].0
  {
    if |ps| == 0 then [] else [ps[0].0] + Keys(ps[1..])
  }

  /** Property names are unique, as they are in every JavaScript object. */
  predicate Keyed(ps: Props)
  {
    forall i, j :: 0 <= i < j < |ps| ==> ps[i].0 != ps[j].0
  }

  /** `o[k]` on an object: the value of property `k`, `undefined` when absent. */
  function Get(ps: Props, k: string): (v: Value)
    ensures k !in Keys(ps) ==> v == Undefined
  {
    if |ps| == 0 then Undefined else if ps[0].0 == k then ps[0].1 else Get(ps[1..], k)
  }

  /** `{...ps, [k]: v}`: an existing property keeps its place and takes the new
      value; a new one is added at the end. */
  function Put(ps: Props, k: string, v: Value): (r: Props)
    ensures Keys(r) == if k in Keys(ps) then Keys(ps) else Keys(ps) + [k]
  {
    if |ps| == 0 then [(k, v)]
    else if ps[0].0 == k then [(k, v)] + ps[1..]
    else [ps[0]] + Put(ps[1..], k, v)
  }

  /** After `Put`, property `k` reads back the new value. */
  lemma {:induction false} GetPutSame(ps: Props, k: string, v: Value)
    ensures Get(Put(ps, k, v), k) == v
  {
    if |ps| > 0 && ps[0].0 != k {
      GetPutSame(ps[1..], k, v);
    }
  }

  /** After `Put`, every other property reads back what it was. */
  lemma {:induction false} GetPutOther(ps: Props, k: string, v: Value, k': string)
    requires k' != k
    ensures Get(Put(ps, k, v), k') == Get(ps, k')
  {
    if |ps| > 0 && ps[0].0 != k {
      GetPutOther(ps[1..], k, v, k');
    }
  }

  /** `Put` keeps property names unique. */
  lemma {:induction false} PutKeyed(ps: Props, k: string, v: Value)
    requires Keyed(ps)
    ensures Keyed(Put(ps, k, v))
  {
    var r := Put(ps, k, v);
    var ks := Keys(r);
    assert forall i :: 0 <= i < |r| ==> r[i].0 == ks[i];
    if k !in Keys(ps) {
      forall i, j | 0 <= i < j < |r|
        ensures r[i].0 != r[j].0
      {
        if j < |ps| {
          assert ks[i] == Keys(ps)[i] && ks[j] == Keys(ps)[j];
        } else {
          assert ks[j] == k && ks[i] == Keys(ps)[i];
        }
      }
    } else {
      forall i, j | 0 <= i < j < |r|
        ensures r[i].0 != r[j].0
      {
        assert ks[i] == Keys(ps)[i] && ks[j] == Keys(ps)[j];
      }
    }
  }

  /** `o.k` on any value: only objects have the properties modelled here. */
  function Field(v: Value, k: string): Value
  {
    if v.Obj? then Get(v.props, k) else Undefined
  }

  /** The own enumerable properties that `{...v}` copies: an object's properties,
      the indexed characters of a string, the indexed items of an array, and
      nothing for `null`, `undefined`, booleans and numbers. */
  function Spread(v: Value): Props
  {
    match v
    case Obj(ps) => ps
    case Str(s) => seq(|s|, i requires 0 <= i < |s| => (NatToString(i), Str([s[i]])))
    case Arr(items) => seq(|items|, i requires 0 <= i < |items| => (NatToString(i), items[i]))
    case _ => []
  }

  /** JavaScript truthiness, as `if (v)`, `v ? a : b` and `v && ...` test it. */
  predicate Truthy(v: Value)
  {
    match v
    case Undefined => false
    case Null => false
    case Bool(b) => b
    case Num(n) => n != 0
    case Str(s) => s != ""
    case _ => true
  }

  /** `String(v)`, which is also what `"text" + v` appends. */
  function Display(v: Value): string
  {
    match v
    case Undefined => "undefined"
    case Null => "null"
    case Bool(b) => if b then "true" else "false"
    case Num(n) => IntToString(n)
    case Str(s) => s
    case Obj(_) => "[object Object]"
    case Arr(items) =>
      Join(seq(|items|, i requires 0 <= i < |items| =>
             if items[i].Null? || items[i].Undefined? then "" else Display(items[i])), ',')
  }

  /** `Object.keys(v)[0]`: the first property name of an object, `"0"` for a
      non-empty string or array, and `undefined` (here `None`) otherwise. */
  function FirstKey(v: Value): Option<string>
  {
    match v
    case Obj(ps) => if |ps| > 0 then Some(ps[0].0) else None
    case Str(s) => if |s| > 0 then Some("0") else None
    case Arr(items) => if |items| > 0 then Some("0") else None
    case _ => None
  }

  /** `null` and `undefined`, on which `Object.keys(v)`, `v.toString()` and
      every property access throw a `TypeError`. */
  predicate Nullish(v: Value)
  {
    v.Null? || v.Undefined?
  }

  /** `"text" + Object.keys(v)[0]`: the key, or `"undefined"` when there is none. */
  function KeyText(v: Value): string
  {
    match FirstKey(v)
    case Some(k) => k
    case None => "undefined"
  }

  /** `Object.keys(v)[0] === tag`. */
  predicate HasTag(v: Value, tag: string)
  {
    FirstKey(v) == Some(tag)
  }

  /** The single-key object `{[tag]: null}` by which a Candid variant without a
      payload is sent. */
  function Variant(tag: string): Value
  {
    Obj([(tag, Null)])
  }

  /** A variant built from a tag reads back that tag, and no other. */
  lemma VariantTag(tag: string, other: string)
    ensures HasTag(Variant(tag), tag)
    ensures HasTag(Variant(tag), other) <==> other == tag
    ensures KeyText(Variant(tag)) == tag
  {
  }

  /** `BigInt(v)`: integers convert as they are, booleans to 0 or 1, strings by
      `ParseBigInt`, arrays through their text; objects, `null` and `undefined`
      make it throw (`None`). */
  function BigIntOf(v: Value): Option<int>
  {
    match v
    case Num(n) => Some(n)
    case Bool(b) => Some(if b then 1 else 0)
    case Str(s) => ParseBigInt(s)
    case Arr(_) => ParseBigInt(Display(v))
    case _ => None
  }

  /** An integer survives the trip through its text: `BigInt(String(n)) == n`. */
  lemma BigIntOfDisplay(n: int)
    ensures BigIntOf(Str(Display(Num(n)))) == Some(n)
  {
    IntTextRoundTrip(n);
  }
}
