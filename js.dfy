/** The fragment of JavaScript value semantics that the payment client and the
    HTTP handlers depend on: JSON-like values plus `undefined`, truthiness
    (`!x`, `a || b`), property reads (`v.k`, `v?.k`), property assignment
    (`o.k = x`), parameter defaults, `new Error(m)`, template-literal
    interpolation and the comparison `x > 0`. Numbers are integers. */
module Js {
  import opened Text

  /** An object keeps its own keys in insertion order (`keys`) beside the
      key-to-value map (`props`); `WellFormed` ties the two together. */
  datatype JsValue =
    | Undefined
    | Null
    | Bool(b: bool)
    | Num(n: int)
    | Str(s: string)
    | Obj(keys: seq<string>, props: map<string, JsValue>)

  /** What evaluating an expression or a call yields: a value, or a thrown value. */
  datatype Outcome<+T> = Returned(value: T) | Threw(error: JsValue)

  predicate Distinct(keys: seq<string>) {
    forall i, j :: 0 <= i < j < |keys| ==> keys[i] != keys[j]
  }

  /** The keys of an object are distinct and are exactly the keys of its map. */
  predicate WellFormed(v: JsValue) {
    v.Obj? ==>
      && Distinct(v.keys)
      && (forall k :: k in v.props ==> k in v.keys)
      && (forall i :: 0 <= i < |v.keys| ==> v.keys[i] in v.props)
  }

  /** An object literal with distinct keys is well formed. */
  lemma LiteralWellFormed(keys: seq<string>, props: map<string, JsValue>)
    requires Distinct(keys) && props.Keys == set k | k in keys
    ensures WellFormed(Obj(keys, props))
  {
  }

  predicate Nullish(v: JsValue) {
    v.Undefined? || v.Null?
  }

  /** JavaScript truthiness: `undefined`, `null`, `false`, `0` and `""` are falsy. */
  predicate Truthy(v: JsValue) {
    match v
    case Undefined => false
    case Null => false
    case Bool(b) => b
    case Num(n) => n != 0
    case Str(s) => s != ""
    case Obj(_, _) => true
  }

  /** `a || b` */
  function Or(a: JsValue, b: JsValue): (r: JsValue)
    ensures Truthy(a) ==> r == a
    ensures !Truthy(a) ==> r == b
    ensures Truthy(r) <==> Truthy(a) || Truthy(b)
  {
    if Truthy(a) then a else b
  }

  /** A parameter declared `p = d` takes d when the argument is `undefined`. */
  function Default(arg: JsValue, d: JsValue): (r: JsValue)
    ensures arg.Undefined? ==> r == d
    ensures !arg.Undefined? ==> r == arg
    ensures r.Undefined? <==> arg.Undefined? && d.Undefined?
  {
    if arg.Undefined? then d else arg
  }

  /** `v?.k`: an own property of an object, the length of a string, and
      `undefined` for everything else (including a nullish v). */
  function Get(v: JsValue, k: string): JsValue {
    match v
    case Obj(_, props) => if k in props then props[k] else Undefined
    case Str(s) => if k == "length" then Num(|s|) else Undefined
    case _ => Undefined
  }

  /** `k` is an own key of the object v. */
  predicate Has(v: JsValue, k: string) {
    v.Obj? && k in v.keys
  }

  /** `new Error(message)`, seen through its own `message` property. */
  function ErrorObject(message: string): (e: JsValue)
    ensures WellFormed(e) && !Nullish(e)
    ensures Get(e, "message") == Str(message) && Get(e, "response") == Undefined
  {
    Obj(["message"], map["message" := Str(message)])
  }

  /** The TypeError the engine throws for reading property k of a nullish v. */
  function TypeErrorReading(v: JsValue, k: string): JsValue {
    ErrorObject("Cannot read properties of " + (if v.Null? then "null" else "undefined")
                + " (reading '" + k + "')")
  }

  /** `v.k`: throws a TypeError when v is nullish, and reads like `v?.k` otherwise. */
  function Prop(v: JsValue, k: string): (r: Outcome<JsValue>)
    ensures r.Threw? <==> Nullish(v)
    ensures r.Returned? ==> r.value == Get(v, k)
    ensures r.Threw? ==> WellFormed(r.error) && !Nullish(r.error) && Get(r.error, "response") == Undefined
  {
    if Nullish(v) then Threw(TypeErrorReading(v, k)) else Returned(Get(v, k))
  }

  /** `o.k = x`: an existing key keeps its place, a new key goes last. */
  function Assign(o: JsValue, k: string, x: JsValue): (r: JsValue)
    requires o.Obj?
    ensures r.Obj? && Has(r, k)
    ensures Has(o, k) ==> r.keys == o.keys
    ensures !Has(o, k) ==> r.keys == o.keys + [k]
  {
    Obj(if k in o.keys then o.keys else o.keys + [k], o.props[k := x])
  }

  /** After `o.k = x`, reading k gives x and every other property reads as before. */
  lemma AssignFields(o: JsValue, k: string, x: JsValue)
    requires o.Obj?
    ensures Get(Assign(o, k, x), k) == x
    ensures forall j :: j != k ==> Get(Assign(o, k, x), j) == Get(o, j)
  {
  }

  lemma AssignWellFormed(o: JsValue, k: string, x: JsValue)
    requires o.Obj? && WellFormed(o)
    ensures WellFormed(Assign(o, k, x))
  {
    var r := Assign(o, k, x);
    if k !in o.keys {
      forall i, j | 0 <= i < j < |r.keys| ensures r.keys[i] != r.keys[j] {
        if j == |o.keys| {
          assert r.keys[i] == o.keys[i];
        }
      }
    }
  }

  /** Assigning to an existing key the value it already holds changes nothing. */
  lemma AssignSameValue(o: JsValue, k: string)
    requires o.Obj? && Has(o, k) && k in o.props
    ensures Assign(o, k, Get(o, k)) == o
  {
    assert o.props[k := o.props[k]] == o.props;
  }

  /** The string `${v}` interpolates. */
  function TemplateString(v: JsValue): string {
    match v
    case Undefined => "undefined"
    case Null => "null"
    case Bool(b) => if b then "true" else "false"
    case Num(n) => IntToString(n)
    case Str(s) => s
    case Obj(_, _) => "[object Object]"
  }

  /** `v > 0`: v is converted to a number first; a string counts only when it
      is a plain decimal numeral, and an object converts to NaN. */
  predicate GreaterThanZero(v: JsValue) {
    match v
    case Num(n) => n > 0
    case Bool(b) => b
    case Str(s) => s != "" && AllDigits(s) && ParseNat(s) > 0
    case _ => false
  }
}
