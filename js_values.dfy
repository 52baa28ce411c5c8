/**
 * The JavaScript values that cross the provider's public surface: call
 * arguments, JSON-RPC payloads, results and the public-config snapshot.
 *
 * Numbers are integers (NaN and fractions are not modelled). Objects are
 * finite maps of own properties; an array carries its elements only, and a
 * function is an opaque identity. JavaScript's `===` is modelled by
 * structural equality, which agrees with it on every primitive value.
 */
module JsValues {
  import opened Wrappers

  datatype JsValue =
    | Undefined
    | Null
    | Bool(b: bool)
    | Num(n: int)
    | Str(s: string)
    | Arr(elems: seq<JsValue>)
    | Obj(props: map<string, JsValue>)
    | Fn(id: nat)

  /** JavaScript truthiness: `if (v)`. */
  predicate Truthy(v: JsValue) {
    match v
    case Undefined => false
    case Null => false
    case Bool(b) => b
    case Num(n) => n != 0
    case Str(s) => s != ""
    case _ => true
  }

  /** The `typeof` operator; note that `typeof null` is "object". */
  function TypeOf(v: JsValue): string {
    match v
    case Undefined => "undefined"
    case Null => "object"
    case Bool(_) => "boolean"
    case Num(_) => "number"
    case Str(_) => "string"
    case Arr(_) => "object"
    case Obj(_) => "object"
    case Fn(_) => "function"
  }

  /** `Array.isArray(v)`. */
  predicate IsArray(v: JsValue) {
    v.Arr?
  }

  /** Values whose property access throws a TypeError. */
  predicate IsNullish(v: JsValue) {
    v.Undefined? || v.Null?
  }

  /**
   * Reading `v[key]` for a key other than an array index: None stands for the
   * TypeError thrown on `undefined` and `null`; values other than plain
   * objects have no own properties in this model.
   */
  function GetProp(v: JsValue, key: string): (r: Option<JsValue>)
    ensures r.None? <==> IsNullish(v)
    ensures v.Obj? ==> r == Some(if key in v.props then v.props[key] else Undefined)
  {
    match v
    case Undefined => None
    case Null => None
    case Obj(m) => Some(if key in m then m[key] else Undefined)
    case _ => Some(Undefined)
  }

  /**
   * The assignment `v[key] = x` on a value whose property access does not
   * throw; outside strict mode an assignment to a primitive is dropped.
   */
  function SetProp(v: JsValue, key: string, x: JsValue): (r: JsValue)
    requires !IsNullish(v)
    ensures !IsNullish(r) && TypeOf(r) == TypeOf(v)
    ensures GetProp(r, key) == if v.Obj? then Some(x) else GetProp(v, key)
    ensures v.Obj? ==> r.Obj? && r.props.Keys == v.props.Keys + {key}
    ensures v.Obj? ==> forall k :: k in v.props && k != key ==> r.props[k] == v.props[k]
  {
    match v
    case Obj(m) => Obj(m[key := x])
    case _ => v
  }

  /** Reading `accounts[0]`: None stands for the TypeError on `undefined` and `null`. */
  function FirstElement(v: JsValue): (r: Option<JsValue>)
    ensures r.None? <==> IsNullish(v)
    ensures v.Arr? ==> r == Some(if |v.elems| > 0 then v.elems[0] else Undefined)
  {
    match v
    case Undefined => None
    case Null => None
    case Arr(e) => Some(if |e| > 0 then e[0] else Undefined)
    case Str(s) => Some(if |s| > 0 then Str([s[0]]) else Undefined)
    case Obj(m) => Some(if "0" in m then m["0"] else Undefined)
    case _ => Some(Undefined)
  }
}
