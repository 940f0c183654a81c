/** JavaScript values as the request pipeline sees them: the payloads that
    handlers pass to the response formatter, and JavaScript's notion of
    truthiness that the example controller branches on. */
module Js {

  datatype Option<+T> = None | Some(value: T)

  /** A JavaScript value. Numbers are modelled as exact reals with a separate
      NaN, which is enough to decide truthiness; `-0` and `0` coincide. */
  datatype Value =
    | Undefined
    | Null
    | Bool(b: bool)
    | Number(x: real)
    | NaN
    | BigInt(i: int)
    | Str(s: string)
    | Object(properties: map<string, Value>)

  /** ECMAScript ToBoolean: the falsy values are undefined, null, false,
      0, NaN, 0n and the empty string; every object is truthy. */
  predicate Truthy(v: Value)
    ensures v.Object? ==> Truthy(v)
    ensures v.Str? ==> (Truthy(v) <==> |v.s| > 0)
  {
    match v
    case Undefined => false
    case Null => false
    case Bool(b) => b
    case Number(x) => x != 0.0
    case NaN => false
    case BigInt(i) => i != 0
    case Str(s) => s != ""
    case Object(_) => true
  }

  /** `JSON.stringify` accepts the value: it holds no BigInt at any depth.
      (Every other value here serializes; objects are trees, so there are no
      cycles.) */
  predicate Serializable(v: Value)
    ensures v.BigInt? ==> !Serializable(v)
    ensures !v.BigInt? && !v.Object? ==> Serializable(v)
  {
    match v
    case BigInt(_) => false
    case Object(properties) => forall k :: k in properties ==> Serializable(properties[k])
    case _ => true
  }

  /** The falsy values, listed: exactly seven values are falsy. */
  lemma FalsyValues(v: Value)
    ensures !Truthy(v) <==> v in {Undefined, Null, Bool(false), Number(0.0), NaN, BigInt(0), Str("")}
  {
  }

  /** A non-vacuity witness for the truthy-but-unserializable case: a non-zero
      BigInt, alone or inside an object, is truthy yet does not serialize. */
  lemma TruthyButNotSerializable(i: int)
    requires i != 0
    ensures Truthy(BigInt(i)) && !Serializable(BigInt(i))
    ensures var obj := Object(map["value" := BigInt(i)]);
            Truthy(obj) && !Serializable(obj)
  {
    var obj := Object(map["value" := BigInt(i)]);
    assert obj.properties["value"] == BigInt(i);
  }

  /** Any object with a property that does not serialize is truthy and does
      not serialize itself, however deep the BigInt sits. */
  lemma UnserializableProperty(properties: map<string, Value>, k: string)
    requires k in properties && !Serializable(properties[k])
    ensures Truthy(Object(properties)) && !Serializable(Object(properties))
  {
  }
}
