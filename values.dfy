/**
 * The untyped data a widget receives: a JavaScript value as it comes out of
 * `response.json()` or a GraphQL client, plus `undefined`. An object is the
 * sequence of its own properties in enumeration order, which is also the
 * order of `Object.keys` and `Object.entries`.
 */
module Values {
  import opened Wrappers
  import opened Strings

  datatype Value =
    | Undefined
    | Null
    | Bool(b: bool)
    | Num(n: real)
    | Str(s: string)
    | Arr(items: seq<Value>)
    | Obj(entries: seq<(string, Value)>)

  /** `v === null || v === undefined`: the values `??` replaces and `?.` stops at. */
  predicate IsNullish(v: Value) {
    v.Undefined? || v.Null?
  }

  /** The `typeof` operator. */
  function TypeOf(v: Value): (t: string)
    ensures t == "object" <==> v.Null? || v.Arr? || v.Obj?
    ensures t == "undefined" <==> v.Undefined?
  {
    match v
    case Undefined => "undefined"
    case Null => "object"
    case Bool(_) => "boolean"
    case Num(_) => "number"
    case Str(_) => "string"
    case Arr(_) => "object"
    case Obj(_) => "object"
  }

  /** The value of the first property named `key`, if there is one. */
  function Lookup(entries: seq<(string, Value)>, key: string): (r: Option<Value>)
    ensures r.None? <==> forall i :: 0 <= i < |entries| ==> entries[i].0 != key
    ensures r.Some? ==> exists i :: 0 <= i < |entries| && entries[i] == (key, r.value)
                                     && forall j :: 0 <= j < i ==> entries[j].0 != key
  {
    if entries == [] then None
    else if entries[0].0 == key then Some(entries[0].1)
    else Lookup(entries[1..], key)
  }

  function KeysOf(entries: seq<(string, Value)>): (keys: seq<string>)
    ensures |keys| == |entries|
    ensures forall i :: 0 <= i < |entries| ==> keys[i] == entries[i].0
  {
    seq(|entries|, i requires 0 <= i < |entries| => entries[i].0)
  }

  /** `Object.keys(v)` for an object or an array: an array's keys are its index numerals. */
  function OwnKeys(v: Value): (keys: seq<string>)
    requires v.Obj? || v.Arr?
    ensures v.Obj? ==> keys == KeysOf(v.entries)
    ensures v.Arr? ==> |keys| == |v.items| && forall i :: 0 <= i < |v.items| ==> keys[i] == DecimalText(i)
  {
    if v.Obj? then KeysOf(v.entries)
    else seq(|v.items|, i requires 0 <= i < |v.items| => DecimalText(i))
  }

  /**
   * The property access `v[key]` on a value that is neither null nor
   * undefined (on those two it throws). A string's indices read its
   * characters. Properties a value inherits (`length`, prototype methods)
   * are not part of the model and read as undefined.
   */
  function Prop(v: Value, key: string): (r: Value)
    requires !IsNullish(v)
    ensures v.Obj? ==> r == Lookup(v.entries, key).GetOr(Undefined)
    ensures v.Arr? ==> r == Undefined || r in v.items
    ensures v.Str? ==> r == Undefined || (r.Str? && |r.s| == 1 && r.s[0] in v.s)
    ensures v.Bool? || v.Num? ==> r == Undefined
  {
    match v
    case Obj(entries) => Lookup(entries, key).GetOr(Undefined)
    case Arr(items) =>
      var k := ParseIndex(key);
      if k.Some? && k.value < |items| then items[k.value] else Undefined
    case Str(s) =>
      var k := ParseIndex(key);
      if k.Some? && k.value < |s| then Str([s[k.value]]) else Undefined
    case _ => Undefined
  }

  /** An array's element i is found under the numeral of i, and under no other key. */
  lemma ArrayPropAtIndex(items: seq<Value>, key: string, i: nat)
    requires i < |items|
    ensures key == DecimalText(i) ==> Prop(Arr(items), key) == items[i]
    ensures ParseIndex(key) == Some(i) ==> key == DecimalText(i)
  {
    if key == DecimalText(i) {
      DecimalTextParses(i);
    }
    if ParseIndex(key) == Some(i) {
      ParsedIndexIsCanonical(key);
    }
  }

  /** A key that an object has no property for reads as undefined. */
  lemma MissingPropIsUndefined(entries: seq<(string, Value)>, key: string)
    requires forall i :: 0 <= i < |entries| ==> entries[i].0 != key
    ensures Prop(Obj(entries), key) == Undefined
  {
  }
}
