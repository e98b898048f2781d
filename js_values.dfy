/**
 * JavaScript values, as far as the test runner looks at them.
 *
 * The runner inspects thrown values and records through a handful of
 * language operations: truthiness (`x || d`), property reads (`e.code`,
 * `data.actual`), strict equality with string literals and
 * `Object.prototype.toString`. This module gives each of them a definition.
 */
module JsValues {

  datatype Option<T> = None | Some(value: T)

  /**
   * A JavaScript value. Numbers are finite reals (both zeros are `Num(0.0)`)
   * or `NaN`; an object carries the tag that `Object.prototype.toString`
   * reports for it ("Object", "Error", "Function", "Date", a custom
   * `Symbol.toStringTag`, ...) and its readable properties in order.
   */
  datatype Value =
    | Undefined
    | Null
    | Bool(b: bool)
    | Num(x: real)
    | NaN
    | Str(s: string)
    | Arr(items: seq<Value>)
    | Obj(tag: string, props: seq<(string, Value)>)

  /** How an evaluation ended: with a value, or by throwing one. */
  datatype Completion<T> = Normal(value: T) | Throw(exc: Value)

  /** ToBoolean: the falsy values are undefined, null, false, 0, NaN and "". */
  predicate Truthy(v: Value)
  {
    match v
    case Undefined => false
    case Null => false
    case Bool(b) => b
    case Num(x) => x != 0.0
    case NaN => false
    case Str(s) => s != ""
    case Arr(_) => true
    case Obj(_, _) => true
  }

  /** Every array and every object is truthy, however empty; among the primitives exactly these six values are falsy. */
  lemma FalsyValues(v: Value)
    ensures !Truthy(v) <==> v in [Undefined, Null, Bool(false), Num(0.0), NaN, Str("")]
    ensures v.Arr? || v.Obj? ==> Truthy(v)
  {
  }

  /** `a || b`: the first operand when it is truthy, and the second otherwise. */
  function Or(a: Value, b: Value): (r: Value)
    ensures r == a || r == b
    ensures Truthy(r) <==> Truthy(a) || Truthy(b)
    ensures Truthy(a) ==> r == a
    ensures !Truthy(a) ==> r == b
  {
    if Truthy(a) then a else b
  }

  predicate Nullish(v: Value)
  {
    v == Undefined || v == Null
  }

  /** A plain object literal `{k1: v1, ...}`. */
  function Object(props: seq<(string, Value)>): Value
  {
    Obj("Object", props)
  }

  const EmptyObject: Value := Object([])

  /** The value of the first property called `key`, or undefined. */
  function Lookup(props: seq<(string, Value)>, key: string): (r: Value)
    ensures r != Undefined ==> exists i :: 0 <= i < |props| && props[i] == (key, r)
  {
    LookupFrom(props, key, 0)
  }

  /** The value of the first property called `key` at index `from` or later. */
  function LookupFrom(props: seq<(string, Value)>, key: string, from: nat): (r: Value)
    requires from <= |props|
    ensures r != Undefined ==> exists i :: from <= i < |props| && props[i] == (key, r)
    decreases |props| - from
  {
    if from == |props| then Undefined
    else if props[from].0 == key then props[from].1
    else LookupFrom(props, key, from + 1)
  }

  /** The first property called `key` is the one `Lookup` finds. */
  lemma LookupFirst(props: seq<(string, Value)>, key: string, i: nat)
    requires i < |props| && props[i].0 == key
    requires forall j :: 0 <= j < i ==> props[j].0 != key
    ensures Lookup(props, key) == props[i].1
  {
    LookupFirstFrom(props, key, i, 0);
  }

  lemma {:induction false} LookupFirstFrom(props: seq<(string, Value)>, key: string, i: nat, from: nat)
    requires from <= i < |props| && props[i].0 == key
    requires forall j :: from <= j < i ==> props[j].0 != key
    ensures LookupFrom(props, key, from) == props[i].1
    decreases i - from
  {
    if from < i {
      LookupFirstFrom(props, key, i, from + 1);
    }
  }

  /**
   * `v[key]` on a value that is not null or undefined. Only objects carry
   * the properties this code reads (`code`, `message`, `name`, `actual`, ...);
   * primitives and arrays yield undefined for them.
   */
  function Get(v: Value, key: string): Value
  {
    if v.Obj? then Lookup(v.props, key) else Undefined
  }

  /** The TypeError the engine throws; its message text is V8's. */
  function TypeError(message: string): (r: Value)
    ensures Truthy(r) && Get(r, "name") == Str("TypeError")
    ensures Get(r, "code") == Undefined
  {
    Obj("Error", [("name", Str("TypeError")), ("message", Str(message))])
  }

  /** `v.key`, which throws a TypeError when `v` is null or undefined. */
  function GetProp(v: Value, key: string): (r: Completion<Value>)
    ensures r.Throw? <==> Nullish(v)
    ensures r.Normal? ==> r.value == Get(v, key)
    ensures r.Throw? ==> Get(r.exc, "name") == Str("TypeError")
  {
    if Nullish(v) then
      Throw(TypeError("Cannot read properties of " + (if v == Null then "null" else "undefined")
                      + " (reading '" + key + "')"))
    else
      Normal(Get(v, key))
  }

  /** The tag inside `Object.prototype.toString.call(v)`, `[object <tag>]`. */
  function ClassTag(v: Value): string
  {
    match v
    case Undefined => "Undefined"
    case Null => "Null"
    case Bool(_) => "Boolean"
    case Num(_) => "Number"
    case NaN => "Number"
    case Str(_) => "String"
    case Arr(_) => "Array"
    case Obj(tag, _) => tag
  }

  /** `sub` occurs in `s` starting at index `i`. */
  predicate OccursAt(s: string, sub: string, i: int)
  {
    0 <= i && i + |sub| <= |s| && s[i..i + |sub|] == sub
  }

  /** `String.prototype.includes`: the search from index `from` onwards. */
  function IncludesFrom(s: string, sub: string, from: nat): (r: bool)
    requires from <= |s|
    ensures r <==> exists i :: from <= i && OccursAt(s, sub, i)
    decreases |s| - from
  {
    if from + |sub| > |s| then
      assert forall i :: from <= i ==> !OccursAt(s, sub, i);
      false
    else if s[from..from + |sub|] == sub then
      assert OccursAt(s, sub, from);
      true
    else
      var r := IncludesFrom(s, sub, from + 1);
      assert forall i :: from <= i && OccursAt(s, sub, i) ==> i == from || from + 1 <= i;
      r
  }

  function Includes(s: string, sub: string): (r: bool)
    ensures r <==> exists i :: OccursAt(s, sub, i)
  {
    IncludesFrom(s, sub, 0)
  }
}
