/**
 * `resultError`: the record a failed or faulted attempt keeps about what it
 * caught. Every field is `data.<field> || <default>`, so a falsy value
 * (undefined, null, false, 0, NaN, '') is replaced by the default.
 */
module ResultErrors {
  import opened JsValues

  datatype ResultError = ResultError(
    actual: Value, expected: Value, operator: Value, message: Value,
    code: Value, name: Value, stack: Value, schemaError: Value)

  /** The field keeps what `data` supplies under `key` when that is truthy, and `default` otherwise. */
  predicate Keeps(data: Value, key: string, field: Value, default: Value)
  {
    field == if Truthy(Get(data, key)) then Get(data, key) else default
  }

  /** `v` is truthy or the default: what `x || default` can produce. */
  predicate Defaulted(v: Value, default: Value)
  {
    Truthy(v) || v == default
  }

  /** What the constructor can produce: null for the values, '' for the text fields. */
  predicate Canonical(r: ResultError)
  {
    Defaulted(r.actual, Null) && Defaulted(r.expected, Null)
    && Defaulted(r.operator, Str("")) && Defaulted(r.message, Str(""))
    && Defaulted(r.code, Str("")) && Defaulted(r.name, Str(""))
    && Defaulted(r.stack, Null) && Defaulted(r.schemaError, Null)
  }

  /** Every field of `r` is taken from `data` as the constructor takes it. */
  predicate BuiltFrom(data: Value, r: ResultError)
  {
    Keeps(data, "actual", r.actual, Null) && Keeps(data, "expected", r.expected, Null)
    && Keeps(data, "operator", r.operator, Str("")) && Keeps(data, "message", r.message, Str(""))
    && Keeps(data, "code", r.code, Str("")) && Keeps(data, "name", r.name, Str(""))
    && Keeps(data, "stack", r.stack, Null) && Keeps(data, "schemaError", r.schemaError, Null)
  }

  /**
   * `new resultError(data)`. An omitted argument (undefined) becomes `{}`;
   * null is not replaced by the default parameter, so reading `null.actual`
   * throws a TypeError.
   */
  function NewResultError(data: Value): (r: Completion<ResultError>)
    ensures r.Throw? <==> data == Null
    ensures r.Normal? ==> Canonical(r.value) && BuiltFrom(data, r.value)
  {
    if data == Null then
      Throw(TypeError("Cannot read properties of null (reading 'actual')"))
    else
      var d := if data == Undefined then EmptyObject else data;
      Normal(ResultError(
        Or(Get(d, "actual"), Null),
        Or(Get(d, "expected"), Null),
        Or(Get(d, "operator"), Str("")),
        Or(Get(d, "message"), Str("")),
        Or(Get(d, "code"), Str("")),
        Or(Get(d, "name"), Str("")),
        Or(Get(d, "stack"), Null),
        Or(Get(d, "schemaError"), Null)))
  }

  /** The record as the object it is: its eight own properties. */
  function ErrorObject(r: ResultError): (v: Value)
    ensures v.Obj? && v.tag == "Object" && Truthy(v)
    ensures Get(v, "actual") == r.actual && Get(v, "expected") == r.expected
    ensures Get(v, "operator") == r.operator && Get(v, "message") == r.message
    ensures Get(v, "code") == r.code && Get(v, "name") == r.name
    ensures Get(v, "stack") == r.stack && Get(v, "schemaError") == r.schemaError
  {
    var props := [("actual", r.actual), ("expected", r.expected), ("operator", r.operator),
                  ("message", r.message), ("code", r.code), ("name", r.name),
                  ("stack", r.stack), ("schemaError", r.schemaError)];
    LookupFirst(props, "expected", 1);
    LookupFirst(props, "operator", 2);
    LookupFirst(props, "message", 3);
    LookupFirst(props, "code", 4);
    LookupFirst(props, "name", 5);
    LookupFirst(props, "stack", 6);
    LookupFirst(props, "schemaError", 7);
    Object(props)
  }

  /** With no argument every field takes its default. */
  lemma NoArgumentDefaults()
    ensures NewResultError(Undefined)
         == Normal(ResultError(Null, Null, Str(""), Str(""), Str(""), Str(""), Null, Null))
  {
  }

  /**
   * A thrown value that is not an object (a string, a number, an array)
   * carries none of the fields: the record is all defaults.
   */
  lemma NonObjectDefaults(v: Value)
    requires !v.Obj? && v != Null
    ensures NewResultError(v) == NewResultError(Undefined)
  {
  }

  /**
   * Rebuilding a record from the object it is gives the record back exactly
   * when the record is one the constructor can produce.
   */
  lemma RebuildRoundTrip(r: ResultError)
    ensures NewResultError(ErrorObject(r)) == Normal(r) <==> Canonical(r)
  {
  }

  /** Building a record from a record changes nothing. */
  lemma Idempotent(data: Value)
    requires data != Null
    ensures NewResultError(ErrorObject(NewResultError(data).value)) == NewResultError(data)
  {
    RebuildRoundTrip(NewResultError(data).value);
  }

  /**
   * Truthy fields of the argument reach the record unchanged; in particular
   * an assertion failure keeps its code 'ERR_ASSERTION'.
   */
  lemma AssertionCodeKept(e: Value)
    requires Get(e, "code") == Str("ERR_ASSERTION")
    ensures NewResultError(e) == Normal(NewResultError(e).value)
    ensures NewResultError(e).value.code == Str("ERR_ASSERTION")
  {
  }
}
