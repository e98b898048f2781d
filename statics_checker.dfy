/**
 * The schema assertions `assert.equalSchema` / `assert.notEqualSchema` that
 * the test engine binds before each synchronous attempt.
 *
 * The schema validator and Node's `assert` are foreign: a call of the
 * validator is given as a `Validation` (what `validate(schema, data)` did and
 * what its `errors` field holds afterwards), and the value `assert.ok` or
 * `assert.fail` throws is given as a parameter. What is modelled is the
 * wrappers' own logic: when they return, and the object they throw.
 */
module StaticsChecker {
  import opened JsValues

  /** What `validate(schema, data)` did, and the validator's `errors` field afterwards. */
  datatype Validation = Validation(call: Completion<Value>, errors: Value)

  const AssertionCode: Value := Str("ERR_ASSERTION")
  const EngineFaultCode: Value := Str("AJV Error")

  /** The validator ran and returned a falsy result. */
  predicate Rejected(v: Validation)
  {
    v.call.Normal? && !Truthy(v.call.value)
  }

  /** The validator ran and returned a truthy result. */
  predicate Accepted(v: Validation)
  {
    v.call.Normal? && Truthy(v.call.value)
  }

  /** The validator threw a value whose `code` can be read and is not an assertion's. */
  predicate EngineFault(v: Validation)
  {
    v.call.Throw? && !Nullish(v.call.exc) && Get(v.call.exc, "code") != AssertionCode
  }

  /**
   * `x` reports an assertion failure of `operator` caught as `e`: the
   * assertion's code, message, name and stack, the data as `actual`, the
   * schema as `expected`, and the validator's errors.
   */
  predicate FailureReport(x: Value, operator: string, e: Value, data: Value, schema: Value, errors: Value)
  {
    Get(x, "operator") == Str(operator) && Get(x, "schemaError") == errors
    && Get(x, "code") == AssertionCode
    && Get(x, "actual") == data && Get(x, "expected") == schema
    && Get(x, "message") == Get(e, "message") && Get(x, "name") == Get(e, "name")
    && Get(x, "stack") == Get(e, "stack")
  }

  /**
   * `x` reports a validator fault `e` under `operator`: code and name
   * 'AJV Error', the first truthy of the fault's message, the caller's
   * message and 'Schema not valid', the fault's stack, the validator's
   * errors, and no `actual` or `expected`.
   */
  predicate EngineReport(x: Value, operator: string, e: Value, message: Value, errors: Value)
  {
    Get(x, "operator") == Str(operator) && Get(x, "schemaError") == errors
    && Get(x, "code") == EngineFaultCode && Get(x, "name") == EngineFaultCode
    && Get(x, "message") == Or(Or(Get(e, "message"), message), Str("Schema not valid"))
    && Get(x, "stack") == Get(e, "stack")
    && Get(x, "actual") == Undefined && Get(x, "expected") == Undefined
  }

  /** The object built on the assertion branch of the catch block. */
  function FailureObject(operator: string, e: Value, data: Value, schema: Value, errors: Value): (x: Value)
    requires Get(e, "code") == AssertionCode
    ensures Truthy(x) && FailureReport(x, operator, e, data, schema, errors)
  {
    var props := [("operator", Str(operator)), ("schemaError", errors), ("code", Get(e, "code")),
                  ("actual", data), ("expected", schema), ("message", Get(e, "message")),
                  ("name", Get(e, "name")), ("stack", Get(e, "stack"))];
    LookupFirst(props, "schemaError", 1);
    LookupFirst(props, "code", 2);
    LookupFirst(props, "actual", 3);
    LookupFirst(props, "expected", 4);
    LookupFirst(props, "message", 5);
    LookupFirst(props, "name", 6);
    LookupFirst(props, "stack", 7);
    Object(props)
  }

  /** The object built on the validator-fault branch of the catch block. */
  function EngineObject(operator: string, e: Value, message: Value, errors: Value): (x: Value)
    ensures Truthy(x) && EngineReport(x, operator, e, message, errors)
  {
    var props := [("operator", Str(operator)), ("schemaError", errors), ("code", EngineFaultCode),
                  ("name", EngineFaultCode),
                  ("message", Or(Or(Get(e, "message"), message), Str("Schema not valid"))),
                  ("stack", Get(e, "stack"))];
    LookupFirst(props, "schemaError", 1);
    LookupFirst(props, "code", 2);
    LookupFirst(props, "name", 3);
    LookupFirst(props, "message", 4);
    LookupFirst(props, "stack", 5);
    assert forall i :: 0 <= i < |props| ==> props[i].0 != "actual" && props[i].0 != "expected";
    Object(props)
  }

  /**
   * The catch block shared by both wrappers: the value it throws for the
   * caught `e`. Reading `e.code` on null or undefined throws a TypeError
   * out of the catch block instead.
   */
  function CatchBlock(operator: string, e: Value, data: Value, schema: Value, message: Value, errors: Value): (x: Value)
    ensures Truthy(x)
    ensures Nullish(e) ==> Get(x, "name") == Str("TypeError")
    ensures !Nullish(e) && Get(e, "code") == AssertionCode ==> FailureReport(x, operator, e, data, schema, errors)
    ensures !Nullish(e) && Get(e, "code") != AssertionCode ==> EngineReport(x, operator, e, message, errors)
  {
    match GetProp(e, "code")
    case Throw(t) => t
    case Normal(code) =>
      if code == AssertionCode then FailureObject(operator, e, data, schema, errors)
      else EngineObject(operator, e, message, errors)
  }

  /**
   * `Checker.equalSchemaSync(context, assert, data, schema, message)`:
   * `assert.ok(validate(schema, data), message)`, where `okFailure` is what
   * `assert.ok` throws for a falsy value.
   */
  function EqualSchemaSync(data: Value, schema: Value, message: Value, v: Validation, okFailure: Value): (r: Completion<()>)
    ensures r.Normal? <==> Accepted(v)
    ensures Rejected(v) && Get(okFailure, "code") == AssertionCode ==>
              r.Throw? && FailureReport(r.exc, "equalSchema", okFailure, data, schema, v.errors)
    ensures EngineFault(v) ==> r.Throw? && EngineReport(r.exc, "equalSchema", v.call.exc, message, v.errors)
  {
    match v.call
    case Throw(e) => Throw(CatchBlock("equalSchema", e, data, schema, message, v.errors))
    case Normal(valid) =>
      if Truthy(valid) then Normal(())
      else Throw(CatchBlock("equalSchema", okFailure, data, schema, message, v.errors))
  }

  /**
   * `Checker.notEqualSchemaSync(...)` as written:
   * `assert.fail(validate(schema, data), message)`. `assert.fail` throws
   * whatever it is given (`failFailure`), so the wrapper never returns.
   */
  function NotEqualSchemaSync(data: Value, schema: Value, message: Value, v: Validation, failFailure: Value): (r: Completion<()>)
    ensures r.Throw?
    ensures v.call.Normal? && Get(failFailure, "code") == AssertionCode ==>
              FailureReport(r.exc, "notEqualSchema", failFailure, data, schema, v.errors)
    ensures EngineFault(v) ==> EngineReport(r.exc, "notEqualSchema", v.call.exc, message, v.errors)
  {
    var e := if v.call.Throw? then v.call.exc else failFailure;
    Throw(CatchBlock("notEqualSchema", e, data, schema, message, v.errors))
  }

  /**
   * The complement `notEqualSchema` is documented to be:
   * `assert.ok(!validate(schema, data), message)`, which passes exactly
   * when the validator rejects the data.
   */
  function NotEqualSchemaIntended(data: Value, schema: Value, message: Value, v: Validation, okFailure: Value): (r: Completion<()>)
    ensures r.Normal? <==> Rejected(v)
    ensures Accepted(v) && Get(okFailure, "code") == AssertionCode ==>
              r.Throw? && FailureReport(r.exc, "notEqualSchema", okFailure, data, schema, v.errors)
    ensures EngineFault(v) ==> r.Throw? && EngineReport(r.exc, "notEqualSchema", v.call.exc, message, v.errors)
  {
    match v.call
    case Throw(e) => Throw(CatchBlock("notEqualSchema", e, data, schema, message, v.errors))
    case Normal(valid) =>
      if !Truthy(valid) then Normal(())
      else Throw(CatchBlock("notEqualSchema", okFailure, data, schema, message, v.errors))
  }

  /**
   * Whenever the validator runs, exactly one of `equalSchema` and the
   * intended `notEqualSchema` passes.
   */
  lemma SchemaComplement(data: Value, schema: Value, message: Value, v: Validation, okFailure: Value)
    requires v.call.Normal?
    ensures EqualSchemaSync(data, schema, message, v, okFailure).Normal?
            <==> !NotEqualSchemaIntended(data, schema, message, v, okFailure).Normal?
  {
  }

  /**
   * As written, `notEqualSchema` fails even for data the validator rejects,
   * where the intended complement passes.
   */
  lemma NotEqualSchemaNeverPasses(data: Value, schema: Value, message: Value, failure: Value)
    ensures NotEqualSchemaSync(data, schema, message, Validation(Normal(Bool(false)), Null), failure).Throw?
    ensures NotEqualSchemaIntended(data, schema, message, Validation(Normal(Bool(false)), Null), failure).Normal?
  {
  }

  /** Every object either wrapper throws carries the validator's errors, whichever branch built it. */
  lemma SchemaErrorsAttached(operator: string, e: Value, data: Value, schema: Value, message: Value, errors: Value)
    requires !Nullish(e)
    ensures Get(CatchBlock(operator, e, data, schema, message, errors), "schemaError") == errors
    ensures Get(CatchBlock(operator, e, data, schema, message, errors), "operator") == Str(operator)
  {
  }
}
