/**
 * `core-tester/checker.js`: the older, module-level copy of the schema
 * assertions and of `$getType`. It validates with a module-level validator
 * instance instead of a static one; with the validator abstracted the two
 * copies behave alike, so these definitions take the shared catch block and
 * type tags from `StaticsChecker` and `TypeTags`.
 */
module ModuleChecker {
  import opened JsValues
  import opened StaticsChecker
  import TypeTags

  /** `$getType(obj)` */
  function GetType(obj: Value): (r: Completion<string>)
    ensures obj == Undefined ==> r == Normal("undefined")
    ensures obj != Undefined && r.Normal? ==>
              r.value != "" && forall c :: c in r.value ==> 'a' <= c <= 'z' || c == '|'
    ensures !obj.Obj? ==> r == Normal(TypeTags.BuiltinName(obj))
  {
    TypeTags.BuiltinTypes(obj);
    TypeTags.GetType(obj)
  }

  /** `$EqualSchemaSync(context, assert, data, schema, message)` */
  function EqualSchemaSync(data: Value, schema: Value, message: Value, v: Validation, okFailure: Value): (r: Completion<()>)
    ensures r.Normal? <==> Accepted(v)
    ensures Rejected(v) && Get(okFailure, "code") == AssertionCode ==>
              r.Throw? && FailureReport(r.exc, "equalSchema", okFailure, data, schema, v.errors)
    ensures EngineFault(v) ==> r.Throw? && EngineReport(r.exc, "equalSchema", v.call.exc, message, v.errors)
  {
    if v.call.Throw? then Throw(CatchBlock("equalSchema", v.call.exc, data, schema, message, v.errors))
    else if Truthy(v.call.value) then Normal(())
    else Throw(CatchBlock("equalSchema", okFailure, data, schema, message, v.errors))
  }

  /** `$notEqualSchemaSync(context, assert, data, schema, message)`: like its static twin, it never returns. */
  function NotEqualSchemaSync(data: Value, schema: Value, message: Value, v: Validation, failFailure: Value): (r: Completion<()>)
    ensures r.Throw?
    ensures v.call.Normal? && Get(failFailure, "code") == AssertionCode ==>
              FailureReport(r.exc, "notEqualSchema", failFailure, data, schema, v.errors)
    ensures !Nullish(if v.call.Throw? then v.call.exc else failFailure) ==>
              Get(r.exc, "operator") == Str("notEqualSchema") && Get(r.exc, "schemaError") == v.errors
    ensures EngineFault(v) ==> EngineReport(r.exc, "notEqualSchema", v.call.exc, message, v.errors)
  {
    var e := if v.call.Throw? then v.call.exc else failFailure;
    Throw(CatchBlock("notEqualSchema", e, data, schema, message, v.errors))
  }
}
