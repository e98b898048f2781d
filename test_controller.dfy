/**
 * The sample controller the repository's own unit tests exercise: its
 * `$getType` is the same expression as the checker's (see `TypeTags`), and
 * two functions return fixed values.
 */
module Controllers {
  import opened JsValues
  import opened TypeTags

  /** `$getType([])` is `'array'`. */
  lemma EmptyArrayType()
    ensures GetType(Arr([])) == Normal("array")
  {
    BuiltinTypes(Arr([]));
  }

  /** `$getType('rehr')` is `'string'`, and so it is not `'boolean'`. */
  lemma StringType()
    ensures GetType(Str("rehr")) == Normal("string")
    ensures GetType(Str("rehr")) != Normal("boolean")
  {
    BuiltinTypes(Str("rehr"));
  }

  /** `arrayFunction()`: the numbers 1, 2 and 3, then the string `'hola'`. */
  function ArrayFunction(): (r: Value)
    ensures r.Arr? && |r.items| == 4
    ensures forall i :: 0 <= i < 3 ==> r.items[i] == Num((i + 1) as real)
    ensures r.items[3] == Str("hola")
  {
    Arr([Num(1.0), Num(2.0), Num(3.0), Str("hola")])
  }

  /** What `$getType` says of `arrayFunction()` and of each of its elements. */
  lemma ArrayFunctionTypes()
    ensures GetType(ArrayFunction()) == Normal("array")
    ensures forall i :: 0 <= i < 4 ==> GetType(ArrayFunction().items[i]) == Normal(if i < 3 then "number" else "string")
  {
    var r := ArrayFunction();
    BuiltinTypes(r);
    forall i | 0 <= i < 4 ensures GetType(r.items[i]) == Normal(if i < 3 then "number" else "string") {
      BuiltinTypes(r.items[i]);
    }
  }

  /**
   * `objectFunction()`: a plain object whose only properties are `name`,
   * the string `'antonio'`, and `surname`, the string `'lopez'`.
   */
  function ObjectFunction(): (r: Value)
    ensures GetType(r) == Normal("object")
    ensures Get(r, "name") == Str("antonio") && Get(r, "surname") == Str("lopez")
    ensures forall k :: Get(r, k) != Undefined ==> k == "name" || k == "surname"
  {
    var props := [("name", Str("antonio")), ("surname", Str("lopez"))];
    PlainObjectType(props);
    Object(props)
  }
}
