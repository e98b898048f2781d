/**
 * `resultEntry`: one attempt's outcome as the test keeps it. `result` is
 * copied as given; `duration`, `retry` and `error` are `x || default`.
 */
module ResultEntries {
  import opened JsValues
  import opened ResultErrors

  datatype ResultEntry = ResultEntry(result: Value, duration: Value, retry: Value, error: Value)

  /** What the constructor can produce from a non-null argument. */
  predicate Canonical(e: ResultEntry)
  {
    Defaulted(e.duration, Null) && Defaulted(e.retry, Num(0.0)) && Defaulted(e.error, Null)
  }

  /**
   * `new resultEntry(data)`. An omitted argument (undefined) becomes `{}`;
   * null throws a TypeError on the first read.
   */
  function NewResultEntry(data: Value): (r: Completion<ResultEntry>)
    ensures r.Throw? <==> data == Null
    ensures r.Normal? ==> Canonical(r.value)
    ensures r.Normal? ==> r.value.result == Get(data, "result")
    ensures r.Normal? ==> Keeps(data, "duration", r.value.duration, Null)
    ensures r.Normal? ==> Keeps(data, "retry", r.value.retry, Num(0.0))
    ensures r.Normal? ==> Keeps(data, "error", r.value.error, Null)
  {
    if data == Null then
      Throw(TypeError("Cannot read properties of null (reading 'result')"))
    else
      var d := if data == Undefined then EmptyObject else data;
      Normal(ResultEntry(
        Get(d, "result"),
        Or(Get(d, "duration"), Null),
        Or(Get(d, "retry"), Num(0.0)),
        Or(Get(d, "error"), Null)))
  }

  /** The entry as the object it is: its four own properties. */
  function EntryObject(e: ResultEntry): (v: Value)
    ensures v.Obj? && v.tag == "Object" && Truthy(v)
    ensures Get(v, "result") == e.result && Get(v, "duration") == e.duration
    ensures Get(v, "retry") == e.retry && Get(v, "error") == e.error
  {
    var props := [("result", e.result), ("duration", e.duration), ("retry", e.retry), ("error", e.error)];
    LookupFirst(props, "duration", 1);
    LookupFirst(props, "retry", 2);
    LookupFirst(props, "error", 3);
    Object(props)
  }

  /** With no argument: `{result: undefined, duration: null, retry: 0, error: null}`. */
  lemma NoArgumentDefaults()
    ensures NewResultEntry(Undefined) == Normal(ResultEntry(Undefined, Null, Num(0.0), Null))
  {
  }

  /** A duration of exactly 0 is stored as null, any other number as given. */
  lemma DurationZeroIsNull(data: Value, d: real)
    requires data.Obj? && Get(data, "duration") == Num(d)
    ensures NewResultEntry(data).value.duration == if d == 0.0 then Null else Num(d)
  {
  }

  /**
   * Rebuilding an entry from the object it is gives the entry back exactly
   * when the entry is one the constructor can produce.
   */
  lemma RebuildRoundTrip(e: ResultEntry)
    ensures NewResultEntry(EntryObject(e)) == Normal(e) <==> Canonical(e)
  {
  }
}
