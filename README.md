# ajst test runner, modelled in Dafny

This project models the core of `ajst`, a small JavaScript test runner, and
proves properties of that model.

Test files call `$test(name, callback, capture)`. Each call stores a `Test`
in the category `'Other'` of the group `'Other'`. Running everything walks
the groups, their categories and their tests in key order, and skips keys
that start with `$$`. A test's `execute` runs attempts `1..repeats`:

- A synchronous attempt calls the callback and classifies the outcome:
  - nothing thrown is `SUCCESS`;
  - a thrown value whose `code` is `'ERR_ASSERTION'` is `FAIL`;
  - anything else is `ERROR`.
- The attempt then appends a `resultEntry` to the test's `_tests` log, with
  a `resultError` built from what was thrown.
- After the attempts, only the first entry is printed. Whatever goes wrong
  is caught and logged.

The schema assertions `equalSchema` and `notEqualSchema` wrap a JSON-schema
validator and throw a report object when they fail. `$getType` names the
class tag of a value.

The modules follow the repository's files:

| module | file |
|---|---|
| `JsValues`, `OrderedMaps` | JavaScript values, truthiness, `||`, property reads, `String.prototype.includes`; plain objects as insertion-ordered key lists |
| `TypeTags`, `ModuleChecker` | `$getType` (the same expression in `core-tester/checker.js` and `nodeServer/controller/testController.js`); the module-level schema assertions of `core-tester/checker.js` |
| `StaticsChecker` | `core-tester/statics/checker.js` |
| `ResultErrors`, `ResultEntries` | `core-tester/interfaces/resultError.js`, `core-tester/interfaces/resultEntry.js` |
| `Tests` | `core-tester/clases/test.js` (class `Test`, the attempt engine) |
| `Containers`, `Categories`, `Groups` | `core-tester/clases/category.js`, `core-tester/clases/group.js` and what the two share |
| `Registries` | the registry of groups, which is `launcher.js`'s module-level `tests` and each `TrailCode`'s `_tests` |
| `TrailCodes` | `core-tester/singletons/trailcode.js` and `core-tester/clases/trailcode.js` |
| `Controllers` | `nodeServer/controller/testController.js` |

The foreign parts become parameters:

- A callback is a `Callback`, given by what each of its invocations does
  (returns, or throws a value).
- The clock is a `Clock`, giving the duration `_resolveMark` reports for
  each attempt of each test.
- A validator call is a `Validation`: what `validate(schema, data)` did, and
  the validator's `errors` field afterwards.
- The value `assert.ok` or `assert.fail` throws is a parameter.
- The `$test` calls that loading the test directory makes are a sequence of
  `Registration`s.

Tests, categories, groups and the registry are classes whose fields the
methods update in place. `execute` is a method with a loop. Each one is
proved against a specification function:

- `RunTest` for a test.
- `Schedule` for a category.
- `Flat` for a group.
- `RanInOrder` for a run of several tests. It states that each scheduled
  test ran once, in order, starting from the log it had, and it comes with a
  clause that every other test is untouched.

The two `TrailCode` files differ only in `execute`. The singleton awaits
each group and then calls `process.exit()`. The plain class does not await.
With the single group `'Other'`, the calls and their order are the same, so
one module (`TrailCodes`) models both. Its rows below cite the singleton's
lines, and the class's where a member is the class's counterpart.

## Model

| member | source | states |
|---|---|---|
| `JsValues.GetProp` | core-tester/clases/test.js:203 | reading a property throws a TypeError exactly when the value is null or undefined, and otherwise yields the property |
| `JsValues.Includes` | core-tester/singletons/trailcode.js:99 | `s.includes(sub)` holds exactly when `sub` occurs in `s` at some index |
| `JsValues.FalsyValues` | core-tester/interfaces/resultError.js:48-146 | `Truthy` (ToBoolean, which every `x \|\| default` uses): the falsy values are exactly undefined, null, false, 0, NaN and `''`, and every array and object is truthy |
| `JsValues.Or` | core-tester/interfaces/resultEntry.js:47 | `a \|\| b` is one of its operands: the first when it is truthy, the second otherwise, and truthy exactly when either operand is |
| `OrderedMaps.Find` | core-tester/launcher.js:13 | `obj[k]` is absent exactly when `k` is not a key; with unique keys it is the value stored under `k` |
| `OrderedMaps.Put` | core-tester/clases/category.js:12 | `obj[k] = v` appends a new key, or replaces the value in place and keeps the length; every other entry is kept and keys stay unique |
| `OrderedMaps.FindPut` | core-tester/clases/group.js:12 | after `obj[k] = v`, `obj[k]` is `v` and every other key reads as before |
| `TypeTags.GetType` | nodeServer/controller/testController.js:8-14 | `undefined` gives `'undefined'`; any tag that starts with a letter gives the lower-cased leading letter run of the tag; every other result is non-empty and made of `a`-`z` and `|` |
| `TypeTags.RunFrom` | nodeServer/controller/testController.js:13 | the capture `[a-z\|A-Z]+` is the longest run of class characters from the given index |
| `TypeTags.MatchIndex` | nodeServer/controller/testController.js:13 | where the pattern first matches from an index on: none exactly when it matches nowhere, otherwise a matching index with no match before it |
| `TypeTags.Search` | nodeServer/controller/testController.js:13 | `match(/\s([a-z\|A-Z]+)/)`: no match exactly when no white space is followed by a class character; otherwise a non-empty capture of class characters, the run after the first match |
| `TypeTags.SearchIsLeftmostMatch` | nodeServer/controller/testController.js:13 | `match` reports the capture of the leftmost position where `\s` is followed by a class character |
| `TypeTags.SearchFailsWithoutMatch` | nodeServer/controller/testController.js:13 | with no such position, `match` finds nothing |
| `TypeTags.ToLower` | nodeServer/controller/testController.js:13 | `toLowerCase` keeps the length and lower-cases each ASCII capital |
| `TypeTags.BuiltinTypes` | core-tester/checker.js:8 | every primitive and every array gets its lower-cased built-in tag (`null`, `boolean`, `number`, `string`, `array`) |
| `TypeTags.PlainObjectType` | core-tester/checker.js:8 | a plain object gives `'object'` |
| `TypeTags.LetterTagIsLowered` | core-tester/checker.js:8 | a tag made only of class characters comes back whole, lower-cased |
| `TypeTags.EmptyTagFaults` | core-tester/checker.js:8 | an object whose tag is empty renders `[object ]`, and `match(...)[1]` then throws |
| `ModuleChecker.GetType` | core-tester/checker.js:4-9 | the module-level `$getType`: `'undefined'` for undefined, the built-in name for primitives and arrays, otherwise a lower-case letter run |
| `ModuleChecker.EqualSchemaSync` | core-tester/checker.js:21-54 | returns exactly when the validator accepts; a rejection throws the assertion report (operator, code, data, schema, message, name, stack, errors); a validator fault throws the `'AJV Error'` report |
| `ModuleChecker.NotEqualSchemaSync` | core-tester/checker.js:58-90 | never returns; the thrown object has operator `'notEqualSchema'` and the validator's errors; an assertion-coded failure gives the assertion report and a validator fault the `'AJV Error'` report |
| `StaticsChecker.FailureObject` | core-tester/statics/checker.js:49-62 | the assertion branch's object: operator, validator errors, the assertion's code, `actual` = data, `expected` = schema, the assertion's message, name and stack |
| `StaticsChecker.EngineObject` | core-tester/statics/checker.js:63-70 | the validator-fault branch's object: code and name `'AJV Error'`, message `e.message \|\| message \|\| 'Schema not valid'`, the fault's stack, no actual or expected |
| `StaticsChecker.CatchBlock` | core-tester/statics/checker.js:47-72 | the catch block throws the assertion report when `e.code` is `'ERR_ASSERTION'`, the fault report otherwise, and a TypeError when `e` is null or undefined |
| `StaticsChecker.EqualSchemaSync` | core-tester/statics/checker.js:41-73 | returns exactly when the validator's result is truthy; otherwise throws the report for the rejection or the fault |
| `StaticsChecker.NotEqualSchemaSync` | core-tester/statics/checker.js:92-124 | as written: always throws; with an assertion-coded failure it is the `'notEqualSchema'` assertion report, and with a fault the `'AJV Error'` report |
| `StaticsChecker.NotEqualSchemaIntended` | core-tester/statics/checker.js:92-124 | the corrected wrapper passes exactly when the validator rejects, and otherwise throws the same reports |
| `StaticsChecker.SchemaComplement` | core-tester/statics/checker.js:96 | whenever the validator runs, exactly one of `equalSchema` and the corrected `notEqualSchema` passes |
| `StaticsChecker.NotEqualSchemaNeverPasses` | core-tester/statics/checker.js:96 | for data the validator rejects, the wrapper as written throws where the corrected one passes |
| `StaticsChecker.SchemaErrorsAttached` | core-tester/statics/checker.js:49-52 | every thrown report carries its operator and the validator's `errors`, on both branches |
| `ResultErrors.NewResultError` | core-tester/interfaces/resultError.js:33-148 | null throws; otherwise each of the eight fields keeps the argument's truthy value and defaults to null or `''` |
| `ResultErrors.ErrorObject` | core-tester/interfaces/resultError.js:147 | the record as an object: each property reads back as its field |
| `ResultErrors.NoArgumentDefaults` | core-tester/interfaces/resultError.js:33 | with no argument every field takes its default |
| `ResultErrors.NonObjectDefaults` | core-tester/interfaces/resultError.js:48-146 | a thrown primitive or array carries no fields and gives the all-default record |
| `ResultErrors.RebuildRoundTrip` | core-tester/interfaces/resultError.js:48-146 | rebuilding a record from itself gives it back exactly when it is a record the constructor can produce |
| `ResultErrors.Idempotent` | core-tester/interfaces/resultError.js:48-146 | building a record from a built record changes nothing |
| `ResultErrors.AssertionCodeKept` | core-tester/interfaces/resultError.js:119 | an assertion's code `'ERR_ASSERTION'` survives into the record |
| `ResultEntries.NewResultEntry` | core-tester/interfaces/resultEntry.js:22-72 | null throws; `result` is copied as it is, and `duration`, `retry` and `error` keep truthy values or default to null, 0 and null |
| `ResultEntries.EntryObject` | core-tester/interfaces/resultEntry.js:71 | the entry as an object: each property reads back as its field |
| `ResultEntries.NoArgumentDefaults` | core-tester/interfaces/resultEntry.js:22 | with no argument the entry is `{result: undefined, duration: null, retry: 0, error: null}` |
| `ResultEntries.DurationZeroIsNull` | core-tester/interfaces/resultEntry.js:47 | a duration of exactly 0 is stored as null, and any other number is kept |
| `ResultEntries.RebuildRoundTrip` | core-tester/interfaces/resultEntry.js:35-70 | rebuilding an entry from itself gives it back exactly when the constructor can produce it |
| `Tests.AsyncFlag` | core-tester/clases/test.js:33 | the default `async = false` replaces only an omitted flag, and truthiness is kept |
| `Tests.AttemptEntry` | core-tester/clases/test.js:193-211 | the entry pushed for attempt `i` has `retry` = `i`, the given result, the error or null, and the duration or null for 0 |
| `Tests.Classify` | core-tester/clases/test.js:203-206 | `'FAIL'` exactly when the thrown value's code is `'ERR_ASSERTION'`, otherwise `'ERROR'` |
| `Tests.CaughtEntry` | core-tester/clases/test.js:201-211 | a caught value gives its classification, `retry` = `i`, and a non-null error built by `resultError` |
| `Tests.SyncAttempt` | core-tester/clases/test.js:190-212 | an attempt fails to record exactly when the callback throws null or undefined (a TypeError then escapes); otherwise its entry has `retry` = `i`, `SUCCESS` exactly when the callback returned, and an error exactly when not `SUCCESS` |
| `Tests.AsyncAttempt` | core-tester/clases/test.js:224-240 | an asynchronous attempt rejects exactly when the callback throws before calling `done`, and with the value it threw |
| `Tests.Step` | core-tester/clases/test.js:150-153 | an attempt appends at most one entry, and none when it throws |
| `Tests.Print` | core-tester/clases/test.js:126-132 | throws exactly when the log is empty or `_tests[0].error` is undefined; otherwise prints the test's name and the result of `_tests[0]` |
| `Tests.RunTest` | core-tester/clases/test.js:145-162 | a run keeps the old log and appends exactly the attempts' entries; it prints exactly when no attempt escaped and `print` succeeds, and otherwise logs the escaped value or the value `print` threw |
| `Tests.Test.constructor` | core-tester/clases/test.js:33-89 | name and callback as given, the async flag defaulted, `repeats` 1 by default, an empty log |
| `Tests.Test.ExecuteSync` | core-tester/clases/test.js:190-212 | the log grows by exactly the attempt's entry, or is unchanged when a value escapes |
| `Tests.Test.ExecuteAsync` | core-tester/clases/test.js:224-240 | returns the attempt's rejection (a throw before `done`), if any, and records nothing |
| `Tests.Test.Attempt` | core-tester/clases/test.js:150-153 | one turn of the loop appends what the attempt's step appends and reports what it throws |
| `Tests.Test.Execute` | core-tester/clases/test.js:145-162 | the new log and the output are exactly `RunTest` of the old log: the attempts, then `print`, with any fault logged instead |
| `Tests.SyncRunRecordsEveryAttempt` | core-tester/clases/test.js:149-151 | with no null or undefined thrown, a synchronous run appends one entry per attempt, in order, with `retry` counting up |
| `Tests.EntriesAreClassified` | core-tester/clases/test.js:199-208 | every appended entry is `SUCCESS`, `FAIL` or `ERROR`, with an error exactly when not `SUCCESS` |
| `Tests.NullishThrowStops` | core-tester/clases/test.js:203 | a thrown null or undefined at attempt `k` stops the run: the log gets exactly the entries of attempts `from..k-1`, in order, none for `k` or later, and the loop ends with a TypeError |
| `Tests.AsyncRecordsNothing` | core-tester/clases/test.js:153 | an asynchronous test appends nothing, and its loop ends normally exactly when no callback throws before calling `done` |
| `Tests.EmptyRunLogsFault` | core-tester/clases/test.js:155-160 | a run that appends nothing to an empty log logs a fault: a TypeError from `print` when no attempt threw |
| `Tests.FreshAsyncTestLogsFault` | core-tester/clases/test.js:153-160 | a fresh asynchronous test never prints, and its log stays empty |
| `Tests.PrintFirstOnly` | core-tester/clases/test.js:128-131 | entries after the first never change the printed line |
| `Tests.FirstAttemptIsReported` | core-tester/clases/test.js:128-131 | a fresh synchronous test prints the first attempt's result, green exactly when the first callback returned |
| `Tests.SchemaFailureIsRecorded` | core-tester/clases/test.js:196 | a callback that throws `equalSchema`'s rejection records `FAIL` with operator `'equalSchema'`, the assertion code, and the data, schema and validator errors (each null when falsy) |
| `Tests.SchemaFaultIsRecorded` | core-tester/clases/test.js:196 | a callback that throws `equalSchema`'s validator fault records `ERROR` coded `'AJV Error'` |
| `Tests.RecordedCatch` | core-tester/clases/test.js:201-209 | a callback that throws an object records its classification and the object's `operator`, `code`, `name` (or `''`) and `actual`, `expected`, `schemaError` (or null) |
| `Containers.ScheduleExact` | core-tester/clases/category.js:15-22 | `execute` runs exactly the children under non-`$$` keys, each once |
| `Containers.MetaKeysSkipped` | core-tester/clases/category.js:19 | a child under a `$$` key never runs |
| `Containers.LatestRegistrationWins` | core-tester/clases/category.js:12 | re-adding a name replaces that entry and no other, and the new child runs exactly when its key is not a `$$` key |
| `Categories.Category.constructor` | core-tester/clases/category.js:5-8 | only the name under `$$name`, and no tests |
| `Categories.Category.AddTest` | core-tester/clases/category.js:10-13 | a fresh test with empty log under `name`, `capture` as its async flag and one repetition, stored by `obj[name] = ...` |
| `Categories.Category.ExecuteEntry` | core-tester/clases/category.js:17-21 | one turn of the loop extends the in-order run by the entry's test, unless its key is a `$$` key |
| `Categories.Category.Execute` | core-tester/clases/category.js:15-22 | each scheduled test ran once, in key order, from the log it had; the others are untouched |
| `Categories.Configs` | core-tester/clases/category.js:12 | the entries' configurations, key by key, with labels kept where they were |
| `Categories.ConfigsPut` | core-tester/clases/category.js:12 | storing a test and then reading configurations is storing its configuration |
| `Groups.Group.constructor` | core-tester/clases/group.js:5-8 | only the name under `$$name`, and no categories |
| `Groups.Group.AddCategory` | core-tester/clases/group.js:10-13 | a fresh, empty category under `name`, replacing any category of that name together with its tests |
| `Groups.Group.ExecuteEntry` | core-tester/clases/group.js:17-21 | one turn of the loop extends the in-order run by the entry's category's schedule, unless its key is a `$$` key |
| `Groups.Group.RunCategory` | core-tester/clases/group.js:20 | awaiting one category continues the run with that category's schedule |
| `Groups.Group.Execute` | core-tester/clases/group.js:15-22 | each category's tests ran once, category by category in key order, from the logs they had; the others are untouched |
| `Registries.Registry.constructor` | core-tester/launcher.js:5-9 | the registry holds just the group `'Other'`, which holds just the empty category `'Other'` |
| `Registries.Registry.OnlyOtherRuns` | core-tester/launcher.js:8-9 | what runs is the schedule of the category `'Other'` |
| `Registries.Registry.Register` | core-tester/launcher.js:11-14 | `$test` stores a fresh test in `'Other'/'Other'` by `obj[name] = ...`, and changes no other group or category |
| `Registries.Registry.Execute` | core-tester/launcher.js:17-24 | `$execute` runs each group's tests once, in key order, from the logs they had |
| `Registries.LastIndexOf` | core-tester/launcher.js:13 | the index of the last registration under a name, or none exactly when there is none |
| `Registries.RegisteredFind` | core-tester/launcher.js:13 | after a series of `$test` calls, a name holds the configuration of its last registration, and an unregistered name holds what it held |
| `TrailCodes.IsFile` | core-tester/singletons/trailcode.js:97-100 | `isFile(f)` holds exactly when `'.js'` occurs in `f` |
| `TrailCodes.SubstringNotSuffix` | core-tester/clases/trailcode.js:51-54 | `x.json` and `a.js.d` count as files, `dir` does not |
| `TrailCodes.TrailCode.constructor` | core-tester/singletons/trailcode.js:41 | the instance keeps the given registry as `_tests` |
| `TrailCodes.TrailCode.Execute` | core-tester/singletons/trailcode.js:103-110 | each group's tests run once, in key order, from the logs they had |
| `TrailCodes.TrailCodeStatic.constructor` | core-tester/singletons/trailcode.js:118 | no instance when the module loads |
| `TrailCodes.TrailCodeStatic.RegisterTest` | core-tester/singletons/trailcode.js:113-116 | with no instance, a TypeError; otherwise the test goes to `'Other'/'Other'` of the instance, as the last one under its name |
| `TrailCodes.TrailCodeStatic.LoadOne` | core-tester/clases/trailcode.js:66-69 | one `$test` call of a loaded file adds one fresh test and stores its configuration under its name |
| `TrailCodes.TrailCodeStatic.Load` | core-tester/singletons/trailcode.js:70-81 | loading leaves `'Other'/'Other'` with the configurations of the registrations, latest per name, and only fresh tests with empty logs added |
| `TrailCodes.TrailCodeStatic.Construct` | core-tester/clases/trailcode.js:13-18 | the instance is recorded before loading, so every `$test` call reaches it; a fresh registry holds exactly the loaded registrations, all with empty logs |
| `TrailCodes.TrailCodeStatic.New` | core-tester/singletons/trailcode.js:28-48 | a second construction returns the existing instance and loads and runs nothing; a first one loads the registrations and runs every scheduled test once, in order, from an empty log |
| `Controllers.EmptyArrayType` | unit-test/test1.js:8 | `$getType([])` is `'array'` |
| `Controllers.StringType` | unit-test/test1.js:13-21 | `$getType('rehr')` is `'string'` and not `'boolean'` |
| `Controllers.ArrayFunction` | nodeServer/controller/testController.js:23-26 | the numbers 1, 2 and 3, then `'hola'` |
| `Controllers.ArrayFunctionTypes` | unit-test/test1.js:26 | `$getType` says `'array'` of the result, `'number'` of its first three elements and `'string'` of the last |
| `Controllers.ObjectFunction` | nodeServer/controller/testController.js:28-34 | a plain object whose only properties are `name` = `'antonio'` and `surname` = `'lopez'` |

## Left out

- Timing: `_resolveMark` and `performance.mark` (core-tester/clases/test.js:105-117, 192) become the `Clock` parameter. A duration is a real number read from it; the Node performance API and its failures are not modelled.
- Tests.AsyncAttempt: an asynchronous callback that returns is taken to settle its promise through `done` without recording anything, and `Throws` stands for a callback that throws before calling `done`. A callback that throws after calling `done` (the promise has already resolved, so the throw is ignored and the loop goes on) and a callback that never calls `done` (which would leave `execute` waiting forever) are not modelled.
- Tests.Test.ExecuteAsync: inherits the reading of `Tests.AsyncAttempt`; a throw after `done` is not modelled.
- Tests.AsyncRecordsNothing: "no callback throws" means no callback throws before calling `done`; a throw after `done` is not modelled.
- `simpleChecker` and `okAsync` of the class `Checker` (core-tester/statics/checker.js:135-164) and `$checker` (core-tester/checker.js:13-18): the deprecated promise-based path. The model records nothing for an asynchronous attempt, which is what the code does.
- The JSON-schema validator and Node's `assert`: foreign libraries. They become a `Validation` and the value `assert.ok` or `assert.fail` throws.
- The binding `assert.equalSchema = ...` (core-tester/clases/test.js:196-197): callbacks are abstract. `Tests.SchemaFailureIsRecorded` and `Tests.SchemaFaultIsRecorded` state what is recorded when a callback throws what the wrapper throws.
- `loader` and `getDirectories` (core-tester/singletons/trailcode.js:70-93, core-tester/clases/trailcode.js:29-47), `fs`, `require`, `path.join` and core-tester/loader.js. The directory walk becomes the sequence of `$test` calls it makes. An entry that is neither a `.js` name nor a directory (where `readdirSync` would throw) is not modelled.
- `global.$test = ...` and `global.$execute = ...`: the wiring of the globals. Which of the three definitions a test file reaches depends on load order, which is not modelled.
- `process.exit()` (core-tester/singletons/trailcode.js:109): ending the process.
- The getter `TrailCode.instance` (core-tester/singletons/trailcode.js:56-59, core-tester/clases/trailcode.js:23-26): it only reads `_instance`, which is the field `TrailCodeStatic.instance`.
- Concurrency. `execute` is not awaited in core-tester/clases/trailcode.js:59-62, core-tester/launcher.js:20-23 or the constructor's call (core-tester/singletons/trailcode.js:46). The model gives the order in which the calls start, and each call runs to completion before the next.
- `console.log` and the ANSI colours: a run ends with an `Output`, either the printed fields or the logged value.
- `promiseFunction` (nodeServer/controller/testController.js:16-21): a timer.
- Containers: names are restricted to `PlainKey`. JavaScript lists integer-like keys first, `__proto__` replaces the prototype, and the method names would hide the methods, so none of these is modelled.
- Numbers are mathematical reals plus `NaN`. Floating-point rounding is not modelled.
- Registries.Registry: the registry always has exactly the group `'Other'` with the category `'Other'`, because nothing in the code adds another. A registry with other groups is not modelled.
- unit-test/test1.js is cited only for the values its tests expect. Its `assert.EqualSchema` calls (capital `E`) are not bound by the engine, throw a TypeError and record `ERROR`; they are not modelled as schema checks.

## Findings

| source | as written | input that shows it | evidently intended | confidence | as-written member | corrected member |
|---|---|---|---|---|---|---|
| core-tester/statics/checker.js:96 | `assert.fail(validate(schema, data), message)`, the same in core-tester/checker.js:62. `assert.fail` throws whatever the validator says, so `notEqualSchema` fails for every input | data the validator rejects: `validate` returns `false`, and the wrapper still throws an `'ERR_ASSERTION'` report | `assert.ok(!validate(schema, data), message)`: pass exactly when the data does not match the schema, the complement of `equalSchema` | not executed | `StaticsChecker.NotEqualSchemaNeverPasses` | `StaticsChecker.NotEqualSchemaIntended` |
