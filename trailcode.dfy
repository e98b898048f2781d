/**
 * `TrailCode`: the class that creates the `'Other'` group and category,
 * loads the test files (whose `$test` calls reach the static `_test`), and
 * then runs everything. The repository has it twice, as a singleton
 * (`core-tester/singletons/trailcode.js`) and as a plain class
 * (`core-tester/clases/trailcode.js`); the two differ only in whether
 * `execute` awaits each group and then ends the process, which this model
 * does not distinguish: with the one group `'Other'` the calls are the same.
 *
 * The static side of the class (its `_instance` field and `_test`) is the
 * class `TrailCodeStatic`; an instance is the class `TrailCode`.
 */
module TrailCodes {
  import opened JsValues
  import opened OrderedMaps
  import opened ResultEntries
  import opened Tests
  import opened Containers
  import opened Categories
  import opened Registries

  /** `isFile(file)`: whether the loader `require`s the entry, which is when its name contains `.js`. */
  function IsFile(file: string): (r: bool)
    ensures r <==> exists i :: OccursAt(file, ".js", i)
  {
    Includes(file, ".js")
  }

  /** The test is a substring test, not a suffix test: `x.json` is loaded as a file, `dir` is walked. */
  lemma SubstringNotSuffix()
    ensures IsFile("x.json") && IsFile("a.js.d") && !IsFile("dir")
  {
    assert OccursAt("x.json", ".js", 1);
    assert OccursAt("a.js.d", ".js", 1);
    assert "dir"[0..3][0] != ".js"[0];
  }

  class TrailCode {
    /** `_tests` */
    const tests: Registry

    constructor(tests: Registry)
      ensures this.tests == tests
    {
      this.tests := tests;
    }

    /**
     * `execute()`: the `execute` of each group of `_tests`, in key order.
     * Each test the group schedules runs once, in order, from the log it
     * had.
     */
    method Execute(clock: Clock) returns (outs: seq<Output>)
      requires tests.Valid()
      modifies tests.other.Repr
      ensures tests.Valid()
      ensures RanInOrder(tests.Scheduled(), old(Snapshot(tests.other.Repr)), outs, clock)
      ensures forall t :: t in tests.other.Repr && t !in tests.Scheduled() ==> t.tests == old(t.tests)
    {
      outs := tests.Execute(clock);
    }
  }

  class TrailCodeStatic {
    /** `TrailCode._instance` */
    var instance: TrailCode?

    /** `TrailCode._instance = null` when the module loads. */
    constructor()
      ensures instance == null
    {
      instance := null;
    }

    ghost predicate Valid()
      reads this, if instance != null then {instance.tests, instance.tests.other} + instance.tests.other.Categories() else {}
    {
      instance != null ==> instance.tests.Valid()
    }

    /**
     * `TrailCode._test(name, callback, capture)`: the test goes into the
     * category `'Other'` of the group `'Other'` of the instance; with no
     * instance yet, reading `_tests` of null throws a TypeError.
     */
    method RegisterTest(name: string, callback: Callback, capture: Value) returns (r: Completion<()>, ghost t: Test?)
      requires Valid() && PlainKey(name)
      modifies if instance != null then {instance.tests.other, instance.tests.category} else {}
      ensures Valid() && instance == old(instance)
      ensures old(instance) == null ==> r.Throw? && Get(r.exc, "name") == Str("TypeError")
      ensures old(instance) != null ==>
                r == Normal(()) && t != null && fresh(t) && t.tests == []
                && t.Config() == RegisteredConfig(Registration(name, callback, capture))
                && instance.tests.category.props == Put(old(instance.tests.category.props), name, Member(t))
                && instance.tests.other.Repr == old(instance.tests.other.Repr) + {t}
    {
      t := null;
      if instance == null {
        r := Throw(TypeError("Cannot read properties of null (reading '_tests')"));
      } else {
        t := instance.tests.Register(name, callback, capture);
        r := Normal(());
      }
    }

    /**
     * `loader(dir)`, where the files it loads make the `$test` calls
     * `loaded`, in order: each reaches `_test`, and so the category
     * `'Other'`, where the latest test for each name wins.
     */
    method Load(loaded: seq<Registration>)
      requires Valid() && instance != null && forall k :: 0 <= k < |loaded| ==> PlainKey(loaded[k].name)
      modifies instance.tests.other, instance.tests.category
      ensures Valid() && instance == old(instance)
      ensures Configs(instance.tests.category.props) == Registered(Configs(old(instance.tests.category.props)), loaded)
      ensures old(instance.tests.other.Repr) <= instance.tests.other.Repr
      ensures forall t :: t in instance.tests.other.Repr ==> t in old(instance.tests.other.Repr) || (fresh(t) && t.tests == [])
    {
      ghost var reg := instance.tests;
      var k := 0;
      while k < |loaded|
        invariant 0 <= k <= |loaded| && instance == old(instance) && reg.Valid()
        invariant Registered(Configs(reg.category.props), loaded[k..]) == Registered(Configs(old(reg.category.props)), loaded)
        invariant old(reg.other.Repr) <= reg.other.Repr
        invariant forall t :: t in reg.other.Repr ==> t in old(reg.other.Repr) || (fresh(t) && t.tests == [])
      {
        ghost var t := LoadOne(loaded[k]);
        assert loaded[k..][1..] == loaded[k + 1..];
        k := k + 1;
      }
    }

    /** One `$test` call of a loaded file, as `_test` makes it. */
    method LoadOne(r: Registration) returns (ghost t: Test)
      requires Valid() && instance != null && PlainKey(r.name)
      modifies instance.tests.other, instance.tests.category
      ensures Valid() && instance == old(instance) && fresh(t) && t.tests == []
      ensures Configs(instance.tests.category.props)
           == Put(Configs(old(instance.tests.category.props)), r.name, Member(RegisteredConfig(r)))
      ensures instance.tests.other.Repr == old(instance.tests.other.Repr) + {t}
    {
      ghost var entries := instance.tests.category.props;
      var _, added := RegisterTest(r.name, r.callback, r.capture);
      t := added;
      ConfigsPut(entries, r.name, t);
    }

    /**
     * `new TrailCode(dir)`, where loading `dir` makes the `$test` calls
     * `loaded`, in order. An existing instance is returned as it is, with
     * nothing loaded or run. Otherwise the new instance is recorded before
     * loading, so every `$test` call reaches it; the category `'Other'` ends
     * up with the registered tests, the latest one for each name, and every
     * test it schedules runs once, in order, from an empty log.
     */
    method New(loaded: seq<Registration>, clock: Clock) returns (tc: TrailCode, outs: seq<Output>)
      requires Valid() && forall k :: 0 <= k < |loaded| ==> PlainKey(loaded[k].name)
      modifies this
      ensures Valid()
      ensures old(instance) != null ==> tc == old(instance) && instance == tc && outs == []
      ensures old(instance) == null ==>
                fresh(tc) && fresh(tc.tests) && instance == tc
                && Configs(tc.tests.category.props) == Registered(OtherEntries, loaded)
                && RanInOrder(tc.tests.Scheduled(), FreshLogs(tc.tests.other.Repr), outs, clock)
    {
      if instance != null {
        return instance, [];
      }
      tc := Construct(loaded);
      ghost var props := tc.tests.category.props;
      assert Snapshot(tc.tests.other.Repr) == FreshLogs(tc.tests.other.Repr);
      outs := tc.Execute(clock);
      assert tc.tests.category.props == props;
    }

    /**
     * The part of `new TrailCode(dir)` that builds a new instance: `_tests`
     * with the group and category `'Other'`, the instance recorded, then
     * the files loaded.
     */
    method Construct(loaded: seq<Registration>) returns (tc: TrailCode)
      requires Valid() && instance == null && forall k :: 0 <= k < |loaded| ==> PlainKey(loaded[k].name)
      modifies this
      ensures Valid() && fresh(tc) && fresh(tc.tests) && instance == tc
      ensures Configs(tc.tests.category.props) == Registered(OtherEntries, loaded)
      ensures forall t :: t in tc.tests.other.Repr ==> fresh(t) && t.tests == []
    {
      var registry := new Registry();
      tc := new TrailCode(registry);
      assert registry.Valid() && registry.other.Repr == {} && Configs(registry.category.props) == OtherEntries;
      instance := tc;
      Load(loaded);
    }
  }
}
