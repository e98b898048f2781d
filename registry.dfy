/**
 * The registry of groups that both `TrailCode` classes keep in `_tests` and
 * the launcher keeps in its module-level `tests`: a plain object from group
 * name to `Group`. It starts with the group `'Other'` holding the category
 * `'Other'`, and ad-hoc registration always goes to that category; nothing
 * ever adds another group.
 */
module Registries {
  import opened JsValues
  import opened OrderedMaps
  import opened ResultEntries
  import opened Tests
  import opened Containers
  import opened Categories
  import opened Groups

  const OtherKey: string := "Other"

  /** One `$test(name, callback, capture)` call made while the test files load. */
  datatype Registration = Registration(name: string, callback: Callback, capture: Value)

  /** The configuration `addTest` gives the test it creates for `r`. */
  function RegisteredConfig(r: Registration): TestConfig
  {
    TestConfig(r.name, r.callback, AsyncFlag(r.capture), 1)
  }

  /** The configurations a category with entries `init` holds after the registrations `rs`, in order. */
  function Registered(init: seq<(string, Slot<TestConfig>)>, rs: seq<Registration>): seq<(string, Slot<TestConfig>)>
    decreases rs
  {
    if rs == [] then init
    else Registered(Put(init, rs[0].name, Member(RegisteredConfig(rs[0]))), rs[1..])
  }

  /** The index of the last of the registrations `rs` under `name`, if there is one. */
  function LastIndexOf(rs: seq<Registration>, name: string): (r: Option<nat>)
    ensures r.None? <==> forall k :: 0 <= k < |rs| ==> rs[k].name != name
    ensures r.Some? ==> r.value < |rs| && rs[r.value].name == name
                        && forall k :: r.value < k < |rs| ==> rs[k].name != name
  {
    if rs == [] then None
    else
      assert forall k :: 1 <= k < |rs| ==> rs[k] == rs[1..][k - 1];
      match LastIndexOf(rs[1..], name)
      case Some(k) => Some(k + 1)
      case None => if rs[0].name == name then Some(0) else None
  }

  /**
   * Registering the same name twice leaves only the latest test: after the
   * registrations `rs`, a name holds the configuration of the last
   * registration under it, and a name never registered holds what it held.
   */
  lemma {:induction false} RegisteredFind(init: seq<(string, Slot<TestConfig>)>, rs: seq<Registration>, name: string)
    ensures Find(Registered(init, rs), name)
         == match LastIndexOf(rs, name)
            case Some(k) => Some(Member(RegisteredConfig(rs[k])))
            case None => Find(init, name)
    decreases rs
  {
    if rs != [] {
      RegisteredFind(Put(init, rs[0].name, Member(RegisteredConfig(rs[0]))), rs[1..], name);
      FindPut(init, rs[0].name, Member(RegisteredConfig(rs[0])), name);
    }
  }

  /** The entries of a fresh `'Other'` category. */
  const OtherEntries: seq<(string, Slot<TestConfig>)> := [(NameKey, Label(OtherKey))]

  /** Every test of `ts` with an empty log: the state of tests that never ran. */
  ghost function FreshLogs(ts: set<Test>): map<Test, seq<ResultEntry>>
  {
    map t | t in ts :: []
  }

  class Registry {
    /** The registry's own properties: group name to group. */
    var groups: seq<(string, Group)>
    /** The group under `'Other'`, and its category `'Other'`. */
    ghost const other: Group
    ghost const category: Category

    ghost predicate Valid()
      reads this, other, other.Categories()
    {
      groups == [(OtherKey, other)]
      && other.props == [(NameKey, Label(OtherKey)), (OtherKey, Member(category))]
      && other.Valid()
    }

    /** The tests `execute` runs, in order. */
    ghost function Scheduled(): seq<Test>
      reads this, other, other.Categories()
    {
      other.Scheduled()
    }

    /** `{}`, then `['Other'] = new Group('Other')` and `['Other'].addCategory('Other')`. */
    constructor()
      ensures Valid() && fresh(other) && fresh(category)
      ensures category.props == [(NameKey, Label(OtherKey))] && other.Repr == {}
    {
      var g := new Group(OtherKey);
      assert OtherKey[0] == 'O';
      var c := g.AddCategory(OtherKey);
      groups := [(OtherKey, g)];
      other := g;
      category := c;
    }

    /** What runs is the schedule of the category `'Other'`, nothing else. */
    lemma OnlyOtherRuns()
      requires Valid()
      ensures Scheduled() == category.Scheduled()
    {
      var p := other.props;
      FlatStep(p, 0);
      FlatStep(p, 1);
      assert p[..0] == [] && p[..2] == p;
      assert Runs(p, 1) && !Runs(p, 0);
    }

    /**
     * `['Other']['Other'].addTest(name, callback, capture)`: the test goes
     * into the category `'Other'` and nowhere else.
     */
    method Register(name: string, callback: Callback, capture: Value) returns (ghost t: Test)
      requires Valid() && PlainKey(name)
      modifies other, category
      ensures Valid() && fresh(t) && t.tests == []
      ensures t.Config() == RegisteredConfig(Registration(name, callback, capture))
      ensures category.props == Put(old(category.props), name, Member(t))
      ensures other.Repr == old(other.Repr) + {t}
    {
      assert groups[0].0 == OtherKey;
      var g := Find(groups, OtherKey).value;
      assert g.props[1].0 == OtherKey;
      var slot := Find(g.props, OtherKey).value;
      var c := slot.item;
      assert Holds(other.props, 1);
      t := c.AddTest(name, callback, capture);
      g.Repr := g.Repr + {t};
      MembersPut(old(category.props), name, t);
      assert Holds(other.props, 1) && !Holds(other.props, 0);
      assert Sound(other.props, other.Repr);
    }

    /**
     * `for (let i in tests) tests[i].execute()`: the one group runs; each
     * test it schedules is run once, in order, from the log it had.
     */
    method Execute(clock: Clock) returns (outs: seq<Output>)
      requires Valid()
      modifies other.Repr
      ensures Valid()
      ensures RanInOrder(Scheduled(), old(Snapshot(other.Repr)), outs, clock)
      ensures forall t :: t in other.Repr && t !in Scheduled() ==> t.tests == old(t.tests)
    {
      outs := [];
      var j := 0;
      while j < |groups|
        invariant 0 <= j <= |groups| && Valid()
        invariant j == 0 ==> outs == [] && forall t :: t in other.Repr ==> t.tests == old(t.tests)
        invariant j == 1 ==> RanInOrder(Scheduled(), old(Snapshot(other.Repr)), outs, clock)
        invariant j == 1 ==> forall t :: t in other.Repr && t !in Scheduled() ==> t.tests == old(t.tests)
      {
        var o := groups[j].1.Execute(clock);
        outs := outs + o;
        j := j + 1;
      }
    }
  }
}
