/**
 * `Category`: a container (see `Containers`) whose children are tests,
 * stored under the tests' names.
 */
module Categories {
  import opened JsValues
  import opened OrderedMaps
  import opened ResultEntries
  import opened Tests
  import opened Containers

  class Category {
    /** The category's own properties, in `for...in` order. */
    var props: seq<(string, Slot<Test>)>

    ghost predicate Valid()
      reads this
    {
      WellFormed(props)
    }

    /** The tests this category holds. */
    function Children(): set<Test>
      reads this
    {
      Members(props)
    }

    /** The tests `execute` runs, in order. */
    function Scheduled(): seq<Test>
      reads this
    {
      Schedule(props)
    }

    /** `new Category(name)`: the name and no tests. */
    constructor(name: string)
      ensures props == [(NameKey, Label(name))]
      ensures Valid() && Children() == {} && Scheduled() == []
    {
      props := [(NameKey, Label(name))];
      new;
      assert Schedule(props) == Schedule([]) + Due(props[0]);
    }

    /**
     * `addTest(name, callback, capture)`: a new test under `name`, with
     * `capture` as its asynchronous flag and one repetition; a test already
     * under `name` is replaced where it stands.
     */
    method AddTest(name: string, callback: Callback, capture: Value) returns (ghost t: Test)
      requires Valid() && PlainKey(name)
      modifies this
      ensures Valid() && fresh(t)
      ensures t.Config() == TestConfig(name, callback, AsyncFlag(capture), 1) && t.tests == []
      ensures props == Put(old(props), name, Member(t))
    {
      var test := new Test(name, callback, capture);
      WellFormedPut(props, name, test);
      props := Put(props, name, Member(test));
      t := test;
    }

    /** One turn of `execute`'s loop: the test at entry `j` runs unless its key starts with `$$`. */
    method ExecuteEntry(j: nat, clock: Clock, ghost before: map<Test, seq<ResultEntry>>, outs: seq<Output>)
      returns (outs': seq<Output>)
      requires Valid() && j < |props| && Children() <= before.Keys
      requires RanInOrder(Schedule(props[..j]), before, outs, clock)
      requires forall t :: t in Children() && t !in Schedule(props[..j]) ==> t.tests == before[t]
      modifies Children()
      ensures RanInOrder(Schedule(props[..j + 1]), before, outs', clock)
      ensures forall t :: t in Children() && t !in Schedule(props[..j + 1]) ==> t.tests == before[t]
    {
      ScheduleStep(props, j);
      outs' := outs;
      var (key, slot) := props[j];
      if !IsMetaKey(key) {
        var t := slot.item;
        NotYetRun(props, j);
        var out := t.Execute(clock);
        outs' := outs + [out];
        RanInOrderAppend(Schedule(props[..j]), [t], before, outs, [out], clock);
      }
    }

    /**
     * `execute()`: each test under a non-`$$` key, in key order, runs to
     * completion before the next starts; the other tests are not touched.
     */
    method Execute(clock: Clock) returns (outs: seq<Output>)
      requires Valid()
      modifies Children()
      ensures RanInOrder(Scheduled(), old(Snapshot(Children())), outs, clock)
      ensures forall t :: t in Children() && t !in Scheduled() ==> t.tests == old(t.tests)
    {
      ghost var before := Snapshot(Children());
      outs := [];
      var j := 0;
      while j < |props|
        invariant 0 <= j <= |props|
        invariant RanInOrder(Schedule(props[..j]), before, outs, clock)
        invariant forall t :: t in Children() && t !in Schedule(props[..j]) ==> t.tests == before[t]
      {
        outs := ExecuteEntry(j, clock, before, outs);
        j := j + 1;
      }
      assert props[..j] == props;
    }
  }

  /** What the entries say about each test: its configuration, key by key. */
  function Configs(props: seq<(string, Slot<Test>)>): (r: seq<(string, Slot<TestConfig>)>)
    ensures |r| == |props|
    ensures forall i :: 0 <= i < |props| ==> r[i].0 == props[i].0 && r[i].1.Member? == props[i].1.Member?
    ensures forall i :: 0 <= i < |props| ==> r[i].1 == ConfigOf(props[i].1)
  {
    if props == [] then []
    else [(props[0].0, ConfigOf(props[0].1))] + Configs(props[1..])
  }

  function ConfigOf(slot: Slot<Test>): Slot<TestConfig>
  {
    match slot
    case Label(name) => Label(name)
    case Member(t) => Member(t.Config())
  }

  /** Storing a test and then reading the configurations is storing its configuration. */
  lemma {:induction false} ConfigsPut(props: seq<(string, Slot<Test>)>, name: string, t: Test)
    ensures Configs(Put(props, name, Member(t))) == Put(Configs(props), name, Member(t.Config()))
  {
    if props != [] && props[0].0 != name {
      ConfigsPut(props[1..], name, t);
    }
  }
}
