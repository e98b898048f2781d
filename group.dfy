/**
 * `Group`: a container (see `Containers`) whose children are categories,
 * stored under the categories' names.
 */
module Groups {
  import opened JsValues
  import opened OrderedMaps
  import opened ResultEntries
  import opened Tests
  import opened Containers
  import opened Categories

  /** The entry index `i` holds a category. */
  predicate Holds(props: seq<(string, Slot<Category>)>, i: int)
  {
    0 <= i < |props| && props[i].1.Member?
  }

  /** The tests `execute` runs for the entries `props`: category by category, in key order. */
  ghost function Flat(props: seq<(string, Slot<Category>)>): seq<Test>
    reads Members(props)
  {
    if props == [] then []
    else
      var n := |props| - 1;
      assert Members(props[..n]) <= Members(props) by {
        forall c | c in Members(props[..n]) ensures c in Members(props) {
          var i :| 0 <= i < n && props[..n][i].1.Member? && props[..n][i].1.item == c;
          assert props[i] == props[..n][i];
        }
      }
      assert Runs(props, n) ==> props[n].1.item in Members(props);
      Flat(props[..n]) + (if Runs(props, n) then props[n].1.item.Scheduled() else [])
  }

  /** A test in `Flat(props)` is one the category of some running entry schedules. */
  lemma {:induction false} FlatFrom(props: seq<(string, Slot<Category>)>, t: Test)
    requires t in Flat(props)
    ensures exists i :: Runs(props, i) && t in props[i].1.item.Scheduled()
  {
    var n := |props| - 1;
    if t in Flat(props[..n]) {
      FlatFrom(props[..n], t);
      var i :| Runs(props[..n], i) && t in props[..n][i].1.item.Scheduled();
      assert props[i] == props[..n][i];
    } else {
      assert Runs(props, n);
    }
  }

  /** The schedule is taken from the entries one at a time. */
  lemma FlatStep(props: seq<(string, Slot<Category>)>, j: nat)
    requires j < |props|
    ensures Flat(props[..j + 1]) == Flat(props[..j]) + (if Runs(props, j) then props[j].1.item.Scheduled() else [])
  {
    assert props[..j + 1][..j] == props[..j];
  }

  /** Running tests leaves the schedule of the entries as it was. */
  twostate lemma {:induction false} FlatUnchanged(props: seq<(string, Slot<Category>)>)
    requires forall i :: Holds(props, i) ==> unchanged(props[i].1.item)
    ensures Flat(props) == old(Flat(props))
  {
    if props != [] {
      var n := |props| - 1;
      FlatUnchanged(props[..n]);
      if Runs(props, n) {
        assert Holds(props, n);
      }
    }
  }

  /**
   * Every category is well formed and holds tests from `repr` only, and no
   * test is held by two categories.
   */
  ghost predicate Sound(props: seq<(string, Slot<Category>)>, repr: set<Test>)
    reads Members(props)
  {
    (forall i :: Holds(props, i) ==> props[i].1.item.Valid() && props[i].1.item.Children() <= repr)
    && (forall i, j :: Holds(props, i) && Holds(props, j) && i != j ==>
          props[i].1.item.Children() !! props[j].1.item.Children())
  }

  /** Storing an empty category keeps the categories sound. */
  lemma SoundPut(props: seq<(string, Slot<Category>)>, repr: set<Test>, name: string, c: Category)
    requires UniqueKeys(props) && Sound(props, repr) && c.Valid() && c.Children() == {}
    ensures Sound(Put(props, name, Member(c)), repr)
  {
    var r := Put(props, name, Member(c));
    MembersPut(props, name, c);
    forall i | Holds(r, i) ensures r[i].1.item.Valid() && r[i].1.item.Children() <= repr {
      if r[i] != (name, Member(c)) {
        var k :| 0 <= k < |props| && props[k] == r[i];
        assert Holds(props, k);
      }
    }
    forall i, j | Holds(r, i) && Holds(r, j) && i != j
      ensures r[i].1.item.Children() !! r[j].1.item.Children()
    {
      if r[i] != (name, Member(c)) && r[j] != (name, Member(c)) {
        assert i < |props| && j < |props|;
        assert r[i] == props[i] && r[j] == props[j];
        assert Holds(props, i) && Holds(props, j);
      }
    }
  }

  class Group {
    /** The group's own properties, in `for...in` order. */
    var props: seq<(string, Slot<Category>)>
    /** The tests the group's categories may hold. */
    ghost var Repr: set<Test>

    /** The categories this group holds. */
    ghost function Categories(): set<Category>
      reads this
    {
      Members(props)
    }

    /**
     * Well-formed entries, well-formed categories, and no test held by two
     * categories.
     */
    ghost predicate Valid()
      reads this, Categories()
    {
      WellFormed(props) && Sound(props, Repr)
    }

    /** The tests `execute` runs, in order: category by category, in key order. */
    ghost function Scheduled(): seq<Test>
      reads this, Categories()
    {
      Flat(props)
    }

    /** `new Group(name)`: the name and no categories. */
    constructor(name: string)
      ensures props == [(NameKey, Label(name))]
      ensures Valid() && Categories() == {} && Repr == {}
    {
      props := [(NameKey, Label(name))];
      Repr := {};
    }

    /**
     * `addCategory(name)`: a new, empty category under `name`; a category
     * already under `name` is replaced where it stands, and its tests with
     * it.
     */
    method AddCategory(name: string) returns (ghost c: Category)
      requires Valid() && PlainKey(name)
      modifies this
      ensures Valid() && fresh(c)
      ensures c.props == [(NameKey, Label(name))] && c.Children() == {}
      ensures props == Put(old(props), name, Member(c)) && Repr == old(Repr)
    {
      var category := new Category(name);
      WellFormedPut(props, name, category);
      MembersPut(props, name, category);
      SoundPut(props, Repr, name, category);
      props := Put(props, name, Member(category));
      c := category;
    }

    /** The tests the entries before `j` run lie outside the category at `j`. */
    lemma NotRunBefore(j: nat)
      requires Valid() && Runs(props, j)
      ensures forall t :: t in Flat(props[..j]) ==> t !in props[j].1.item.Children()
    {
      forall t | t in Flat(props[..j]) ensures t !in props[j].1.item.Children() {
        FlatFrom(props[..j], t);
        var i :| Runs(props[..j], i) && t in props[..j][i].1.item.Scheduled();
        assert props[i] == props[..j][i] && Holds(props, i) && Holds(props, j);
        ScheduleWithin(props[i].1.item.props);
      }
    }

    /** One turn of `execute`'s loop: the category at entry `j` runs unless its key starts with `$$`. */
    method ExecuteEntry(j: nat, clock: Clock, ghost before: map<Test, seq<ResultEntry>>, outs: seq<Output>)
      returns (outs': seq<Output>)
      requires Valid() && j < |props| && Repr <= before.Keys
      requires RanInOrder(Flat(props[..j]), before, outs, clock)
      requires forall t :: t in Repr && t !in Flat(props[..j]) ==> t.tests == before[t]
      modifies Repr
      ensures RanInOrder(Flat(props[..j + 1]), before, outs', clock)
      ensures forall t :: t in Repr && t !in Flat(props[..j + 1]) ==> t.tests == before[t]
    {
      outs' := outs;
      var (key, slot) := props[j];
      if !IsMetaKey(key) {
        assert Runs(props, j);
        ghost var done := Flat(props[..j]);
        outs' := RunCategory(j, clock, before, outs, done);
        FlatUnchanged(props[..j]);
      }
      FlatStep(props, j);
    }

    /** Runs the category at entry `j` after the tests `done` of the entries before it. */
    method RunCategory(j: nat, clock: Clock, ghost before: map<Test, seq<ResultEntry>>, outs: seq<Output>,
                       ghost done: seq<Test>)
      returns (outs': seq<Output>)
      requires Valid() && Runs(props, j) && Repr <= before.Keys && done == Flat(props[..j])
      requires RanInOrder(done, before, outs, clock)
      requires forall t :: t in Repr && t !in done ==> t.tests == before[t]
      modifies Repr
      ensures RanInOrder(done + props[j].1.item.Scheduled(), before, outs', clock)
      ensures forall t :: t in Repr && t !in done + props[j].1.item.Scheduled() ==> t.tests == before[t]
    {
      var c := props[j].1.item;
      assert Holds(props, j);
      NotRunBefore(j);
      ScheduleWithin(c.props);
      var o := c.Execute(clock);
      outs' := outs + o;
      RanInOrderAppend(done, c.Scheduled(), before, outs, o, clock);
      forall t | t in Repr && t !in done + c.Scheduled() ensures t.tests == before[t] {
        assert old(t.tests) == before[t];
        if t in c.Children() {
          assert t !in c.Scheduled();
        }
      }
    }

    /**
     * `execute()`: each category under a non-`$$` key, in key order, runs to
     * completion before the next starts; the tests that no run reaches are
     * not touched.
     */
    method Execute(clock: Clock) returns (outs: seq<Output>)
      requires Valid()
      modifies Repr
      ensures RanInOrder(Scheduled(), old(Snapshot(Repr)), outs, clock)
      ensures forall t :: t in Repr && t !in Scheduled() ==> t.tests == old(t.tests)
    {
      ghost var before := Snapshot(Repr);
      outs := [];
      var j := 0;
      while j < |props|
        invariant 0 <= j <= |props|
        invariant RanInOrder(Flat(props[..j]), before, outs, clock)
        invariant forall t :: t in Repr && t !in Flat(props[..j]) ==> t.tests == before[t]
      {
        outs := ExecuteEntry(j, clock, before, outs);
        j := j + 1;
      }
      assert props[..j] == props;
    }
  }
}
