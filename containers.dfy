/**
 * What `Category` and `Group` share: a plain object that keeps its name
 * under `$$name` and each child under the child's name, and whose
 * `execute` walks its keys with `for...in`, skipping those that start with
 * `$$`.
 *
 * The object's own properties are an insertion-ordered list of keys (see
 * `OrderedMaps`).
 */
module Containers {
  import opened JsValues
  import opened OrderedMaps

  /** What a key of a container holds: the container's name, or one of its children. */
  datatype Slot<T> = Label(name: string) | Member(item: T)

  const NameKey: string := "$$name"

  /** `key.startsWith('$$')` */
  predicate IsMetaKey(key: string)
  {
    |key| >= 2 && key[0] == '$' && key[1] == '$'
  }

  /**
   * A name that `this[name] = ...` stores as an ordinary own property
   * listed in insertion order: not an integer-like key (which `for...in`
   * would list first, in numeric order), not `__proto__` (which would
   * replace the prototype) and not the name of a method of the containers
   * (which would hide it).
   */
  predicate PlainKey(key: string)
  {
    !(|key| > 0 && forall i :: 0 <= i < |key| ==> '0' <= key[i] <= '9')
    && key != "__proto__" && key != "addTest" && key != "addCategory" && key != "execute"
  }

  /** The children a container's `execute` runs: those under non-`$$` keys, in key order. */
  function Schedule<T(==)>(props: seq<(string, Slot<T>)>): seq<T>
  {
    if props == [] then []
    else Schedule(props[..|props| - 1]) + Due(props[|props| - 1])
  }

  /** The child one entry contributes to the schedule, if any. */
  function Due<T(==)>(p: (string, Slot<T>)): seq<T>
  {
    if !IsMetaKey(p.0) && p.1.Member? then [p.1.item] else []
  }

  /** Every child held by the entries. */
  function Members<T(==)>(props: seq<(string, Slot<T>)>): set<T>
  {
    set i | 0 <= i < |props| && props[i].1.Member? :: props[i].1.item
  }

  /**
   * The shape every category keeps: keys are unique, only `$$name` can hold
   * the name, and no child object is held under two keys.
   */
  predicate WellFormed<T(==)>(props: seq<(string, Slot<T>)>)
  {
    UniqueKeys(props)
    && (forall i :: 0 <= i < |props| && props[i].1.Label? ==> props[i].0 == NameKey)
    && (forall i, j :: 0 <= i < j < |props| && props[i].1.Member? && props[j].1.Member? ==>
          props[i].1.item != props[j].1.item)
  }

  /** The entry index `i` runs in `execute`. */
  predicate Runs<T(==)>(props: seq<(string, Slot<T>)>, i: int)
  {
    0 <= i < |props| && !IsMetaKey(props[i].0) && props[i].1.Member?
  }

  /**
   * The schedule holds exactly the children under non-`$$` keys, and each of
   * them once.
   */
  lemma {:induction false} ScheduleExact<T>(props: seq<(string, Slot<T>)>)
    requires WellFormed(props)
    ensures forall t :: t in Schedule(props) <==> exists i :: Runs(props, i) && props[i].1.item == t
    ensures forall a, b :: 0 <= a < b < |Schedule(props)| ==> Schedule(props)[a] != Schedule(props)[b]
  {
    if props != [] {
      var init := props[..|props| - 1];
      assert WellFormed(init);
      ScheduleExact(init);
      forall t ensures t in Schedule(props) <==> exists i :: Runs(props, i) && props[i].1.item == t {
        if t in Schedule(props) && t !in Schedule(init) {
          assert Runs(props, |props| - 1);
        }
        if i :| Runs(props, i) && props[i].1.item == t {
          if i < |props| - 1 {
            assert Runs(init, i);
          }
        }
      }
      var last := props[|props| - 1];
      if Due(last) != [] {
        NotYetRun(props, |props| - 1);
        assert init == props[..|props| - 1];
      }
    }
  }

  /** The schedule is taken from the entries one at a time. */
  lemma ScheduleStep<T>(props: seq<(string, Slot<T>)>, j: nat)
    requires j < |props|
    ensures Schedule(props[..j + 1]) == Schedule(props[..j]) + Due(props[j])
  {
    assert props[..j + 1][..j] == props[..j];
  }

  /** The child at entry `j` is not among those the entries before it schedule. */
  lemma NotYetRun<T>(props: seq<(string, Slot<T>)>, j: nat)
    requires WellFormed(props) && Runs(props, j)
    ensures props[j].1.item !in Schedule(props[..j])
  {
    var init := props[..j];
    assert WellFormed(init);
    ScheduleExact(init);
  }

  /** A child under a `$$` key is never run. */
  lemma MetaKeysSkipped<T>(props: seq<(string, Slot<T>)>, i: int)
    requires WellFormed(props) && 0 <= i < |props| && props[i].1.Member? && IsMetaKey(props[i].0)
    ensures props[i].1.item !in Schedule(props)
  {
    ScheduleExact(props);
  }

  /** Storing a new child object keeps the entries well formed. */
  lemma WellFormedPut<T>(props: seq<(string, Slot<T>)>, name: string, t: T)
    requires WellFormed(props) && t !in Members(props)
    ensures WellFormed(Put(props, name, Member(t)))
  {
    var r := Put(props, name, Member(t));
    forall i, j | 0 <= i < j < |r| && r[i].1.Member? && r[j].1.Member?
      ensures r[i].1.item != r[j].1.item
    {
      if j == |props| {
        assert r[i] == props[i];
      }
    }
  }

  /**
   * Storing a new child under a name already in use leaves only the latest
   * child under it and every other key as it was; unless the name starts
   * with `$$`, the new child is run.
   */
  lemma LatestRegistrationWins<T>(props: seq<(string, Slot<T>)>, name: string, t: T)
    requires WellFormed(props) && t !in Members(props)
    ensures Find(Put(props, name, Member(t)), name) == Some(Member(t))
    ensures forall k :: k != name ==> Find(Put(props, name, Member(t)), k) == Find(props, k)
    ensures t in Schedule(Put(props, name, Member(t))) <==> !IsMetaKey(name)
  {
    FindPut(props, name, Member(t), name);
    forall k | k != name ensures Find(Put(props, name, Member(t)), k) == Find(props, k) {
      FindPut(props, name, Member(t), k);
    }
    var r := Put(props, name, Member(t));
    WellFormedPut(props, name, t);
    ScheduleExact(r);
    var i :| 0 <= i < |r| && r[i] == (name, Member(t));
    if !IsMetaKey(name) {
      assert Runs(r, i);
    }
  }

  /** Storing `x` under `name` adds `x` and can only drop the child that was under `name`. */
  lemma MembersPut<T>(props: seq<(string, Slot<T>)>, name: string, x: T)
    requires UniqueKeys(props)
    ensures x in Members(Put(props, name, Member(x)))
    ensures Members(Put(props, name, Member(x))) <= Members(props) + {x}
  {
    var r := Put(props, name, Member(x));
    var i := if HasKey(props, name) then var i :| 0 <= i < |props| && props[i].0 == name; i else |props|;
    assert r[i] == (name, Member(x));
    assert r[i].1.item in Members(r);
    forall y | y in Members(r) ensures y in Members(props) + {x} {
      var n :| 0 <= n < |r| && r[n].1.Member? && r[n].1.item == y;
      if r[n] != (name, Member(x)) {
        var k :| 0 <= k < |props| && props[k] == r[n];
        assert props[k].1.item in Members(props);
      }
    }
  }

  /** Every scheduled child is a child. */
  lemma {:induction false} ScheduleWithin<T>(props: seq<(string, Slot<T>)>)
    ensures forall x :: x in Schedule(props) ==> x in Members(props)
  {
    if props != [] {
      var init := props[..|props| - 1];
      ScheduleWithin(init);
      forall x | x in Schedule(props) ensures x in Members(props) {
        if x in Schedule(init) {
          var i :| 0 <= i < |init| && init[i].1.Member? && init[i].1.item == x;
          assert props[i] == init[i];
        } else {
          assert props[|props| - 1].1.item == x;
        }
      }
    }
  }
}
