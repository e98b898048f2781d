/**
 * The own properties of a JavaScript object whose keys are ordinary strings,
 * as an insertion-ordered list of (key, value) pairs.
 *
 * `obj[k] = v` on such an object replaces the value in place when `k` is
 * already a key (its position in `for...in` order does not move) and
 * appends `k` at the end otherwise.
 */
module OrderedMaps {
  import opened JsValues

  predicate UniqueKeys<V>(m: seq<(string, V)>)
  {
    forall i, j :: 0 <= i < j < |m| ==> m[i].0 != m[j].0
  }

  predicate HasKey<V>(m: seq<(string, V)>, k: string)
  {
    exists i :: 0 <= i < |m| && m[i].0 == k
  }

  /** `obj[k]` for an own key, as an option. */
  function Find<V>(m: seq<(string, V)>, k: string): (r: Option<V>)
    ensures r.None? <==> !HasKey(m, k)
    ensures r.Some? ==> (k, r.value) in m
    ensures UniqueKeys(m) ==> forall i :: 0 <= i < |m| && m[i].0 == k ==> r == Some(m[i].1)
  {
    if m == [] then None
    else if m[0].0 == k then Some(m[0].1)
    else
      assert forall i :: 1 <= i < |m| ==> m[i] == m[1..][i - 1];
      Find(m[1..], k)
  }

  /** `obj[k] = v` */
  function Put<V>(m: seq<(string, V)>, k: string, v: V): (r: seq<(string, V)>)
    ensures !HasKey(m, k) ==> r == m + [(k, v)]
    ensures HasKey(m, k) ==> |r| == |m|
    ensures forall i :: 0 <= i < |r| ==> r[i] == (k, v) || r[i] in m
    ensures UniqueKeys(m) ==> UniqueKeys(r)
    ensures UniqueKeys(m) ==> forall i :: 0 <= i < |m| ==> r[i] == (if m[i].0 == k then (k, v) else m[i])
  {
    if m == [] then [(k, v)]
    else if m[0].0 == k then [(k, v)] + m[1..]
    else
      assert forall i :: 1 <= i < |m| ==> m[i] == m[1..][i - 1];
      [m[0]] + Put(m[1..], k, v)
  }

  /** After `obj[k] = v`, `obj[k]` is `v` and every other key reads as before. */
  lemma {:induction false} FindPut<V>(m: seq<(string, V)>, k: string, v: V, k': string)
    ensures Find(Put(m, k, v), k') == if k' == k then Some(v) else Find(m, k')
  {
    if m != [] && m[0].0 != k {
      FindPut(m[1..], k, v, k');
    }
  }
}
