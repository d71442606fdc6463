/** Building a map from a list of key/value entries where a later entry for
    a key overwrites an earlier one, as repeated `m[k] = v` in a Go loop
    does. Entries that the loop skips are `Skip`. */
module Assoc {

  datatype Entry<V> = Skip | Put(key: string, value: V)

  predicate PutsKey<V>(e: Entry<V>, k: string) { e.Put? && e.key == k }

  /** The map after applying the entries in order. */
  function Assign<V>(es: seq<Entry<V>>): map<string, V>
  {
    if es == [] then map[]
    else
      var e := es[|es| - 1];
      if e.Put? then Assign(es[..|es| - 1])[e.key := e.value] else Assign(es[..|es| - 1])
  }

  /** A key is in the map exactly when some entry puts it. */
  lemma {:induction false} AssignKeys<V>(es: seq<Entry<V>>, k: string)
    ensures k in Assign(es) <==> exists i :: 0 <= i < |es| && PutsKey(es[i], k)
  {
    if es != [] {
      var init := es[..|es| - 1];
      AssignKeys(init, k);
      assert forall i :: 0 <= i < |init| ==> init[i] == es[i];
      if PutsKey(es[|es| - 1], k) {
        assert PutsKey(es[|es| - 1], k);
      }
    }
  }

  /** Each key maps to the value of its last entry. */
  lemma {:induction false} AssignLastWins<V>(es: seq<Entry<V>>, i: nat)
    requires i < |es| && es[i].Put?
    requires forall j :: i < j < |es| ==> !PutsKey(es[j], es[i].key)
    ensures es[i].key in Assign(es) && Assign(es)[es[i].key] == es[i].value
  {
    if i < |es| - 1 {
      var init := es[..|es| - 1];
      assert forall j :: i < j < |init| ==> init[j] == es[j];
      AssignLastWins(init, i);
    }
  }

  /** Appending one entry updates just that entry's key. */
  lemma AssignSnoc<V>(es: seq<Entry<V>>, e: Entry<V>)
    ensures Assign(es + [e]) == if e.Put? then Assign(es)[e.key := e.value] else Assign(es)
  {
    assert (es + [e])[..|es|] == es;
  }
}
