/** A plain JavaScript object with string keys, as the application uses
    one for the nutrition table, the accordion flags and the chart
    histogram: its own properties in insertion order, each key once.
    (Keys that read as array indices, which JavaScript enumerates first,
    are not distinguished.) */
module JsObject {
  import opened Wrappers

  datatype Entry<V> = Entry(key: string, value: V)

  /** Each key names one property. */
  predicate DistinctKeys<V>(o: seq<Entry<V>>) {
    forall i, j :: 0 <= i < j < |o| ==> o[i].key != o[j].key
  }

  predicate HasKey<V>(o: seq<Entry<V>>, key: string) {
    exists i :: 0 <= i < |o| && o[i].key == key
  }

  /** The position of the first property named `key`, or `|o|`. */
  function IndexOf<V>(o: seq<Entry<V>>, key: string): (i: nat)
    ensures i <= |o|
    ensures i < |o| ==> o[i].key == key
    ensures forall k :: 0 <= k < i ==> o[k].key != key
  {
    if o == [] then 0
    else if o[0].key == key then 0
    else 1 + IndexOf(o[1..], key)
  }

  /** `o[key]`: the value, or `None` for `undefined`. */
  function Get<V>(o: seq<Entry<V>>, key: string): (r: Option<V>)
    ensures r.None? <==> !HasKey(o, key)
    ensures r.Some? ==> o[IndexOf(o, key)] == Entry(key, r.value)
  {
    var i := IndexOf(o, key);
    if i < |o| then Some(o[i].value) else None
  }

  /** `o[key] = value`: an existing property keeps its place and takes the
      new value; a new one is appended. */
  function Set<V>(o: seq<Entry<V>>, key: string, value: V): (r: seq<Entry<V>>)
    ensures HasKey(o, key) ==> |r| == |o| && r[IndexOf(o, key)] == Entry(key, value)
    ensures !HasKey(o, key) ==> r == o + [Entry(key, value)]
  {
    var i := IndexOf(o, key);
    if i < |o| then o[i := Entry(key, value)] else o + [Entry(key, value)]
  }

  /** Assignment keeps the keys distinct, makes `key` read `value`, and
      changes no other property. */
  lemma SetGet<V>(o: seq<Entry<V>>, key: string, value: V)
    requires DistinctKeys(o)
    ensures DistinctKeys(Set(o, key, value))
    ensures Get(Set(o, key, value), key) == Some(value)
    ensures forall other :: other != key ==> Get(Set(o, key, value), other) == Get(o, other)
  {
    var r := Set(o, key, value);
    var i := IndexOf(o, key);
    forall other | other != key ensures Get(r, other) == Get(o, other) {
      var j := IndexOf(o, other);
      assert forall k :: 0 <= k < |o| ==> (r[k].key == other <==> o[k].key == other);
      if j < |o| {
        assert r[j] == o[j];
        assert IndexOf(r, other) == j;
      } else {
        assert !HasKey(r, other);
      }
    }
    if i < |o| {
      assert IndexOf(r, key) == i;
    } else {
      IndexOfUnique(r, key, |o|);
    }
  }

  /** `IndexOf` is determined by its contract. */
  lemma {:induction false} IndexOfUnique<V>(o: seq<Entry<V>>, key: string, i: nat)
    requires i < |o| && o[i].key == key
    requires forall k :: 0 <= k < i ==> o[k].key != key
    ensures IndexOf(o, key) == i
  {
    if i > 0 {
      IndexOfUnique(o[1..], key, i - 1);
    }
  }
}
