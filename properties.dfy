/** The zero-terminated property lists (`cl_context_properties[]`, `cl_queue_properties[]`)
    the wrappers hand to the driver: key, value, key, value, ..., 0. A list is read as the
    driver reads it: the first pair with a key wins, and the first zero key ends the list. */
module Properties {
  import opened ClTypes
  import opened Wrappers

  datatype Property = Property(key: u64, value: u64)

  /** The value the driver reads for `key`: the value of the first pair with that key before
      the terminating zero, or None when there is none. */
  function Lookup(props: seq<u64>, key: u64): (r: Option<u64>)
    decreases |props|
  {
    if |props| < 2 || props[0] == 0 then None
    else if props[0] == key then Some(props[1])
    else Lookup(props[2..], key)
  }

  /** The pairs written out one after the other, without the terminator. */
  function Flatten(pairs: seq<Property>): (s: seq<u64>)
    ensures |s| == 2 * |pairs|
    ensures forall i :: 0 <= i < |pairs| ==> s[2 * i] == pairs[i].key && s[2 * i + 1] == pairs[i].value
  {
    if pairs == [] then [] else [pairs[0].key, pairs[0].value] + Flatten(pairs[1..])
  }

  /** The value of the first pair with `key`. */
  function FirstValue(pairs: seq<Property>, key: u64): (r: Option<u64>)
    ensures r.Some? ==> exists i :: 0 <= i < |pairs| && pairs[i] == Property(key, r.value)
    ensures r.None? ==> forall i :: 0 <= i < |pairs| ==> pairs[i].key != key
  {
    if pairs == [] then None
    else if pairs[0].key == key then Some(pairs[0].value)
    else FirstValue(pairs[1..], key)
  }

  predicate NonZeroKeys(pairs: seq<Property>)
  {
    forall i :: 0 <= i < |pairs| ==> pairs[i].key != 0
  }

  /** Writing the pairs out and terminating them with 0 loses nothing: the driver reads back
      for every key the value of its first pair. */
  lemma {:induction false} LookupFlatten(pairs: seq<Property>, key: u64)
    requires NonZeroKeys(pairs)
    ensures Lookup(Flatten(pairs) + [0], key) == FirstValue(pairs, key)
    decreases |pairs|
  {
    if pairs != [] {
      var s := Flatten(pairs) + [0];
      assert s[2..] == Flatten(pairs[1..]) + [0];
      LookupFlatten(pairs[1..], key);
    }
  }

  /** Putting a pair in front of a list: its key now reads its value, and every other key
      reads what it read before. */
  lemma LookupPrepend(k: u64, v: u64, rest: seq<u64>, key: u64)
    requires k != 0
    ensures Lookup([k, v] + rest, key) == if key == k then Some(v) else Lookup(rest, key)
  {
    assert ([k, v] + rest)[2..] == rest;
  }

  /** A zero value does not end the list, only a zero key does. */
  lemma ZeroValueDoesNotTerminate(k1: u64, k2: u64, v2: u64)
    requires k1 != 0 && k2 != 0 && k1 != k2
    ensures Lookup([k1, 0, k2, v2, 0], k2) == Some(v2)
  {
    LookupPrepend(k1, 0, [k2, v2, 0], k2);
    LookupPrepend(k2, v2, [0], k2);
  }
}
