/** Iteration over hash maps, in no particular order. */
module HashMaps {
  /** The keys of a hash map in the order in which iteration happens to visit them. */
  method Enumerate<K(==), V>(m: map<K, V>) returns (keys: seq<K>)
    ensures forall i | 0 <= i < |keys| :: keys[i] in m
    ensures forall i, j | 0 <= i < j < |keys| :: keys[i] != keys[j]
    ensures forall k <- m :: exists i | 0 <= i < |keys| :: keys[i] == k
  {
    keys := [];
    var rest := m.Keys;
    while rest != {}
      invariant rest <= m.Keys
      invariant forall i | 0 <= i < |keys| :: keys[i] in m && keys[i] !in rest
      invariant forall i, j | 0 <= i < j < |keys| :: keys[i] != keys[j]
      invariant forall k <- m :: k in rest || exists i | 0 <= i < |keys| :: keys[i] == k
    {
      var k :| k in rest;
      ghost var before := keys;
      keys, rest := keys + [k], rest - {k};
      assert keys[|before|] == k;
      forall j <- m | j !in rest ensures exists i | 0 <= i < |keys| :: keys[i] == j {
        if j != k {
          var i :| 0 <= i < |before| && before[i] == j;
          assert keys[i] == j;
        }
      }
    }
  }
}
