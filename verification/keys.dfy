/**
 * Listing the keys of a Go map into a slice (`for k := range m { s = append(s, k) }`).
 * Go's map iteration order is unspecified, so the result is characterised as
 * a set: every key exactly once.
 */
module Keys {

  predicate NoDuplicates(s: seq<string>) {
    forall i, j :: 0 <= i < j < |s| ==> s[i] != s[j]
  }

  method ListKeys<V>(m: map<string, V>) returns (keys: seq<string>)
    ensures forall k :: k in keys <==> k in m
    ensures NoDuplicates(keys)
  {
    keys := [];
    var rest := m.Keys;
    while rest != {}
      invariant forall k :: k in m <==> k in rest || k in keys
      invariant forall k :: k in keys ==> k !in rest
      invariant NoDuplicates(keys)
      decreases rest
    {
      var k :| k in rest;
      keys := keys + [k];
      rest := rest - {k};
    }
  }
}
