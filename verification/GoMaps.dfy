/**
  Go maps: heap objects that several holders may share, and that range loops visit in any order.
*/
module GoMaps {

  class GoMap<V> {
    var m: map<string, V>

    constructor (m: map<string, V>)
      ensures this.m == m
    {
      this.m := m;
    }
  }

  /** The contents of a map that may be nil. */
  function Contents<V>(m: GoMap?<V>): map<string, V>
    reads m
  {
    if m == null then map[] else m.m
  }

  /** `for k := range keys { delete(m, k) }` */
  method DeleteAll<V>(m: GoMap<V>, keys: set<string>)
    modifies m
    ensures m.m == old(m.m) - keys
  {
    var rest := keys;
    while rest != {}
      invariant rest <= keys && m.m == old(m.m) - (keys - rest)
      decreases rest
    {
      var k :| k in rest;
      m.m, rest := m.m - {k}, rest - {k};
    }
  }

  /** `for k, v := range from { m[k] = v }`; both may be the same map. */
  method CopyAll<V>(m: GoMap<V>, from: GoMap?<V>)
    modifies m
    ensures m.m == old(m.m) + old(Contents(from))
  {
    if from != null {
      var rest := from.m.Keys;
      while rest != {}
        invariant rest <= old(from.m).Keys
        invariant from.m == old(from.m)
        invariant m.m == old(m.m) + (old(from.m) - rest)
        decreases rest
      {
        var k :| k in rest;
        m.m, rest := m.m[k := from.m[k]], rest - {k};
      }
    }
  }
}
