// The mutex-guarded maps of pkg/util/safemaps.go. Each method is one critical section, so a
// method call is one atomic step; the lock itself is not modelled.

module SafeMaps {
  import opened Base
  import opened Text

  class SafeMap<V> {
    var v: map<string, V>

    constructor ()
      ensures v == map[]
    {
      v := map[];
    }

    method Set(key: string, value: V)
      modifies this
      ensures v == old(v)[key := value]
    {
      v := v[key := value];
    }

    method Delete(key: string)
      modifies this
      ensures v == old(v) - {key}
    {
      v := v - {key};
    }

    method Get(key: string) returns (value: Option<V>)
      ensures value == Find(v, key)
    {
      value := if key in v then Some(v[key]) else None;
    }
  }

  type UidIndex = map<string, set<string>>

  // The UIDs counted under a key; a missing inner map counts as an empty one.
  function Uids(m: UidIndex, key: string): set<string> {
    GetOr(m, key, {})
  }

  function Added(m: UidIndex, key: string, uid: string): (r: UidIndex)
    ensures Uids(r, key) == Uids(m, key) + {uid}
    ensures forall k :: k != key ==> Uids(r, k) == Uids(m, k)
  {
    m[key := Uids(m, key) + {uid}]
  }

  function Removed(m: UidIndex, key: string, uid: string): (r: UidIndex)
    ensures Uids(r, key) == Uids(m, key) - {uid}
    ensures forall k :: k != key ==> Uids(r, k) == Uids(m, k)
    ensures r.Keys == m.Keys
  {
    if key in m then m[key := m[key] - {uid}] else m
  }

  class SafeUIDMap {
    var v: UidIndex

    constructor ()
      ensures v == map[]
    {
      v := map[];
    }

    method AddUID(key: string, uid: string)
      modifies this
      ensures v == Added(old(v), key, uid)
    {
      if key !in v {
        v := v[key := {}];
      }
      v := v[key := v[key] + {uid}];
    }

    method DeleteUID(key: string, uid: string)
      modifies this
      ensures v == Removed(old(v), key, uid)
    {
      if key in v {
        v := v[key := v[key] - {uid}];
      }
    }

    method GetUIDCount(key: string) returns (count: nat)
      ensures count == |Uids(v, key)|
    {
      if key !in v {
        return 0;
      }
      return |v[key]|;
    }
  }

  /** Looks at the keys in an arbitrary order and stops at the first with the prefix. */
  method HasPrefixInMap(m: map<string, string>, prefix: string) returns (found: bool)
    ensures found <==> exists key :: key in m && HasPrefix(key, prefix)
  {
    var rest := m.Keys;
    while rest != {}
      invariant rest <= m.Keys
      invariant forall key :: key in m.Keys - rest ==> !HasPrefix(key, prefix)
      decreases rest
    {
      var key :| key in rest;
      if HasPrefix(key, prefix) {
        return true;
      }
      rest := rest - {key};
    }
    return false;
  }
}
