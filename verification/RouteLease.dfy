/** The table of route leases: which attempt currently serves one pane of one
    remote device. Attempts are named by identity. */
module RouteLease {
  import opened Wrappers

  type Id = nat

  datatype Key = Key(remotePeer: string, session: nat, clientInstance: string)

  type Leases = map<Key, Id>

  datatype Claimed = Claimed(leases: Leases, previous: Option<Id>, ok: bool)

  function Lookup(leases: Leases, key: Key): Option<Id> {
    if key in leases then Some(leases[key]) else None
  }

  // Compare and swap, except that the expected holder may be gone already.
  function ClaimLease(leases: Leases, key: Key, expected: Option<Id>, next: Id): Claimed {
    var current := Lookup(leases, key);
    if current != expected && (expected.None? || current.Some?) then Claimed(leases, current, false)
    else Claimed(leases[key := next], if current.None? then expected else current, true)
  }

  function ReleaseLease(leases: Leases, key: Key, owner: Id): Leases {
    if Lookup(leases, key) == Some(owner) then leases - {key} else leases
  }

  class RouteLeases {
    var leases: Leases

    constructor ()
      ensures leases == map[]
    {
      leases := map[];
    }

    method Current(key: Key) returns (holder: Option<Id>)
      ensures holder == Lookup(leases, key)
    {
      holder := if key in leases then Some(leases[key]) else None;
    }

    method Claim(key: Key, expected: Option<Id>, next: Id) returns (previous: Option<Id>, ok: bool)
      modifies this
      ensures Claimed(leases, previous, ok) == ClaimLease(old(leases), key, expected, next)
      ensures ok <==> if key in old(leases) then expected == Some(old(leases)[key]) else true
      ensures if ok then leases == old(leases)[key := next] && previous == expected
              else leases == old(leases) && key in leases && previous == Some(leases[key])
    {
      previous := Current(key);
      if previous != expected && (expected == None || previous != None) {
        return previous, false;
      }
      leases := leases[key := next];
      if previous == None {
        previous := expected;
      }
      ok := true;
    }

    method Release(key: Key, owner: Id)
      modifies this
      ensures leases == ReleaseLease(old(leases), key, owner)
      ensures leases == if key in old(leases) && old(leases)[key] == owner then old(leases) - {key} else old(leases)
    {
      var holder := Current(key);
      if holder == Some(owner) {
        leases := leases - {key};
      }
    }
  }
}
