/** One attempt to serve a terminal over a peer route. Every method below is one
    critical section of the attempt's mutex; between two of them any other
    goroutine may run. */
module HostAttempt {
  import opened Wrappers
  import opened RouteLease

  type Sub = nat
  type Channel = nat

  datatype Attempt = Attempt(
    closed: bool, starting: bool, sub: Option<Sub>, channel: Option<Channel>, key: Option<Key>, held: bool)

  const FRESH := Attempt(false, false, None, None, None, false)

  predicate Streaming(a: Attempt) {
    a.sub.Some? || a.channel.Some?
  }

  predicate MayStart(a: Attempt) {
    !a.closed && !a.starting && !Streaming(a)
  }

  datatype Outcome = Rejected | Superseded | Took(previous: Option<Id>)

  datatype AttachResult = AttachResult(attempt: Attempt, leases: Leases, outcome: Outcome)

  // The second section of start: take the channel and the subscription, then
  // claim the lease, or undo everything if the lease moved meanwhile.
  function AttachTo(a: Attempt, self: Id, leases: Leases, key: Key, expected: Option<Id>, channel: Channel, sub: Sub): AttachResult {
    if a.closed || Streaming(a) then AttachResult(a, leases, Rejected)
    else
      var claim := ClaimLease(leases, key, expected, self);
      if claim.ok
      then AttachResult(Attempt(false, false, Some(sub), Some(channel), Some(key), true), claim.leases, Took(claim.previous))
      else AttachResult(Attempt(false, false, None, None, None, a.held), leases, Superseded)
  }

  function Closed(a: Attempt): Attempt {
    Attempt(true, false, None, None, a.key, false)
  }

  // What the closing goroutine takes with it out of the section.
  datatype Spoils = Spoils(lease: Option<Key>, sub: Option<Sub>)

  function Taken(a: Attempt): Spoils {
    Spoils(if a.held then a.key else None, a.sub)
  }

  class HostAttempt {
    const id: Id
    const table: RouteLeases
    var closed: bool
    var starting: bool
    var sub: Option<Sub>
    var channel: Option<Channel>
    var key: Option<Key>
    var held: bool
    var transport: Option<nat>

    function State(): Attempt
      reads this
    {
      Attempt(closed, starting, sub, channel, key, held)
    }

    constructor (id: Id, table: RouteLeases)
      ensures State() == FRESH && this.id == id && this.table == table && transport == None
    {
      this.id, this.table := id, table;
      closed, starting, sub, channel, key, held, transport := false, false, None, None, None, false, None;
    }

    // First section of start. False: closed, already starting or streaming.
    method BeginStart() returns (ok: bool)
      modifies this`starting
      ensures ok <==> old(MayStart(State()))
      ensures ok <==> old(!closed && !starting && sub.None? && channel.None?)
      ensures State() == if ok then old(State()).(starting := true) else old(State())
    {
      if closed || starting || sub != None || channel != None {
        return false;
      }
      starting := true;
      ok := true;
    }

    // Deferred when start gives up.
    method EndStart()
      modifies this`starting
      ensures State() == old(State()).(starting := false)
    {
      starting := false;
    }

    method Attach(newKey: Key, expected: Option<Id>, newChannel: Channel, newSub: Sub) returns (outcome: Outcome)
      modifies this, table
      ensures AttachResult(State(), table.leases, outcome)
           == AttachTo(old(State()), id, old(table.leases), newKey, expected, newChannel, newSub)
      ensures transport == old(transport)
    {
      if closed || sub != None || channel != None {
        return Rejected;
      }
      channel, sub, key := Some(newChannel), Some(newSub), Some(newKey);
      var previous, claimed := table.Claim(newKey, expected, id);
      if !claimed {
        channel, sub, key := None, None, None;
        starting := false;
        return Superseded;
      }
      held := true;
      starting := false;
      return Took(previous);
    }

    // The section of close. Later calls do nothing; the first one leaves the
    // release of the lease and of the subscription to the caller.
    method Close() returns (spoils: Option<Spoils>, oldTransport: Option<nat>)
      modifies this
      ensures old(closed) ==> spoils == None && oldTransport == None && State() == old(State())
      ensures !old(closed) ==> spoils == Some(Taken(old(State()))) && oldTransport == old(transport)
      ensures !old(closed) ==> State() == Closed(old(State()))
      ensures !old(closed) ==> closed && !starting && sub.None? && channel.None? && !held && key == old(key)
      ensures !old(closed) ==> spoils == Some(Spoils(if old(held) then old(key) else None, old(sub)))
    {
      if closed {
        return None, None;
      }
      closed := true;
      spoils := Some(Spoils(if held then key else None, sub));
      oldTransport := transport;
      sub, channel, held, starting := None, None, false, false;
    }

    // A transport that arrives after close stays with the caller.
    method SetTransport(t: nat) returns (ok: bool)
      modifies this`transport
      ensures ok <==> !closed
      ensures transport == if ok then Some(t) else old(transport)
    {
      if closed {
        return false;
      }
      transport := Some(t);
      ok := true;
    }
  }
}
