/** The connections of one service preview: wrapping connection IDs, a table of at
    most sixteen connections, and a byte budget for both directions. */
module PreviewConnections {
  import opened Wrappers
  import opened Widths

  const MAX_BYTES := 512 * 1024 * 1024

  const MAX_CONNECTIONS := 16

  const TRIES := 32

  // A network connection, by identity.
  type Conn = nat

  type Table = map<nat, Conn>

  // The 32-bit counter, which skips zero.
  function Advance(n: nat): nat {
    var next := (n + 1) % TWO_TO_THE_32;
    if next == 0 then (next + 1) % TWO_TO_THE_32 else next
  }

  // The counter after `j` steps.
  function Candidate(n: nat, j: nat): nat {
    if j == 0 then n else Advance(Candidate(n, j - 1))
  }

  // A closed form for one round of tries: the counter runs through 1, ...,
  // 2^32 - 1 and wraps to 1.
  lemma {:induction false} CandidateIs(n: nat, j: nat)
    requires n < TWO_TO_THE_32 && 1 <= j <= TRIES
    ensures Candidate(n, j) == if n + j < TWO_TO_THE_32 then n + j else n + j - (TWO_TO_THE_32 - 1)
    ensures 0 < Candidate(n, j) < TWO_TO_THE_32
  {
    if j == 1 {
      CandidateZero(n);
      AdvanceIs(n);
    } else {
      CandidateIs(n, j - 1);
      hide Advance;
      AdvanceIs(Candidate(n, j - 1));
    }
  }

  lemma AdvanceIs(n: nat)
    requires n < TWO_TO_THE_32
    ensures Advance(n) == if n == TWO_TO_THE_32 - 1 then 1 else n + 1
  {
  }

  lemma CandidatesDiffer(n: nat, i: nat, j: nat)
    requires n < TWO_TO_THE_32 && 1 <= i < j <= TRIES
    ensures Candidate(n, i) != Candidate(n, j)
  {
    hide Candidate;
    CandidateIs(n, i);
    CandidateIs(n, j);
  }

  function Candidates(n: nat, k: nat): set<nat> {
    set j | 1 <= j <= k :: Candidate(n, j)
  }

  lemma {:induction false} CandidatesCount(n: nat, k: nat)
    requires n < TWO_TO_THE_32 && k <= TRIES
    ensures |Candidates(n, k)| == k
  {
    hide Candidate;
    if k == 0 {
      assert Candidates(n, k) == {};
    } else {
      CandidatesCount(n, k - 1);
      forall j | 1 <= j <= k - 1
        ensures Candidate(n, j) != Candidate(n, k)
      {
        CandidatesDiffer(n, j, k);
      }
      assert Candidates(n, k) == Candidates(n, k - 1) + {Candidate(n, k)};
    }
  }

  // The number of the first candidate that is not in use, if there is one.
  function FirstFree(n: nat, used: set<nat>, from: nat): Option<nat>
    decreases TRIES - from
  {
    if from > TRIES then None
    else if Candidate(n, from) !in used then Some(from)
    else FirstFree(n, used, from + 1)
  }

  predicate AllUsed(n: nat, used: set<nat>, from: nat) {
    forall j :: from <= j <= TRIES ==> Candidate(n, j) in used
  }

  lemma {:induction false} FirstFreeIs(n: nat, used: set<nat>, from: nat)
    ensures FirstFree(n, used, from).None? <==> AllUsed(n, used, from)
    ensures FirstFree(n, used, from).Some? ==>
      var j := FirstFree(n, used, from).value; from <= j <= TRIES && Candidate(n, j) !in used
    decreases TRIES - from
  {
    if from <= TRIES {
      FirstFreeIs(n, used, from + 1);
      if Candidate(n, from) in used && AllUsed(n, used, from + 1) {
        forall j | from <= j <= TRIES
          ensures Candidate(n, j) in used
        {
          if j > from {
            assert AllUsed(n, used, from + 1);
          }
        }
      }
    }
  }

  lemma CandidateZero(n: nat)
    ensures Candidate(n, 0) == n
  {
  }

  lemma FirstFreeStep(n: nat, used: set<nat>, from: nat)
    requires 1 <= from <= TRIES
    ensures Candidate(n, from) == Advance(Candidate(n, from - 1))
    ensures FirstFree(n, used, from) == if Candidate(n, from) !in used then Some(from) else FirstFree(n, used, from + 1)
  {
  }

  // With fewer connections than tries, some candidate is free.
  lemma SomeCandidateFree(n: nat, used: set<nat>)
    requires n < TWO_TO_THE_32 && |used| < TRIES
    ensures FirstFree(n, used, 1).Some?
  {
    hide Candidate, FirstFree;
    FirstFreeIs(n, used, 1);
    if FirstFree(n, used, 1).None? {
      CandidatesCount(n, TRIES);
      assert forall j :: 1 <= j <= TRIES ==> Candidate(n, j) in used;
      Subset(Candidates(n, TRIES), used);
    }
  }

  lemma {:induction false} Subset(a: set<nat>, b: set<nat>)
    requires a <= b
    ensures |a| <= |b|
    decreases a
  {
    if a != {} {
      var x :| x in a;
      Subset(a - {x}, b - {x});
    }
  }

  class ServicePreview {
    var open: bool
    var nextID: nat
    var connections: Table
    var transferred: nat
    ghost var sent: nat
    ghost var received: nat

    // Sixteen connections at most, under distinct non-zero 32-bit IDs, and the
    // bytes of both directions within the budget.
    ghost predicate Valid()
      reads this
    {
      && nextID < TWO_TO_THE_32 && |connections| <= MAX_CONNECTIONS
      && (forall id :: id in connections ==> 0 < id < TWO_TO_THE_32)
      && transferred == sent + received && transferred <= MAX_BYTES
    }

    constructor ()
      ensures Valid() && open && connections == map[] && transferred == 0
    {
      open, nextID, connections, transferred := true, 0, map[], 0;
      sent, received := 0, 0;
    }

    // Tries up to 32 candidates after the last ID handed out.
    method NextConnectionID() returns (id: nat)
      requires nextID < TWO_TO_THE_32
      modifies this`nextID
      ensures nextID < TWO_TO_THE_32
      ensures var free := FirstFree(old(nextID), connections.Keys, 1);
        && (free.Some? ==> id == nextID == Candidate(old(nextID), free.value) && 0 < id && id !in connections)
        && (free.None? ==> id == 0)
    {
      ghost var start, used := nextID, connections.Keys;
      hide FirstFree, Candidate;
      CandidateZero(start);
      var attempts := 0;
      while attempts < TRIES
        invariant attempts <= TRIES && nextID == Candidate(start, attempts) < TWO_TO_THE_32 && used == connections.Keys
        invariant FirstFree(start, used, 1) == FirstFree(start, used, attempts + 1)
      {
        FirstFreeStep(start, used, attempts + 1);
        CandidateIs(start, attempts + 1);
        nextID := (nextID + 1) % TWO_TO_THE_32;
        if nextID == 0 {
          nextID := (nextID + 1) % TWO_TO_THE_32;
        }
        if nextID !in connections {
          return nextID;
        }
        attempts := attempts + 1;
      }
      FirstFreeIs(start, used, TRIES + 1);
      id := 0;
    }

    // The first section of accepting: takes a connection unless the preview is
    // closed or full. The zero ID is never handed out here.
    method AcceptConn(conn: Conn) returns (id: Option<nat>)
      requires Valid()
      modifies this`nextID, this`connections
      ensures Valid()
      ensures id.Some? <==> open && |old(connections)| < 16
      ensures if id.Some? then 0 < id.value < TWO_TO_THE_32 && id.value !in old(connections) && connections == old(connections)[id.value := conn]
              else connections == old(connections)
    {
      if !open || |connections| >= MAX_CONNECTIONS {
        return None;
      }
      SomeCandidateFree(nextID, connections.Keys);
      ghost var before := connections;
      assert |connections.Keys| == |connections|;
      var next := NextConnectionID();
      if next == 0 {
        assert false;
      }
      connections := connections[next := conn];
      assert connections.Keys == before.Keys + {next};
      id := Some(next);
    }

    // The second one, when announcing the connection failed. Other calls may have
    // run in between: whatever they did to other connections stays.
    method AbandonConn(id: nat)
      requires Valid()
      modifies this`connections
      ensures Valid()
      ensures connections == old(connections) - {id}
    {
      CloseConnection(id);
    }

    method CloseConnection(id: nat)
      requires nextID < TWO_TO_THE_32
      modifies this`connections
      ensures connections == old(connections) - {id}
      ensures |connections| == |old(connections)| - if id in old(connections) then 1 else 0
    {
      ghost var before := connections;
      connections := connections - {id};
      assert connections.Keys == before.Keys - {id};
      assert |connections.Keys| == |connections| && |before.Keys| == |before|;
    }

    // A reader that ends closes its own connection, and not a later one that was
    // given the same ID.
    method CloseConnectionIf(id: nat, want: Conn)
      requires Valid()
      modifies this`connections
      ensures Valid()
      ensures connections == if id in old(connections) && old(connections)[id] == want then old(connections) - {id} else old(connections)
    {
      if id in connections && connections[id] == want {
        CloseConnection(id);
      }
    }

    // Counts the bytes of one message, in 64-bit arithmetic, unless they exceed
    // the budget.
    method ReserveBytes(size: int, outgoing: bool) returns (ok: bool)
      requires Valid() && size < TWO_TO_THE_64 / 2
      modifies this`transferred, this`sent, this`received
      ensures Valid()
      ensures ok <==> 0 <= size && old(transferred) + size <= 536870912
      ensures transferred == if ok then old(transferred) + size else old(transferred)
      ensures sent == old(sent) + (if ok && outgoing then size else 0)
      ensures received == old(received) + (if ok && !outgoing then size else 0)
    {
      if size < 0 || (transferred + size) % TWO_TO_THE_64 > MAX_BYTES {
        return false;
      }
      transferred := (transferred + size) % TWO_TO_THE_64;
      if outgoing {
        sent := sent + size;
      } else {
        received := received + size;
      }
      ok := true;
    }

    method Close()
      requires Valid()
      modifies this`open, this`connections
      ensures Valid() && !open && connections == map[]
    {
      open := false;
      connections := map[];
    }
  }

  // With k connections open and k candidates tried, it can fail: the bound is
  // the number of tries, not the size of the table.
  lemma AllocatorFailsAtTries(n: nat)
    requires n < TWO_TO_THE_32
    ensures FirstFree(n, Candidates(n, TRIES), 1).None? && |Candidates(n, TRIES)| == 32
  {
    hide Candidate, FirstFree;
    CandidatesCount(n, TRIES);
    FirstFreeIs(n, Candidates(n, TRIES), 1);
  }
}
