/** The receiving half of an exchange: each complete token is handed to its
    durable owner, in order, before the batch that completed it is acknowledged.
    Every call out of the receiver may fail; `Faults` says which ones do. */
module ConfigReceiver {
  import opened Wrappers
  import opened AntiEntropy

  // What the durable owners hold, and what they held when the local settings
  // were last projected from them.
  datatype Durable = Durable(held: set<Item>, projected: set<Item>)

  // The acknowledgement. `frontier` is what the durable owners held when it was
  // made; it stands for the replica's version vector.
  datatype Ack = Ack(space: string, cursor: Cursor, frontier: set<Item>, done: bool)

  datatype Fate = Works | FailsCleanly | FailsAfterWriting

  // `calls` owner calls of one persist pass succeed before the next one fails;
  // `landed` says whether that failing call, if it stored an operation, wrote
  // it before failing. The other fields are the calls of the terminal batch.
  datatype Faults = Faults(calls: nat, landed: bool, rotations: Fate, projection: bool, replica: bool)

  datatype Receiver = Receiver(
    assembly: Assembly, pending: seq<Item>, rotations: seq<string>, dirty: bool,
    completed: bool, lastAck: Option<Ack>)

  function NewReceiver(space: string): Receiver {
    Receiver(NewAssembly(space), [], [], false, false, None)
  }

  // ---------- One persist pass ----------

  datatype Progress = Progress(pending: seq<Item>, rotations: seq<string>, dirty: bool, held: set<Item>)

  function LeadingMemberships(pending: seq<Item>): (n: nat)
    ensures n <= |pending|
  {
    if pending == [] || !pending[0].kind.Membership? then 0 else 1 + LeadingMemberships(pending[1..])
  }

  function Elements(items: seq<Item>): set<Item> {
    set item | item in items
  }

  function RotationItems(tokens: seq<string>): set<Item> {
    set t | t in tokens :: Item(Rotation, t)
  }

  predicate CarriesConfig(item: Item) {
    item.kind.Snapshot? || item.kind.Operation?
  }

  function PersistHead(p: Progress): Progress
    requires p.pending != []
  {
    var head := p.pending[0];
    match head.kind
    case Membership =>
      var run := LeadingMemberships(p.pending);
      p.(pending := p.pending[run..], held := p.held + Elements(p.pending[..run]))
    case Revocation => p.(pending := p.pending[1..], held := p.held + {head})
    case Rotation => p.(pending := p.pending[1..], rotations := p.rotations + [head.token])
    case _ => p.(pending := p.pending[1..], held := p.held + {head}, dirty := true)
  }

  datatype Pass = Pass(progress: Progress, ok: bool)

  function Persist(p: Progress, calls: nat, landed: bool): Pass
    decreases |p.pending|
  {
    if p.pending == [] then Pass(p, true)
    else if p.pending[0].kind.Rotation? then Persist(PersistHead(p), calls, landed)
    else if calls == 0 then
      Pass(if landed && p.pending[0].kind.Operation? then p.(held := p.held + {p.pending[0]}) else p, false)
    else Persist(PersistHead(p), calls - 1, landed)
  }

  // ---------- One Add ----------

  datatype Received = Received(receiver: Receiver, durable: Durable, ack: Result<Ack, Error>)

  datatype Closing = Closing(receiver: Receiver, durable: Durable, ok: bool)

  // What the terminal batch adds: held-back rotations, then one projection.
  function Close(r: Receiver, w: Durable, faults: Faults): Closing {
    var w1 := if r.rotations != [] && faults.rotations != FailsCleanly
              then w.(held := w.held + RotationItems(r.rotations)) else w;
    if r.rotations != [] && faults.rotations != Works then Closing(r, w1, false)
    else
      var r1 := r.(rotations := []);
      if r.dirty && !faults.projection then Closing(r1, w1, false)
      else Closing(r1.(dirty := false), if r.dirty then w1.(projected := w1.held) else w1, true)
  }

  function ReceiverAdd(r: Receiver, w: Durable, b: Batch, faults: Faults): Received {
    var added := AddBatch(r.assembly, b);
    var r0 := r.(assembly := added.assembly);
    if r.completed then
      Received(r0, w, if added.items == Success([]) && r.lastAck.Some? then Success(r.lastAck.value) else Failure(Order))
    else if added.items.Failure? then Received(r0, w, Failure(added.items.error))
    else
      var pass := Persist(Progress(r.pending + added.items.value, r.rotations, r.dirty, w.held), faults.calls, faults.landed);
      var p := pass.progress;
      var r1 := r0.(pending := p.pending, rotations := p.rotations, dirty := p.dirty);
      var w1 := w.(held := p.held);
      if !pass.ok then Received(r1, w1, Failure(Fault))
      else
        var closing := if b.done then Close(r1, w1, faults) else Closing(r1, w1, true);
        if !closing.ok || !faults.replica then Received(closing.receiver, closing.durable, Failure(Fault))
        else
          var ack := Ack(r.assembly.space, After(b.start, b.chunks), closing.durable.held, b.done);
          Received(if b.done then closing.receiver.(completed := true, lastAck := Some(ack)) else closing.receiver,
                   closing.durable, Success(ack))
  }

  // The stores behind the receiver: memberships, revocations, epoch rotations
  // and the configuration replica, together with the projected local settings.
  class DurableOwners {
    var held: set<Item>
    var projected: set<Item>

    function State(): Durable
      reads this
    {
      Durable(held, projected)
    }

    method Store(items: set<Item>, fate: Fate) returns (ok: bool)
      modifies this`held
      ensures held == (if fate == FailsCleanly then old(held) else old(held) + items)
      ensures ok <==> fate == Works
    {
      if fate != FailsCleanly {
        held := held + items;
      }
      ok := fate == Works;
    }

    method Project(works: bool) returns (ok: bool)
      modifies this`projected
      ensures projected == (if works then held else old(projected))
      ensures ok <==> works
    {
      if works {
        projected := held;
      }
      ok := works;
    }
  }

  class SyncReceiver {
    const assembler: Assembler
    const owners: DurableOwners
    var pending: seq<Item>
    var rotations: seq<string>
    var dirty: bool
    var completed: bool
    var lastAck: Option<Ack>

    function State(): Receiver
      reads this, assembler
    {
      Receiver(assembler.State(), pending, rotations, dirty, completed, lastAck)
    }

    ghost function Position(): Progress
      reads this, owners
    {
      Progress(pending, rotations, dirty, owners.held)
    }

    constructor (space: string, owners: DurableOwners)
      ensures State() == NewReceiver(space) && this.owners == owners && fresh(assembler)
    {
      assembler := new Assembler(space);
      this.owners := owners;
      pending, rotations, dirty, completed, lastAck := [], [], false, false, None;
    }

    method PersistPending(calls: nat, landed: bool) returns (ok: bool)
      modifies this`pending, this`rotations, this`dirty, owners`held
      ensures Pass(Position(), ok) == Persist(old(Position()), calls, landed)
    {
      var left := calls;
      while pending != []
        invariant Persist(Position(), left, landed) == Persist(old(Position()), calls, landed)
        decreases |pending|
      {
        var head := pending[0];
        if head.kind.Rotation? {
          rotations := rotations + [head.token];
          pending := pending[1..];
          continue;
        }
        var fate := if left > 0 then Works
                    else if head.kind.Operation? && landed then FailsAfterWriting else FailsCleanly;
        var batch, count := {head}, 1;
        if head.kind.Membership? {
          count := LeadingMemberships(pending);
          batch := Elements(pending[..count]);
        }
        var stored := owners.Store(batch, fate);
        if !stored {
          return false;
        }
        if CarriesConfig(head) {
          dirty := true;
        }
        left := left - 1;
        pending := pending[count..];
      }
      return true;
    }

    // The held-back rotations, then the projection.
    method CloseBatch(faults: Faults) returns (ok: bool)
      modifies this`rotations, this`dirty, owners
      ensures Closing(State(), owners.State(), ok) == Close(old(State()), old(owners.State()), faults)
    {
      if rotations != [] {
        var applied := owners.Store(RotationItems(rotations), faults.rotations);
        if !applied {
          return false;
        }
        rotations := [];
      }
      if dirty {
        var projected := owners.Project(faults.projection);
        if !projected {
          return false;
        }
        dirty := false;
      }
      return true;
    }

    method Add(batch: Batch, faults: Faults) returns (r: Result<Ack, Error>)
      modifies this, assembler, owners
      ensures Received(State(), owners.State(), r) == ReceiverAdd(old(State()), old(owners.State()), batch, faults)
    {
      if completed {
        var replayed := assembler.Add(batch);
        if replayed != Success([]) || lastAck.None? {
          return Failure(Order);
        }
        return Success(lastAck.value);
      }
      var items := assembler.Add(batch);
      if items.Failure? {
        return Failure(items.error);
      }
      pending := pending + items.value;
      var persisted := PersistPending(faults.calls, faults.landed);
      if !persisted {
        return Failure(Fault);
      }
      if batch.done {
        var closed := CloseBatch(faults);
        if !closed {
          return Failure(Fault);
        }
      }
      if !faults.replica {
        return Failure(Fault);
      }
      var cursor := AcceptedCursor(batch);
      var ack := Ack(assembler.space, cursor, owners.held, batch.done);
      if batch.done {
        completed, lastAck := true, Some(ack);
      }
      return Success(ack);
    }
  }

  // ---------- What a persist pass keeps ----------

  function NonRotations(items: seq<Item>): set<Item> {
    set item | item in items && !item.kind.Rotation?
  }

  function RotationTokens(items: seq<Item>): seq<string> {
    if items == [] then []
    else (if items[0].kind.Rotation? then [items[0].token] else []) + RotationTokens(items[1..])
  }

  ghost predicate HasConfig(items: seq<Item>) {
    exists item :: item in items && CarriesConfig(item)
  }

  lemma ConfigIs(items: seq<Item>)
    ensures HasConfig(items) <==> exists i :: 0 <= i < |items| && (items[i].kind == Snapshot || items[i].kind == Operation)
  {
    if item :| item in items && CarriesConfig(item) {
      var i :| 0 <= i < |items| && items[i] == item;
      assert items[i].kind == Snapshot || items[i].kind == Operation;
    } else if i :| 0 <= i < |items| && (items[i].kind == Snapshot || items[i].kind == Operation) {
      assert items[i] in items && CarriesConfig(items[i]);
    }
  }

  // How many pending items a pass disposed of.
  function Disposed(p: Progress, q: Progress): int {
    |p.pending| - |q.pending|
  }

  // `q` is what disposing of the first items of `p.pending`, in order and one
  // by one, makes of `p`; `spill` holds what a failing call left behind.
  ghost predicate Disposes(p: Progress, q: Progress, spill: set<Item>) {
    && 0 <= Disposed(p, q)
    && var n := Disposed(p, q);
    && q.pending == p.pending[n..]
    && q.held == p.held + NonRotations(p.pending[..n]) + spill
    && q.rotations == p.rotations + RotationTokens(p.pending[..n])
    && (q.dirty <==> p.dirty || HasConfig(p.pending[..n]))
  }

  lemma {:induction false} RotationTokensJoin(a: seq<Item>, b: seq<Item>)
    ensures RotationTokens(a + b) == RotationTokens(a) + RotationTokens(b)
  {
    if a == [] {
      assert a + b == b;
    } else {
      assert (a + b)[1..] == a[1..] + b;
      RotationTokensJoin(a[1..], b);
    }
  }

  lemma PiecesJoin(a: seq<Item>, b: seq<Item>)
    ensures RotationTokens(a + b) == RotationTokens(a) + RotationTokens(b)
    ensures NonRotations(a + b) == NonRotations(a) + NonRotations(b)
    ensures HasConfig(a + b) <==> HasConfig(a) || HasConfig(b)
  {
    RotationTokensJoin(a, b);
    assert forall item :: item in a + b <==> item in a || item in b;
  }

  lemma {:induction false} MembershipRun(pending: seq<Item>)
    ensures forall i :: 0 <= i < LeadingMemberships(pending) ==> pending[i].kind.Membership?
    ensures RotationTokens(pending[..LeadingMemberships(pending)]) == []
    ensures pending != [] && pending[0].kind.Membership? ==> LeadingMemberships(pending) > 0
    ensures LeadingMemberships(pending) < |pending| ==> !pending[LeadingMemberships(pending)].kind.Membership?
  {
    if LeadingMemberships(pending) > 0 {
      MembershipRun(pending[1..]);
      var n := LeadingMemberships(pending);
      assert pending[..n][1..] == pending[1..][..n - 1];
    }
  }

  // A terminal batch that was acknowledged, given again, gets the same
  // acknowledgement, whatever has happened to the stores, and changes nothing.
  lemma CompletedReplays(r: Receiver, w: Durable, b: Batch, faults: Faults, later: Durable, others: Faults)
    requires !r.completed && b.done && ReceiverAdd(r, w, b, faults).ack.Success?
    ensures var first := ReceiverAdd(r, w, b, faults);
      first.receiver.completed && ReceiverAdd(first.receiver, later, b, others) == Received(first.receiver, later, first.ack)
  {
    ReplayAccepted(r.assembly, b);
    hide AddBatch, Persist;
  }

  // A batch whose storing failed, given again, is taken up where it was left: it
  // stores the rest and acknowledges what is held then.
  lemma FailedReplays(r: Receiver, w: Durable, b: Batch, faults: Faults, later: Durable, others: Faults)
    requires !r.completed && AddBatch(r.assembly, b).items.Success? && ReceiverAdd(r, w, b, faults).ack.Failure?
    requires var left := ReceiverAdd(r, w, b, faults).receiver;
      others.calls >= |left.pending| && others.rotations == Works && others.projection && others.replica
    ensures var left := ReceiverAdd(r, w, b, faults).receiver;
      var again := ReceiverAdd(left, later, b, others);
      && again.receiver.pending == [] && again.receiver.assembly == left.assembly
      && again.ack == Success(Ack(r.assembly.space, After(b.start, b.chunks), again.durable.held, b.done))
  {
    ReplayAccepted(r.assembly, b);
    var left := ReceiverAdd(r, w, b, faults).receiver;
    AddKeepsSpace(r.assembly, b);
    assert left.assembly == AddBatch(r.assembly, b).assembly && !left.completed;
    assert left.pending + [] == left.pending;
    PersistWorks(Progress(left.pending, left.rotations, left.dirty, later.held), others.calls, others.landed);
    hide AddBatch, Persist;
  }

  lemma AddKeepsSpace(a: Assembly, b: Batch)
    ensures AddBatch(a, b).assembly.space == a.space
  {
    hide ScanChunks;
  }

  lemma {:induction false} PersistWorks(p: Progress, calls: nat, landed: bool)
    requires |p.pending| <= calls
    ensures Persist(p, calls, landed).ok && Persist(p, calls, landed).progress.pending == []
    decreases |p.pending|
  {
    if p.pending != [] {
      PersistHeadDisposes(p);
      PersistWorks(PersistHead(p), if p.pending[0].kind.Rotation? then calls else calls - 1, landed);
    }
  }

  lemma PersistHeadDisposes(p: Progress)
    requires p.pending != []
    ensures Disposes(p, PersistHead(p), {}) && Disposed(p, PersistHead(p)) > 0
  {
    var head := p.pending[0];
    MembershipRun(p.pending);
    var n := Disposed(p, PersistHead(p));
    if head.kind.Membership? {
      assert NonRotations(p.pending[..n]) == Elements(p.pending[..n]);
    } else {
      assert p.pending[..1] == [head];
      assert RotationTokens([head][1..]) == [];
    }
  }

  lemma DisposesJoin(p: Progress, q: Progress, r: Progress, spill: set<Item>)
    requires Disposes(p, q, {}) && Disposes(q, r, spill)
    ensures Disposes(p, r, spill)
  {
    hide RotationTokens, NonRotations, HasConfig;
    var n, m := Disposed(p, q), Disposed(q, r);
    assert p.pending[..n + m] == p.pending[..n] + p.pending[n..][..m];
    assert p.pending[n..][m..] == p.pending[n + m..];
    PiecesJoin(p.pending[..n], p.pending[n..][..m]);
  }

  lemma DisposesNothing(p: Progress, spill: set<Item>)
    ensures Disposes(p, p.(held := p.held + spill), spill)
  {
  }

  // A pass drops and reorders nothing, whatever fails: it disposes of a prefix
  // of the queue, and only the head of what remains may also be stored.
  lemma {:induction false} PersistKeepsOrder(p: Progress, calls: nat, landed: bool) returns (spill: set<Item>)
    ensures var pass := Persist(p, calls, landed);
            && Disposes(p, pass.progress, spill)
            && (pass.ok <==> pass.progress.pending == [])
            && (pass.ok ==> spill == {})
            && (!pass.ok ==> spill <= {pass.progress.pending[0]} && !pass.progress.pending[0].kind.Rotation?)
    decreases |p.pending|
  {
    if p.pending == [] || (!p.pending[0].kind.Rotation? && calls == 0) {
      spill := if p.pending != [] && landed && p.pending[0].kind.Operation? then {p.pending[0]} else {};
      DisposesNothing(p, spill);
      assert Persist(p, calls, landed).progress == p.(held := p.held + spill);
    } else {
      var left := if p.pending[0].kind.Rotation? then calls else calls - 1;
      var next := PersistHead(p);
      PersistHeadDisposes(p);
      assert Persist(p, calls, landed) == Persist(next, left, landed);
      spill := PersistKeepsOrder(next, left, landed);
      DisposesJoin(p, next, Persist(next, left, landed).progress, spill);
    }
  }
}
