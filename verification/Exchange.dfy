/** One direction of one exchange, as a step system over an unreliable network:
    every batch and acknowledgement ever sent may be delivered at any time, any
    number of times, or never. A resend therefore needs no step of its own. */
module Exchange {
  import opened Wrappers
  import opened AntiEntropy
  import opened ConfigReceiver
  import opened ConfigChannel

  // `base` is what the receiving side held when the exchange began, `sent` the
  // sender's batches in the order it first sent them, `acks` every
  // acknowledgement made.
  datatype Exchange = Exchange(
    base: set<Item>, sent: seq<Batch>, outstanding: Option<Batch>, recorded: set<Item>,
    receiver: Option<Receiver>, durable: Durable, acks: set<Ack>)

  // `Elsewhere` is work the same stores do for anyone else.
  datatype Event =
    | DeliverBatch(batch: Batch, admission: Admission, faults: Faults)
    | DeliverAck(ack: Ack, next: Batch)
    | Elsewhere(stored: set<Item>, reprojected: bool)

  ghost predicate Init(plan: Plan, s: Exchange) {
    && |s.sent| == 1 && Continues(plan, ORIGIN, s.sent[0])
    && s.outstanding == Some(s.sent[0]) && s.recorded == {} && s.acks == {}
    && s.receiver == Some(NewReceiver(plan.space))
    && s.base == s.durable.held && s.durable.projected <= s.durable.held
  }

  ghost predicate Step(plan: Plan, s: Exchange, e: Event, s': Exchange) {
    match e
    case DeliverBatch(b, admission, faults) =>
      b in s.sent &&
      var h := AcceptBatch(plan.space, s.receiver, s.durable, b, admission, faults);
      s' == s.(receiver := h.receiver, durable := h.durable,
               acks := s.acks + if h.ack.Success? then {h.ack.value} else {})
    case DeliverAck(a, next) =>
      a in s.acks && AckMatches(plan.space, s.outstanding, a) &&
      if a.done then s' == s.(outstanding := None, recorded := s.recorded + a.frontier)
      else Continues(plan, a.cursor, next) && s' == s.(outstanding := Some(next), sent := s.sent + [next])
    case Elsewhere(stored, reprojected) =>
      var held := s.durable.held + stored;
      s' == s.(durable := Durable(held, if reprojected then held else s.durable.projected))
  }

  ghost predicate Steps(plan: Plan, s: Exchange, s': Exchange) {
    exists e :: Step(plan, s, e, s')
  }

  // A run: a sequence of states that starts fresh and moves by steps.
  ghost predicate Run(plan: Plan, run: seq<Exchange>) {
    && run != [] && Init(plan, run[0])
    && forall i :: 0 < i < |run| ==> Steps(plan, run[i - 1], run[i])
  }

  // ---------- The sender's chain of batches ----------

  function End(b: Batch): Cursor {
    After(b.start, b.chunks)
  }

  function StartOf(sent: seq<Batch>, i: nat): Cursor
    requires i <= |sent|
  {
    if i == 0 then ORIGIN else End(sent[i - 1])
  }

  // Batch `i` takes up the plan where its predecessor left it.
  ghost predicate Link(plan: Plan, sent: seq<Batch>, i: nat)
    requires i < |sent|
  {
    Continues(plan, StartOf(sent, i), sent[i]) && (i < |sent| - 1 ==> !sent[i].done)
  }

  ghost predicate Chain(plan: Plan, sent: seq<Batch>) {
    sent != [] && forall i :: 0 <= i < |sent| ==> Link(plan, sent, i)
  }

  lemma LinkGrows(plan: Plan, sent: seq<Batch>, i: nat)
    requires PlanItems(plan.items) && Chain(plan, sent) && i < |sent|
    ensures Before(StartOf(sent, i), StartOf(sent, i + 1)) || (plan.items == [] && |sent| == 1)
  {
    assert Link(plan, sent, i);
    if i > 0 {
      assert Link(plan, sent, i - 1);
    }
    AfterStaysValid(plan.items, StartOf(sent, i), sent[i].chunks);
  }

  // Cursors strictly grow along the chain, except that an empty plan consists
  // of one empty terminal batch.
  lemma {:induction false} ChainGrows(plan: Plan, sent: seq<Batch>, i: nat, j: nat)
    requires PlanItems(plan.items) && Chain(plan, sent) && i < j <= |sent|
    ensures Before(StartOf(sent, i), StartOf(sent, j)) || (plan.items == [] && |sent| == 1)
    decreases j
  {
    LinkGrows(plan, sent, j - 1);
    if i < j - 1 {
      ChainGrows(plan, sent, i, j - 1);
    }
  }

  // No acknowledgement of an earlier batch passes for one of a later batch.
  lemma StaleAcksNeverMatch(plan: Plan, sent: seq<Batch>, i: nat, j: nat)
    requires PlanItems(plan.items) && Chain(plan, sent) && i < j < |sent|
    ensures End(sent[i]) != End(sent[j])
  {
    ChainGrows(plan, sent, i + 1, j + 1);
  }

  // ---------- The receiver ----------

  // The owners hold every handled item that is not a rotation; rotations wait
  // until they are applied, and `dirty` until the settings are projected.
  ghost predicate Booked(base: set<Item>, items: seq<Item>, handled: seq<Item>, rotations: seq<string>, dirty: bool, w: Durable) {
    && base <= w.held && NonRotations(handled) <= w.held
    && (rotations == RotationTokens(handled) || (handled == items && rotations == [] && Elements(items) <= w.held))
    && ((dirty <==> HasConfig(handled)) || (handled == items && !dirty && base + Elements(items) <= w.projected))
  }

  // The receiver's queue lies between what it has handled and what it has
  // assembled, in plan order, with nothing missing.
  ghost predicate Queue(base: set<Item>, items: seq<Item>, r: Receiver, w: Durable) {
    var at := r.assembly.expected.item;
    && 0 <= at <= |items| && |r.pending| <= at
    && r.pending == items[at - |r.pending|..at]
    && Booked(base, items, items[..at - |r.pending|], r.rotations, r.dirty, w)
  }

  // What a terminal acknowledgement promises.
  ghost predicate Settled(base: set<Item>, items: seq<Item>, w: Durable) {
    Elements(items) <= w.held && (HasConfig(items) ==> base + Elements(items) <= w.projected)
  }

  ghost predicate Finished(base: set<Item>, plan: Plan, r: Receiver, w: Durable) {
    r.completed ==>
      && r.assembly.terminal && r.assembly.last.Some? && r.lastAck.Some?
      && AckFor(base, plan, w, r.assembly.last.value, r.lastAck.value)
  }

  // `a` acknowledges batch `b` truthfully.
  ghost predicate AckFor(base: set<Item>, plan: Plan, w: Durable, b: Batch, a: Ack) {
    && a.space == plan.space && a.cursor == End(b) && a.done == b.done
    && 0 <= a.cursor.item <= |plan.items|
    && NonRotations(plan.items[..a.cursor.item]) <= a.frontier <= w.held
    && (a.done ==> Elements(plan.items) <= a.frontier && Settled(base, plan.items, w))
  }

  // The assembler has taken exactly the first `k` batches.
  ghost predicate Placed(plan: Plan, sent: seq<Batch>, k: nat, a: Assembly) {
    && k <= |sent| && a.space == plan.space
    && a.expected == StartOf(sent, k)
    && a.last == (if k == 0 then None else Some(sent[k - 1]))
    && (a.terminal <==> k > 0 && sent[k - 1].done)
    && a.ack == (if k == 0 then None else Some(plan.ack))
    && AssemblyTracks(plan.items, a)
  }

  ghost predicate ReceiverAt(base: set<Item>, plan: Plan, sent: seq<Batch>, k: nat, r: Receiver, w: Durable) {
    Placed(plan, sent, k, r.assembly) && Queue(base, plan.items, r, w) && Finished(base, plan, r, w)
  }

  // Batches the receiver may have acknowledged: those it has taken, or all of
  // them once the last one is terminal (it may have started over since).
  function Reach(sent: seq<Batch>, k: nat): nat
    requires sent != [] && k <= |sent|
  {
    if sent[|sent| - 1].done then |sent| else k
  }

  ghost predicate Acked(base: set<Item>, plan: Plan, sent: seq<Batch>, reach: nat, w: Durable, a: Ack)
    requires reach <= |sent|
  {
    exists j :: 0 <= j < reach && AckFor(base, plan, w, sent[j], a)
  }

  ghost predicate Inv(plan: Plan, s: Exchange, k: nat) {
    && PlanItems(plan.items) && Chain(plan, s.sent) && k <= |s.sent|
    && var last := s.sent[|s.sent| - 1];
    && (s.outstanding == Some(last) || (s.outstanding.None? && last.done && Settled(s.base, plan.items, s.durable)))
    && (s.receiver.Some? ==> ReceiverAt(s.base, plan, s.sent, k, s.receiver.value, s.durable))
    && (s.receiver.None? ==> last.done)
    && (forall a :: a in s.acks ==> Acked(s.base, plan, s.sent, Reach(s.sent, k), s.durable, a))
    && s.recorded <= s.durable.held && s.durable.projected <= s.durable.held && s.base <= s.durable.held
  }

  lemma {:induction false} RotationsComplete(items: seq<Item>)
    ensures Elements(items) == NonRotations(items) + RotationItems(RotationTokens(items))
  {
    if items != [] {
      RotationsComplete(items[1..]);
      assert items == [items[0]] + items[1..];
      assert Elements(items) == {items[0]} + Elements(items[1..]);
    }
  }

  lemma SliceOfSlice<T>(s: seq<T>, h: int, mid: int, at: int, n: int)
    requires 0 <= h <= mid <= at <= |s| && 0 <= n <= at - h
    ensures s[h..mid] + s[mid..at] == s[h..at]
    ensures s[h..at][n..] == s[h + n..at]
    ensures s[..h] + s[h..at][..n] == s[..h + n]
  {
  }

  lemma BookedAfterPass(base: set<Item>, items: seq<Item>, handled: seq<Item>, p: Progress, q: Progress, spill: set<Item>, w: Durable)
    requires Booked(base, items, handled, p.rotations, p.dirty, w) && w.held == p.held && Disposes(p, q, spill)
    requires handled == items ==> p.pending == []
    ensures Booked(base, items, handled + p.pending[..Disposed(p, q)], q.rotations, q.dirty, w.(held := q.held))
  {
    var taken := p.pending[..Disposed(p, q)];
    PiecesJoin(handled, taken);
    if handled == items {
      assert taken == [] && handled + taken == handled;
    }
  }

  lemma QueueAfterPass(base: set<Item>, items: seq<Item>, before: Receiver, after: Receiver, p: Progress, q: Progress, spill: set<Item>, w: Durable)
    requires Queue(base, items, before, w)
    requires before.assembly.expected.item <= after.assembly.expected.item <= |items|
    requires p == Progress(before.pending + items[before.assembly.expected.item..after.assembly.expected.item],
                           before.rotations, before.dirty, w.held)
    requires Disposes(p, q, spill)
    requires after.pending == q.pending && after.rotations == q.rotations && after.dirty == q.dirty
    ensures Queue(base, items, after, w.(held := q.held))
  {
    var mid, at := before.assembly.expected.item, after.assembly.expected.item;
    var h := mid - |before.pending|;
    SliceOfSlice(items, h, mid, at, Disposed(p, q));
    assert items[..h] == items ==> |items[..h]| == h;
    BookedAfterPass(base, items, items[..h], p, q, spill, w);
  }

  ghost predicate Grows(w: Durable, w': Durable) {
    && w.held <= w'.held && w.projected <= w'.projected
    && (w.projected <= w.held ==> w'.projected <= w'.held)
  }

  lemma CloseSettles(base: set<Item>, items: seq<Item>, r: Receiver, w: Durable, faults: Faults)
    requires Booked(base, items, items, r.rotations, r.dirty, w) && w.projected <= w.held
    ensures var c := Close(r, w, faults);
            && c.receiver == r.(rotations := c.receiver.rotations, dirty := c.receiver.dirty)
            && Booked(base, items, items, c.receiver.rotations, c.receiver.dirty, c.durable)
            && Grows(w, c.durable)
            && (c.ok ==> Elements(items) <= c.durable.held && Settled(base, items, c.durable))
  {
    RotationsComplete(items);
  }

  // What one delivery leaves: the receiver stands after batch `j`, and any
  // acknowledgement it made is truthful.
  ghost predicate AddedWell(base: set<Item>, plan: Plan, sent: seq<Batch>, j: nat, w: Durable, result: Received)
    requires j < |sent|
  {
    && ReceiverAt(base, plan, sent, j + 1, result.receiver, result.durable)
    && Grows(w, result.durable)
    && (result.ack.Success? ==> AckFor(base, plan, result.durable, sent[j], result.ack.value))
  }

  lemma AddFinishes(base: set<Item>, plan: Plan, sent: seq<Batch>, j: nat, r: Receiver, w: Durable, faults: Faults)
    requires j < |sent| && Continues(plan, sent[j].start, sent[j]) && r.assembly.space == plan.space
    requires Queue(base, plan.items, r, w) && !r.completed && w.projected <= w.held
    requires var added := AddBatch(r.assembly, sent[j]);
             && Placed(plan, sent, j + 1, added.assembly)
             && r.assembly.expected.item <= added.assembly.expected.item <= |plan.items|
             && added.items == Success(plan.items[r.assembly.expected.item..added.assembly.expected.item])
    ensures AddedWell(base, plan, sent, j, w, ReceiverAdd(r, w, sent[j], faults))
  {
    var b := sent[j];
    var added := AddBatch(r.assembly, b);
    var p := Progress(r.pending + added.items.value, r.rotations, r.dirty, w.held);
    var spill := PersistKeepsOrder(p, faults.calls, faults.landed);
    var pass := Persist(p, faults.calls, faults.landed);
    var q := pass.progress;
    var r1 := r.(assembly := added.assembly, pending := q.pending, rotations := q.rotations, dirty := q.dirty);
    var w1 := w.(held := q.held);
    QueueAfterPass(base, plan.items, r, r1, p, q, spill, w);
    assert w.held <= q.held;
    if pass.ok {
      Acknowledges(base, plan, sent, j, r1, w1, faults);
    }
  }

  // The tail of Add, once everything pending has been persisted.
  lemma Acknowledges(base: set<Item>, plan: Plan, sent: seq<Batch>, j: nat, r: Receiver, w: Durable, faults: Faults)
    requires j < |sent| && Continues(plan, sent[j].start, sent[j])
    requires ReceiverAt(base, plan, sent, j + 1, r, w) && !r.completed && r.pending == [] && w.projected <= w.held
    ensures var b := sent[j];
            var c := if b.done then Close(r, w, faults) else Closing(r, w, true);
            var ack := Ack(plan.space, End(b), c.durable.held, b.done);
            && Grows(w, c.durable)
            && ReceiverAt(base, plan, sent, j + 1, c.receiver, c.durable)
            && (c.ok ==> AckFor(base, plan, c.durable, b, ack))
            && (c.ok ==> (b.done ==> ReceiverAt(base, plan, sent, j + 1, c.receiver.(completed := true, lastAck := Some(ack)), c.durable)))
  {
    hide AssemblyTracks, RotationTokens, NonRotations, HasConfig;
    assert plan.items[..|plan.items|] == plan.items;
    if sent[j].done {
      CloseSettles(base, plan.items, r, w, faults);
    }
  }

  // Delivering the batch the receiver expects, or the one it took last.
  lemma AddKeeps(base: set<Item>, plan: Plan, sent: seq<Batch>, k: nat, j: nat, r: Receiver, w: Durable, faults: Faults)
    requires PlanItems(plan.items) && Chain(plan, sent) && j < |sent| && j <= k <= j + 1
    requires ReceiverAt(base, plan, sent, k, r, w) && !r.completed && w.projected <= w.held
    ensures AddedWell(base, plan, sent, j, w, ReceiverAdd(r, w, sent[j], faults))
  {
    var b := sent[j];
    assert Link(plan, sent, j);
    if k == j {
      if k > 0 {
        assert Link(plan, sent, k - 1);
        ChainGrows(plan, sent, k - 1, k);
      }
      AfterStaysValid(plan.items, StartOf(sent, j), b.chunks);
      AssemblerAccepts(plan, r.assembly, b);
    } else {
      AfterStaysValid(plan.items, StartOf(sent, j), b.chunks);
      var at := r.assembly.expected.item;
      assert plan.items[at..at] == [];
    }
    AddFinishes(base, plan, sent, j, r, w, faults);
  }

  // Any other batch is refused and changes nothing.
  lemma AssemblerRefuses(plan: Plan, sent: seq<Batch>, k: nat, j: nat, a: Assembly)
    requires PlanItems(plan.items) && Chain(plan, sent) && j < |sent| && !(j <= k <= j + 1)
    requires Placed(plan, sent, k, a)
    ensures AddBatch(a, sent[j]) == Added(a, Failure(Order))
  {
    assert Link(plan, sent, j);
    AfterStaysValid(plan.items, StartOf(sent, j), sent[j].chunks);
    if k > 0 {
      assert Link(plan, sent, k - 1);
    }
    if j < k {
      ChainGrows(plan, sent, j, k);
      ChainGrows(plan, sent, j, k - 1);
    } else {
      ChainGrows(plan, sent, k, j);
      if k > 0 {
        ChainGrows(plan, sent, k - 1, j);
      }
    }
  }

  // ---------- Every step keeps the invariant ----------

  lemma ReceiverGrows(base: set<Item>, plan: Plan, sent: seq<Batch>, k: nat, r: Receiver, w: Durable, w': Durable)
    requires ReceiverAt(base, plan, sent, k, r, w) && Grows(w, w')
    ensures ReceiverAt(base, plan, sent, k, r, w')
  {
  }

  lemma AcksGrow(base: set<Item>, plan: Plan, sent: seq<Batch>, reach: nat, sent': seq<Batch>, reach': nat,
                 acks: set<Ack>, w: Durable, w': Durable)
    requires reach <= |sent| && reach <= reach' <= |sent'| && sent <= sent' && Grows(w, w')
    requires forall a :: a in acks ==> Acked(base, plan, sent, reach, w, a)
    ensures forall a :: a in acks ==> Acked(base, plan, sent', reach', w', a)
  {
  }

  // The receiver after delivery stands at `k'` and answered truthfully.
  ghost predicate Delivered(plan: Plan, s: Exchange, k: nat, j: nat, k': nat, h: Handled)
    requires s.sent != [] && j < |s.sent| && k <= |s.sent|
  {
    && k' <= |s.sent| && Grows(s.durable, h.durable)
    && (h.receiver.Some? ==> ReceiverAt(s.base, plan, s.sent, k', h.receiver.value, h.durable))
    && (h.receiver.None? ==> s.sent[|s.sent| - 1].done)
    && Reach(s.sent, k) <= Reach(s.sent, k')
    && (h.ack.Success? ==> Acked(s.base, plan, s.sent, Reach(s.sent, k'), h.durable, h.ack.value))
  }

  // A completed receiver that is handed the plan's first batch late.
  ghost predicate StartsOver(s: Exchange, j: nat)
    requires j < |s.sent|
  {
    && s.receiver.Some? && s.receiver.value.completed
    && s.sent[j].start == ORIGIN && s.receiver.value.assembly.last != Some(s.sent[j])
  }

  lemma AcceptRunning(space: string, r: Receiver, w: Durable, b: Batch, admission: Admission, faults: Faults)
    requires !r.completed
    ensures var f := ReceiverAdd(r, w, b, faults);
            AcceptBatch(space, Some(r), w, b, admission, faults) == Handled(Some(f.receiver), f.durable, f.ack)
  {
  }

  lemma AcceptRefused(space: string, r: Receiver, w: Durable, b: Batch, admission: Admission, faults: Faults)
    requires AddBatch(r.assembly, b) == Added(r.assembly, Failure(Order)) && !(r.completed && b.start == ORIGIN)
    ensures AcceptBatch(space, Some(r), w, b, admission, faults) == Handled(Some(r), w, Failure(Order))
  {
  }

  lemma AcceptRestart(space: string, r: Receiver, w: Durable, b: Batch, admission: Admission, faults: Faults)
    requires AddBatch(r.assembly, b) == Added(r.assembly, Failure(Order)) && r.completed && b.start == ORIGIN
    ensures AcceptBatch(space, Some(r), w, b, admission, faults)
         == match admission
            case TokenMissing => Handled(Some(r), w, Failure(Denied))
            case Refused => Handled(None, w, Failure(Denied))
            case Admitted => var f := ReceiverAdd(NewReceiver(space), w, b, faults);
                             Handled(Some(f.receiver), f.durable, f.ack)
  {
  }

  lemma DeliverToNobody(plan: Plan, s: Exchange, k: nat, j: nat, admission: Admission, faults: Faults)
    requires Inv(plan, s, k) && j < |s.sent| && s.receiver.None?
    ensures Delivered(plan, s, k, j, k, AcceptBatch(plan.space, s.receiver, s.durable, s.sent[j], admission, faults))
  {
  }

  lemma DeliverReplay(plan: Plan, s: Exchange, k: nat, admission: Admission, faults: Faults)
    requires Inv(plan, s, k) && k > 0 && s.receiver.Some? && s.receiver.value.completed
    ensures Delivered(plan, s, k, k - 1, k, AcceptBatch(plan.space, s.receiver, s.durable, s.sent[k - 1], admission, faults))
    ensures k == |s.sent|
  {
    var r := s.receiver.value;
    assert Link(plan, s.sent, k - 1);
    AfterStaysValid(plan.items, s.sent[k - 1].start, s.sent[k - 1].chunks);
    assert AddBatch(r.assembly, s.sent[k - 1]) == Added(r.assembly, Success([]));
    assert AckFor(s.base, plan, s.durable, s.sent[k - 1], r.lastAck.value);
  }

  lemma DeliverRestart(plan: Plan, s: Exchange, k: nat, admission: Admission, faults: Faults) returns (k': nat)
    requires Inv(plan, s, k) && k > 1 && s.receiver.Some? && s.receiver.value.completed
    ensures Delivered(plan, s, k, 0, k', AcceptBatch(plan.space, s.receiver, s.durable, s.sent[0], admission, faults))
    ensures k == |s.sent| && k' == (if admission == Admitted then 1 else k)
    ensures StartsOver(s, 0)
  {
    assert Link(plan, s.sent, k - 1) && Link(plan, s.sent, 0);
    AssemblerRefuses(plan, s.sent, k, 0, s.receiver.value.assembly);
    AcceptRestart(plan.space, s.receiver.value, s.durable, s.sent[0], admission, faults);
    ChainGrows(plan, s.sent, 0, k - 1);
    k' := k;
    if admission == Admitted {
      AddKeeps(s.base, plan, s.sent, 0, 0, NewReceiver(plan.space), s.durable, faults);
      k' := 1;
    }
  }

  lemma DeliverRefused(plan: Plan, s: Exchange, k: nat, j: nat, admission: Admission, faults: Faults)
    requires Inv(plan, s, k) && j < |s.sent| && s.receiver.Some? && !(j <= k <= j + 1)
    requires s.receiver.value.completed ==> j > 0
    ensures Delivered(plan, s, k, j, k, AcceptBatch(plan.space, s.receiver, s.durable, s.sent[j], admission, faults))
    ensures s.sent[j].start == ORIGIN ==> !s.receiver.value.completed
  {
    assert Link(plan, s.sent, j);
    AssemblerRefuses(plan, s.sent, k, j, s.receiver.value.assembly);
    if j > 0 {
      ChainGrows(plan, s.sent, 0, j);
    }
    AcceptRefused(plan.space, s.receiver.value, s.durable, s.sent[j], admission, faults);
  }

  lemma DeliverRunning(plan: Plan, s: Exchange, k: nat, j: nat, admission: Admission, faults: Faults)
    requires Inv(plan, s, k) && j < |s.sent| && s.receiver.Some? && j <= k <= j + 1 && !s.receiver.value.completed
    ensures Delivered(plan, s, k, j, j + 1, AcceptBatch(plan.space, s.receiver, s.durable, s.sent[j], admission, faults))
  {
    AcceptRunning(plan.space, s.receiver.value, s.durable, s.sent[j], admission, faults);
    AddKeeps(s.base, plan, s.sent, k, j, s.receiver.value, s.durable, faults);
  }

  lemma Deliver(plan: Plan, s: Exchange, k: nat, j: nat, admission: Admission, faults: Faults) returns (k': nat)
    requires Inv(plan, s, k) && j < |s.sent|
    ensures Delivered(plan, s, k, j, k', AcceptBatch(plan.space, s.receiver, s.durable, s.sent[j], admission, faults))
    ensures k' == (if s.receiver.None? then k
                   else if s.receiver.value.completed then (if StartsOver(s, j) && admission == Admitted then 1 else k)
                   else if j == k then k + 1 else k)
    ensures s.receiver.Some? && s.receiver.value.completed ==> k == |s.sent|
  {
    hide AcceptBatch;
    k' := k;
    if s.receiver.None? {
      DeliverToNobody(plan, s, k, j, admission, faults);
    } else if s.receiver.value.completed && j == k - 1 {
      DeliverReplay(plan, s, k, admission, faults);
    } else if s.receiver.value.completed && j == 0 {
      k' := DeliverRestart(plan, s, k, admission, faults);
    } else if !s.receiver.value.completed && j <= k <= j + 1 {
      DeliverRunning(plan, s, k, j, admission, faults);
      k' := j + 1;
    } else {
      CompletedAtEnd(plan, s, k);
      DeliverRefused(plan, s, k, j, admission, faults);
    }
  }

  lemma CompletedAtEnd(plan: Plan, s: Exchange, k: nat)
    requires Inv(plan, s, k)
    ensures s.receiver.Some? && s.receiver.value.completed ==> 0 < k == |s.sent|
  {
    if s.receiver.Some? && s.receiver.value.completed {
      assert Link(plan, s.sent, k - 1);
    }
  }

  // An acknowledgement that matches is for the outstanding batch, and unless
  // that batch is terminal the receiver stands right behind it.
  lemma MatchingAck(plan: Plan, s: Exchange, k: nat, a: Ack)
    requires Inv(plan, s, k) && a in s.acks && AckMatches(plan.space, s.outstanding, a)
    ensures AckFor(s.base, plan, s.durable, s.sent[|s.sent| - 1], a)
    ensures !a.done ==> k == |s.sent| && a.cursor == StartOf(s.sent, k)
  {
    var n := |s.sent|;
    var j :| 0 <= j < Reach(s.sent, k) && AckFor(s.base, plan, s.durable, s.sent[j], a);
    if j < n - 1 {
      StaleAcksNeverMatch(plan, s.sent, j, n - 1);
    }
  }

  lemma ChainExtends(plan: Plan, sent: seq<Batch>, next: Batch)
    requires Chain(plan, sent) && !sent[|sent| - 1].done && Continues(plan, StartOf(sent, |sent|), next)
    ensures Chain(plan, sent + [next])
    ensures forall k: nat :: k <= |sent| ==> StartOf(sent + [next], k) == StartOf(sent, k)
  {
    forall i | 0 <= i < |sent + [next]|
      ensures Link(plan, sent + [next], i)
    {
      if i < |sent| {
        assert Link(plan, sent, i);
      }
    }
  }

  lemma BatchStepKeeps(plan: Plan, s: Exchange, k: nat, b: Batch, admission: Admission, faults: Faults, s': Exchange) returns (k': nat)
    requires Inv(plan, s, k) && Step(plan, s, DeliverBatch(b, admission, faults), s')
    ensures Inv(plan, s', k')
    ensures s.receiver.Some? && !s.receiver.value.completed && k < |s.sent| && s.sent[k] == b ==> k' == k + 1
  {
    hide AcceptBatch;
    var j :| 0 <= j < |s.sent| && s.sent[j] == b;
    if k < |s.sent| && s.sent[k] == b {
      j := k;
    }
    k' := Deliver(plan, s, k, j, admission, faults);
    AcksGrow(s.base, plan, s.sent, Reach(s.sent, k), s.sent, Reach(s.sent, k'), s.acks, s.durable, s'.durable);
  }

  lemma AckStepKeeps(plan: Plan, s: Exchange, k: nat, a: Ack, next: Batch, s': Exchange)
    requires Inv(plan, s, k) && Step(plan, s, DeliverAck(a, next), s')
    ensures Inv(plan, s', k)
  {
    hide AcceptBatch;
    MatchingAck(plan, s, k, a);
    if !a.done {
      ChainExtends(plan, s.sent, next);
      AcksGrow(s.base, plan, s.sent, Reach(s.sent, k), s'.sent, Reach(s'.sent, k), s.acks, s.durable, s'.durable);
      assert s.receiver.Some? ==> ReceiverAt(s.base, plan, s'.sent, k, s.receiver.value, s.durable);
    }
  }

  lemma StepKeeps(plan: Plan, s: Exchange, k: nat, e: Event, s': Exchange) returns (k': nat)
    requires Inv(plan, s, k) && Step(plan, s, e, s')
    ensures Inv(plan, s', k')
  {
    hide AcceptBatch;
    match e
    case DeliverBatch(b, admission, faults) =>
      k' := BatchStepKeeps(plan, s, k, b, admission, faults, s');
    case DeliverAck(a, next) =>
      AckStepKeeps(plan, s, k, a, next, s');
      k' := k;
    case Elsewhere(_, _) =>
      k' := k;
      AcksGrow(s.base, plan, s.sent, Reach(s.sent, k), s.sent, Reach(s.sent, k), s.acks, s.durable, s'.durable);
      if s.receiver.Some? {
        ReceiverGrows(s.base, plan, s.sent, k, s.receiver.value, s.durable, s'.durable);
      }
  }

  lemma {:induction false} RunKeeps(plan: Plan, run: seq<Exchange>) returns (k: nat)
    requires PlanItems(plan.items) && Run(plan, run)
    ensures Inv(plan, run[|run| - 1], k)
    decreases |run|
  {
    var n := |run| - 1;
    if n == 0 {
      var s := run[0];
      k := 0;
      assert Link(plan, s.sent, 0);
      assert plan.items[..0] == [];
      assert s.sent[|s.sent| - 1] == s.sent[0];
      assert ReceiverAt(s.base, plan, s.sent, 0, s.receiver.value, s.durable);
    } else {
      var before := RunKeeps(plan, run[..n]);
      assert Steps(plan, run[n - 1], run[n]);
      var e :| Step(plan, run[n - 1], e, run[n]);
      k := StepKeeps(plan, run[n - 1], before, e, run[n]);
    }
  }

  // ---------- Main results ----------

  // In every reachable state: the receiver's queue is the gap between what its
  // owners hold and what it has assembled, both prefixes of the plan; every
  // acknowledgement vouches for durable items only, a terminal one for the
  // whole plan, projected if it carries configuration; the sender stops only
  // then; and it never records more than the other side holds.
  lemma ExchangeIsSafe(plan: Plan, run: seq<Exchange>)
    requires PlanItems(plan.items) && Run(plan, run)
    ensures var s := run[|run| - 1];
            && (s.receiver.Some? ==> Queue(s.base, plan.items, s.receiver.value, s.durable))
            && (forall a :: a in s.acks ==> 0 <= a.cursor.item <= |plan.items|
                                            && NonRotations(plan.items[..a.cursor.item]) <= a.frontier <= s.durable.held)
            && (forall a :: a in s.acks && a.done ==> Settled(s.base, plan.items, s.durable))
            && (s.outstanding.None? ==> Settled(s.base, plan.items, s.durable))
            && s.recorded <= s.durable.held
  {
    var s := run[|run| - 1];
    var k := RunKeeps(plan, run);
    assert forall a :: a in s.acks ==> Acked(s.base, plan, s.sent, Reach(s.sent, k), s.durable, a);
  }

  // The receiver's cursor is one end of the outstanding batch.
  ghost predicate InStep(s: Exchange) {
    s.outstanding.Some? && s.receiver.Some? ==>
      var at := s.receiver.value.assembly.expected;
      at == s.outstanding.value.start || at == End(s.outstanding.value)
  }

  lemma InStepMeans(plan: Plan, s: Exchange, k: nat)
    requires Inv(plan, s, k)
    ensures InStep(s) <==> s.outstanding.None? || s.receiver.None? || k >= |s.sent| - 1
  {
    var n := |s.sent|;
    assert Link(plan, s.sent, n - 1);
    if k < n - 1 {
      ChainGrows(plan, s.sent, k, n - 1);
      ChainGrows(plan, s.sent, k, n);
    }
  }

  lemma ReceiverSurvives(space: string, r: Option<Receiver>, w: Durable, b: Batch, admission: Admission, faults: Faults)
    ensures r.None? ==> AcceptBatch(space, r, w, b, admission, faults).receiver.None?
    ensures r.Some? && admission != Refused ==> AcceptBatch(space, r, w, b, admission, faults).receiver.Some?
  {
  }

  lemma LateFirstBatch(plan: Plan, s: Exchange, k: nat, j: nat)
    requires Inv(plan, s, k) && j < |s.sent| && |s.sent| >= 2
    ensures s.sent[j].start == ORIGIN <==> j == 0
    ensures s.receiver.Some? && s.receiver.value.completed ==> (StartsOver(s, j) <==> j == 0)
  {
    CompletedAtEnd(plan, s, k);
    assert Link(plan, s.sent, j) && Link(plan, s.sent, |s.sent| - 1);
    ChainGrows(plan, s.sent, 0, |s.sent| - 1);
    if j > 0 {
      ChainGrows(plan, s.sent, 0, j);
    }
  }

  lemma DeliveryStaysInStep(plan: Plan, s: Exchange, k: nat, e: Event, s': Exchange)
    requires Inv(plan, s, k) && e.DeliverBatch? && Step(plan, s, e, s') && InStep(s)
    ensures InStep(s') <==> !(s.outstanding.Some? && s.receiver.Some? && s.receiver.value.completed
                              && e.batch.start == ORIGIN && e.admission == Admitted && |s.sent| >= 3)
  {
    hide AcceptBatch, ReceiverAt, Placed, Acked;
    var j :| 0 <= j < |s.sent| && s.sent[j] == e.batch;
    var k' := Deliver(plan, s, k, j, e.admission, e.faults);
    ReceiverSurvives(plan.space, s.receiver, s.durable, e.batch, e.admission, e.faults);
    AcksGrow(s.base, plan, s.sent, Reach(s.sent, k), s.sent, Reach(s.sent, k'), s.acks, s.durable, s'.durable);
    InStepMeans(plan, s, k);
    InStepMeans(plan, s', k');
    if |s.sent| >= 2 {
      LateFirstBatch(plan, s, k, j);
    }
  }

  // The two ends stay in step except in one case: the first of at least three
  // batches arrives again after the receiver has completed, while the sender
  // still waits, and the receiver is allowed to start over.
  lemma FallsOutOfStepExactly(plan: Plan, run: seq<Exchange>, e: Event, s': Exchange)
    requires PlanItems(plan.items) && Run(plan, run)
    requires var s := run[|run| - 1]; Step(plan, s, e, s') && InStep(s)
    ensures var s := run[|run| - 1];
            !InStep(s') <==>
              && s.outstanding.Some? && s.receiver.Some? && s.receiver.value.completed
              && e.DeliverBatch? && e.batch.start == ORIGIN && e.admission == Admitted && |s.sent| >= 3
  {
    var s := run[|run| - 1];
    var k := RunKeeps(plan, run);
    if e.DeliverBatch? {
      DeliveryStaysInStep(plan, s, k, e, s');
    } else if e.DeliverAck? {
      MatchingAck(plan, s, k, e.ack);
    }
  }

  // ---------- When a completed exchange projects the settings ----------

  lemma ProjectsOnlyConfig(r: Receiver, w: Durable, b: Batch, faults: Faults)
    requires !r.dirty && (AddBatch(r.assembly, b).items.Success? ==> !HasConfig(r.pending + AddBatch(r.assembly, b).items.value))
    ensures ReceiverAdd(r, w, b, faults).durable.projected == w.projected
  {
    var added := AddBatch(r.assembly, b);
    if !r.completed && added.items.Success? {
      var p := Progress(r.pending + added.items.value, r.rotations, r.dirty, w.held);
      var _ := PersistKeepsOrder(p, faults.calls, faults.landed);
    }
  }

  lemma NoConfigIn(items: seq<Item>, i: int, j: int)
    requires 0 <= i <= j <= |items| && !HasConfig(items)
    ensures !HasConfig(items[i..j])
  {
  }

  lemma AddLeavesProjection(plan: Plan, sent: seq<Batch>, base: set<Item>, k: nat, j: nat, r: Receiver, w: Durable, faults: Faults)
    requires PlanItems(plan.items) && Chain(plan, sent) && j < |sent| && !HasConfig(plan.items)
    requires ReceiverAt(base, plan, sent, k, r, w)
    ensures ReceiverAdd(r, w, sent[j], faults).durable.projected == w.projected
  {
    var at := r.assembly.expected.item;
    var h := at - |r.pending|;
    assert plan.items[..h] == plan.items[0..h];
    NoConfigIn(plan.items, 0, h);
    if k == j {
      assert Link(plan, sent, j);
      if k > 0 {
        assert Link(plan, sent, k - 1);
        ChainGrows(plan, sent, k - 1, k);
      }
      AfterStaysValid(plan.items, StartOf(sent, j), sent[j].chunks);
      AssemblerAccepts(plan, r.assembly, sent[j]);
      SliceOfSlice(plan.items, h, at, End(sent[j]).item, 0);
      NoConfigIn(plan.items, h, End(sent[j]).item);
    } else {
      if j + 1 != k {
        AssemblerRefuses(plan, sent, k, j, r.assembly);
      }
      NoConfigIn(plan.items, h, at);
      assert r.pending + [] == plan.items[h..at];
    }
    ProjectsOnlyConfig(r, w, sent[j], faults);
  }

  // A plan without snapshots and operations never makes the receiver project,
  // so settings an earlier, broken exchange left unprojected stay that way even
  // when this one completes. `ExchangeIsSafe` is the other half: a plan that
  // carries configuration projects all of `base` before its terminal
  // acknowledgement.
  lemma NoConfigNoProjection(plan: Plan, run: seq<Exchange>, e: Event, s': Exchange)
    requires PlanItems(plan.items) && Run(plan, run) && Step(plan, run[|run| - 1], e, s')
    requires !HasConfig(plan.items) && !(e.Elsewhere? && e.reprojected)
    ensures s'.durable.projected == run[|run| - 1].durable.projected
  {
    var s := run[|run| - 1];
    var k := RunKeeps(plan, run);
    if e.DeliverBatch? && s.receiver.Some? {
      var j :| 0 <= j < |s.sent| && s.sent[j] == e.batch;
      AddLeavesProjection(plan, s.sent, s.base, k, j, s.receiver.value, s.durable, e.faults);
      var first := ReceiverAdd(s.receiver.value, s.durable, e.batch, e.faults);
      if first.receiver.completed && first.ack == Failure(Order) {
        assert plan.items[..0] == [];
        RestartLeavesProjection(plan, s, k, j, e.admission, e.faults);
      }
    }
  }

  lemma RestartLeavesProjection(plan: Plan, s: Exchange, k: nat, j: nat, admission: Admission, faults: Faults)
    requires Inv(plan, s, k) && j < |s.sent| && s.receiver.Some? && !HasConfig(plan.items)
    ensures var w := ReceiverAdd(s.receiver.value, s.durable, s.sent[j], faults).durable;
            ReceiverAdd(NewReceiver(plan.space), w, s.sent[j], faults).durable.projected == w.projected
  {
    var w := ReceiverAdd(s.receiver.value, s.durable, s.sent[j], faults).durable;
    assert plan.items[..0] == [];
    AddLeavesProjection(plan, s.sent, {}, 0, j, NewReceiver(plan.space), w, faults);
  }
}
