/** Several inventories on one channel. Each one replaces the sender's plan, while
    batches and acknowledgements of the plans before it may still be on their
    way. */
module Inventories {
  import opened Wrappers
  import opened AntiEntropy
  import opened ConfigReceiver
  import opened ConfigChannel
  import opened Exchange
  import opened ExchangeRuns

  // The plan the sender works on. `at.sent` keeps the batches of every plan.
  datatype Sync = Sync(plan: Plan, at: Exchange)

  // An inventory arrives: the first batch of a fresh plan becomes outstanding.
  ghost predicate Replans(a: Sync, b: Sync, first: Batch) {
    && b.plan.space == a.plan.space && PlanItems(b.plan.items) && Continues(b.plan, ORIGIN, first)
    && b.at == a.at.(outstanding := Some(first), sent := a.at.sent + [first])
  }

  ghost predicate Moves(a: Sync, b: Sync) {
    (b.plan == a.plan && Steps(a.plan, a.at, b.at)) || exists first :: Replans(a, b, first)
  }

  ghost predicate SyncRun(run: seq<Sync>) {
    && run != [] && Init(run[0].plan, run[0].at)
    && forall i :: 0 < i < |run| ==> Moves(run[i - 1], run[i])
  }

  // ---------- What survives any number of inventories ----------

  // Every acknowledgement, the receiver's last one included, vouches for no more
  // than what is held.
  ghost predicate Honest(r: Option<Receiver>, w: Durable, acks: set<Ack>) {
    && (forall a :: a in acks ==> a.frontier <= w.held)
    && (r.Some? && r.value.lastAck.Some? ==> r.value.lastAck.value.frontier <= w.held)
    && w.projected <= w.held
  }

  lemma AddIsHonest(r: Receiver, w: Durable, b: Batch, faults: Faults)
    requires Honest(Some(r), w, {})
    ensures var f := ReceiverAdd(r, w, b, faults);
      w.held <= f.durable.held && Honest(Some(f.receiver), f.durable, if f.ack.Success? then {f.ack.value} else {})
  {
    var added := AddBatch(r.assembly, b);
    if !r.completed && added.items.Success? {
      var p := Progress(r.pending + added.items.value, r.rotations, r.dirty, w.held);
      var spill := PersistKeepsOrder(p, faults.calls, faults.landed);
      assert w.held <= Persist(p, faults.calls, faults.landed).progress.held;
    }
    hide AddBatch, Persist;
  }

  lemma AcceptIsHonest(space: string, r: Option<Receiver>, w: Durable, b: Batch, admission: Admission, faults: Faults)
    requires Honest(r, w, {})
    ensures var h := AcceptBatch(space, r, w, b, admission, faults);
      w.held <= h.durable.held && Honest(h.receiver, h.durable, if h.ack.Success? then {h.ack.value} else {})
  {
    hide ReceiverAdd;
    if r.Some? {
      AddIsHonest(r.value, w, b, faults);
      var first := ReceiverAdd(r.value, w, b, faults);
      AddIsHonest(NewReceiver(space), first.durable, b, faults);
    }
  }

  ghost predicate Sound(s: Exchange) {
    Honest(s.receiver, s.durable, s.acks) && s.recorded <= s.durable.held
  }

  lemma MoveKeeps(a: Sync, b: Sync)
    requires Sound(a.at) && Moves(a, b)
    ensures Sound(b.at) && a.at.durable.held <= b.at.durable.held
  {
    hide AcceptBatch, Continues;
    if b.plan == a.plan && Steps(a.plan, a.at, b.at) {
      var e :| Step(a.plan, a.at, e, b.at);
      if e.DeliverBatch? {
        AcceptIsHonest(a.plan.space, a.at.receiver, a.at.durable, e.batch, e.admission, e.faults);
      }
    }
  }

  // In every run with any number of inventories, whatever is lost, repeated or
  // reordered: an acknowledgement vouches only for what is held, the sender
  // records no more than that, and nothing held is given up.
  lemma {:induction false} FrontierIsHeld(run: seq<Sync>)
    requires SyncRun(run)
    ensures var s := run[|run| - 1].at;
      && s.recorded <= s.durable.held && run[0].at.durable.held <= s.durable.held
      && (forall a :: a in s.acks ==> a.frontier <= s.durable.held)
      && Sound(s)
    decreases |run|
  {
    hide Steps, Moves, Honest;
    if |run| == 1 {
      FreshIsSound(run[0]);
    } else {
      FrontierIsHeld(run[..|run| - 1]);
      MoveKeeps(run[|run| - 2], run[|run| - 1]);
    }
    SoundMeans(run[|run| - 1].at);
  }

  lemma FreshIsSound(s: Sync)
    requires Init(s.plan, s.at)
    ensures Sound(s.at)
  {
  }

  lemma SoundMeans(s: Exchange)
    requires Sound(s)
    ensures forall a :: a in s.acks ==> a.frontier <= s.durable.held
  {
  }

  // ---------- What does not ----------

  // An acknowledgement made under one plan passes under the next one exactly when
  // the batch it is for ends at the same cursor as the new plan's first batch and
  // is terminal like it.
  lemma StaleAckPassesExactly(plan: Plan, run: seq<Exchange>, next: Sync, first: Batch, a: Ack) returns (j: nat)
    requires PlanItems(plan.items) && Run(plan, run)
    requires var s := run[|run| - 1]; a in s.acks && Replans(Sync(plan, s), next, first)
    ensures var s := run[|run| - 1];
      && j < |s.sent| && AckFor(s.base, plan, s.durable, s.sent[j], a)
      && (AckMatches(plan.space, next.at.outstanding, a) <==> End(s.sent[j]) == End(first) && s.sent[j].done == first.done)
  {
    var s := run[|run| - 1];
    var k := RunKeeps(plan, run);
    assert Acked(s.base, plan, s.sent, Reach(s.sent, k), s.durable, a);
    j :| 0 <= j < Reach(s.sent, k) && AckFor(s.base, plan, s.durable, s.sent[j], a);
  }

  lemma TerminalEnds(plan: Plan, start: Cursor, b: Batch)
    requires PlanItems(plan.items) && Continues(plan, start, b)
    ensures b.done <==> End(b) == Cursor(|plan.items|, 0)
  {
    AfterStaysValid(plan.items, start, b.chunks);
  }

  // A terminal one passes exactly when the new plan fits in one batch and has as
  // many items as the old one.
  lemma TerminalAckPassesExactly(plan: Plan, run: seq<Exchange>, next: Sync, first: Batch, a: Ack)
    requires PlanItems(plan.items) && Run(plan, run)
    requires var s := run[|run| - 1]; a in s.acks && a.done && Replans(Sync(plan, s), next, first)
    ensures AckMatches(plan.space, next.at.outstanding, a) <==> first.done && |next.plan.items| == |plan.items|
  {
    var s := run[|run| - 1];
    var k := RunKeeps(plan, run);
    var j := StaleAckPassesExactly(plan, run, next, first, a);
    assert Link(plan, s.sent, j);
    TerminalEnds(plan, StartOf(s.sent, j), s.sent[j]);
    TerminalEnds(next.plan, ORIGIN, first);
  }

  // ---------- An exchange stores nothing but its plan ----------

  lemma AddHoldsNoMore(r: Receiver, w: Durable, b: Batch, faults: Faults, all: set<Item>)
    requires Elements(r.pending) <= all && RotationItems(r.rotations) <= all
    requires AddBatch(r.assembly, b).items.Success? ==> Elements(AddBatch(r.assembly, b).items.value) <= all
    ensures ReceiverAdd(r, w, b, faults).durable.held <= w.held + all
  {
    var added := AddBatch(r.assembly, b);
    if !r.completed && added.items.Success? {
      var p := Progress(r.pending + added.items.value, r.rotations, r.dirty, w.held);
      PassHoldsNoMore(p, faults.calls, faults.landed, all);
    }
    hide AddBatch, Persist, RotationItems, Elements;
  }

  lemma PassHoldsNoMore(p: Progress, calls: nat, landed: bool, all: set<Item>)
    requires Elements(p.pending) <= all && RotationItems(p.rotations) <= all
    ensures var q := Persist(p, calls, landed).progress;
      q.held <= p.held + all && RotationItems(q.rotations) <= all
  {
    hide Persist;
    var spill := PersistKeepsOrder(p, calls, landed);
    var q := Persist(p, calls, landed).progress;
    var taken := p.pending[..Disposed(p, q)];
    RotationsComplete(taken);
    assert Elements(taken) <= Elements(p.pending);
  }

  lemma RotationTokensIn(items: seq<Item>)
    ensures RotationItems(RotationTokens(items)) <= Elements(items)
  {
    RotationsComplete(items);
  }

  lemma ReceiverFromPlan(base: set<Item>, plan: Plan, sent: seq<Batch>, k: nat, r: Receiver, w: Durable)
    requires ReceiverAt(base, plan, sent, k, r, w)
    ensures Elements(r.pending) <= Elements(plan.items) && RotationItems(r.rotations) <= Elements(plan.items)
  {
    hide Placed, Finished, HasConfig;
    RotationTokensIn(plan.items[..r.assembly.expected.item - |r.pending|]);
  }

  lemma AddedNext(plan: Plan, sent: seq<Batch>, k: nat, a: Assembly)
    requires PlanItems(plan.items) && Chain(plan, sent) && k < |sent| && Placed(plan, sent, k, a)
    ensures var items := AddBatch(a, sent[k]).items; items.Success? && Elements(items.value) <= Elements(plan.items)
  {
    hide AddBatch;
    assert Link(plan, sent, k);
    if k > 0 {
      assert Link(plan, sent, k - 1);
      ChainGrows(plan, sent, k - 1, k);
    }
    AfterStaysValid(plan.items, StartOf(sent, k), sent[k].chunks);
    AssemblerAccepts(plan, a, sent[k]);
  }

  lemma AddedAgain(a: Assembly, b: Batch)
    requires a.last == Some(b)
    ensures var items := AddBatch(a, b).items; items.Success? ==> items.value == []
  {
  }

  lemma AddedFromPlan(base: set<Item>, plan: Plan, sent: seq<Batch>, k: nat, j: nat, r: Receiver, w: Durable)
    requires PlanItems(plan.items) && Chain(plan, sent) && j < |sent| && ReceiverAt(base, plan, sent, k, r, w)
    ensures var items := AddBatch(r.assembly, sent[j]).items; items.Success? ==> Elements(items.value) <= Elements(plan.items)
  {
    hide AddBatch, Chain, Queue, Finished, AssemblyTracks;
    if k == j {
      AddedNext(plan, sent, k, r.assembly);
    } else if j + 1 == k {
      AddedAgain(r.assembly, sent[j]);
    } else {
      AssemblerRefuses(plan, sent, k, j, r.assembly);
    }
  }

  lemma AddAddsOnlyPlan(base: set<Item>, plan: Plan, sent: seq<Batch>, k: nat, j: nat, r: Receiver, w: Durable, faults: Faults)
    requires PlanItems(plan.items) && Chain(plan, sent) && j < |sent| && ReceiverAt(base, plan, sent, k, r, w)
    ensures ReceiverAdd(r, w, sent[j], faults).durable.held <= w.held + Elements(plan.items)
  {
    hide ReceiverAt, AddBatch, ReceiverAdd;
    ReceiverFromPlan(base, plan, sent, k, r, w);
    AddedFromPlan(base, plan, sent, k, j, r, w);
    AddHoldsNoMore(r, w, sent[j], faults, Elements(plan.items));
  }

  lemma FreshAddsOnlyPlan(plan: Plan, s: Exchange, k: nat, j: nat, w: Durable, faults: Faults)
    requires Inv(plan, s, k) && j < |s.sent|
    ensures ReceiverAdd(NewReceiver(plan.space), w, s.sent[j], faults).durable.held <= w.held + Elements(plan.items)
  {
    assert plan.items[..0] == [];
    AddAddsOnlyPlan({}, plan, s.sent, 0, j, NewReceiver(plan.space), w, faults);
  }

  // Whatever fails, one delivery stores only items of the plan.
  lemma DeliveryAddsOnlyPlan(plan: Plan, s: Exchange, k: nat, e: Event, s': Exchange)
    requires Inv(plan, s, k) && e.DeliverBatch? && Step(plan, s, e, s')
    ensures s'.durable.held <= s.durable.held + Elements(plan.items)
  {
    var j :| 0 <= j < |s.sent| && s.sent[j] == e.batch;
    if s.receiver.Some? {
      AddAddsOnlyPlan(s.base, plan, s.sent, k, j, s.receiver.value, s.durable, e.faults);
      FreshAddsOnlyPlan(plan, s, k, j, ReceiverAdd(s.receiver.value, s.durable, e.batch, e.faults).durable, e.faults);
    }
    hide ReceiverAdd, Inv, ReceiverAt;
  }

  // So over a whole run everything the other side gains comes from the plan, or
  // from elsewhere.
  lemma {:induction false} HoldsOnlyPlan(plan: Plan, run: seq<Exchange>, events: seq<Event>, n: nat)
    requires PlanItems(plan.items) && Trace(plan, run, events) && n <= |events|
    requires forall i :: 0 <= i < |events| ==> !events[i].Elsewhere?
    ensures run[n].durable.held <= run[0].durable.held + Elements(plan.items)
  {
    hide Init, Inv, AcceptBatch, Continues;
    if n > 0 {
      HoldsOnlyPlan(plan, run, events, n - 1);
      TracePrefix(plan, run, events, n - 1);
      var k := RunKeeps(plan, run[..n]);
      assert Step(plan, run[n - 1], events[n - 1], run[n - 1 + 1]);
      if events[n - 1].DeliverBatch? {
        DeliveryAddsOnlyPlan(plan, run[n - 1], k, events[n - 1], run[n]);
      }
    }
  }

  // ---------- Stopping early ----------

  lemma Followed(plan: Plan, run: seq<Exchange>) returns (syncs: seq<Sync>)
    requires Run(plan, run)
    ensures SyncRun(syncs) && syncs[0] == Sync(plan, run[0]) && syncs[|syncs| - 1] == Sync(plan, run[|run| - 1])
  {
    hide Steps, Init;
    syncs := seq(|run|, i requires 0 <= i < |run| => Sync(plan, run[i]));
  }

  lemma MovesOn(run: seq<Sync>, s: Sync)
    requires SyncRun(run) && Moves(run[|run| - 1], s)
    ensures SyncRun(run + [s])
  {
    hide Moves, Init;
  }

  // A plan is on its way in full, and its terminal acknowledgement is delayed past
  // the next inventory. If the new plan fits in one batch and has as many items,
  // the sender takes it for the end of the new exchange, of which nothing may have
  // been delivered.
  lemma StopsEarly(plan: Plan, sent: seq<Batch>, w: Durable, next: Plan, first: Batch) returns (run: seq<Sync>)
    requires PlanItems(plan.items) && Chain(plan, sent) && sent[|sent| - 1].done && w.projected <= w.held
    requires next.space == plan.space && PlanItems(next.items) && Continues(next, ORIGIN, first) && first.done
    requires |next.items| == |plan.items| && !(Elements(next.items) <= w.held + Elements(plan.items))
    ensures SyncRun(run) && run[0] == Sync(plan, run[0].at) && run[0].at.durable == w
    ensures var s := run[|run| - 1]; s.plan == next && s.at.outstanding.None? && !(Elements(next.items) <= s.at.durable.held)
  {
    hide AcceptBatch, Inv, Init, Chain, PlanItems, Continues, Elements;
    var states, events, a := Completes(plan, sent, w);
    TracePrefix(plan, states, events, |events|);
    assert states[..|events| + 1] == states;
    HoldsOnlyPlan(plan, states, events, |events|);
    var s := states[|states| - 1];
    run := Followed(plan, states);
    var t := Sync(next, s.(outstanding := Some(first), sent := s.sent + [first]));
    assert Replans(Sync(plan, s), t, first);
    TerminalAckPassesExactly(plan, states, t, first, a);
    MovesOn(run, t);
    var u := Sync(next, t.at.(outstanding := None, recorded := t.at.recorded + a.frontier));
    assert Step(next, t.at, DeliverAck(a, first), u.at);
    MovesOn(run + [t], u);
    run := run + [t] + [u];
  }

  // For any two different tokens.

  function Single(token: string): Plan {
    Plan("space", map[], [Item(Membership, token)], 100)
  }

  function SingleBatch(token: string): Batch {
    Batch("space", ORIGIN, None, true, map[], [Chunk(Membership, Digest(token), 0, |token|, token)])
  }

  lemma SingleLink(token: string)
    requires token != ""
    ensures PlanItems(Single(token).items) && Continues(Single(token), ORIGIN, SingleBatch(token))
    ensures Chain(Single(token), [SingleBatch(token)])
  {
    var b, items := SingleBatch(token), Single(token).items;
    assert b.chunks[..0] == [];
    assert After(b.start, b.chunks[..0]) == b.start;
    assert ChunkAt(items, b.start, b.chunks[0]);
    assert ChunksFrom(items, b.start, b.chunks[..0]);
    assert Link(Single(token), [b], 0);
  }

  lemma StopsEarlyOnce(one: string, other: string) returns (run: seq<Sync>)
    requires one != "" && other != "" && one != other
    ensures SyncRun(run) && run[0].plan == Single(one) && run[|run| - 1].plan == Single(other)
    ensures run[|run| - 1].at.outstanding.None? && Item(Membership, other) !in run[|run| - 1].at.durable.held
  {
    SingleLink(one);
    SingleLink(other);
    assert Item(Membership, other) in Elements(Single(other).items);
    hide Continues, Chain, PlanItems;
    run := StopsEarly(Single(one), [SingleBatch(one)], Durable({}, {}), Single(other), SingleBatch(other));
  }
}
