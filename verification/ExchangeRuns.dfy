/** Runs of the exchange with their events: when the two ends stay in step, a run
    in which they do not, and what a run without failures achieves. */
module ExchangeRuns {
  import opened Wrappers
  import opened AntiEntropy
  import opened ConfigReceiver
  import opened ConfigChannel
  import opened Exchange

  ghost predicate Trace(plan: Plan, run: seq<Exchange>, events: seq<Event>) {
    && |run| == |events| + 1 && Init(plan, run[0])
    && forall i :: 0 <= i < |events| ==> Step(plan, run[i], events[i], run[i + 1])
  }

  lemma TracePrefix(plan: Plan, run: seq<Exchange>, events: seq<Event>, n: nat)
    requires Trace(plan, run, events) && n <= |events|
    ensures Trace(plan, run[..n + 1], events[..n]) && Run(plan, run[..n + 1])
  {
    hide Step, Init;
    var part := run[..n + 1];
    forall i | 0 < i < |part|
      ensures Steps(plan, part[i - 1], part[i])
    {
      assert Step(plan, run[i - 1], events[i - 1], run[i - 1 + 1]);
    }
  }

  // Every run has such a trace.
  lemma {:induction false} RunHasTrace(plan: Plan, run: seq<Exchange>) returns (events: seq<Event>)
    requires Run(plan, run)
    ensures Trace(plan, run, events)
    decreases |run|
  {
    hide Step, Init;
    if |run| == 1 {
      events := [];
    } else {
      var n := |run| - 1;
      var before := RunHasTrace(plan, run[..n]);
      assert Steps(plan, run[n - 1], run[n]);
      var e :| Step(plan, run[n - 1], e, run[n]);
      events := before + [e];
      forall i | 0 <= i < |events|
        ensures Step(plan, run[i], events[i], run[i + 1])
      {
        if i < |before| {
          assert Step(plan, run[..n][i], before[i], run[..n][i + 1]);
        }
      }
    }
  }

  // The first of at least three batches reaches a receiver that has completed
  // and may start over, while the sender still waits.
  predicate LateFirst(s: Exchange, e: Event) {
    && s.outstanding.Some? && s.receiver.Some? && s.receiver.value.completed
    && e.DeliverBatch? && e.batch.start == ORIGIN && e.admission == Admitted && |s.sent| >= 3
  }

  lemma {:induction false} InStepUntilLate(plan: Plan, run: seq<Exchange>, events: seq<Event>, n: nat)
    requires PlanItems(plan.items) && Trace(plan, run, events) && n <= |events|
    requires forall i :: 0 <= i < n ==> !LateFirst(run[i], events[i])
    ensures InStep(run[n])
  {
    hide Step, LateFirst;
    if n > 0 {
      InStepUntilLate(plan, run, events, n - 1);
      OneMore(plan, run, events, n - 1);
    }
  }

  lemma OneMore(plan: Plan, run: seq<Exchange>, events: seq<Event>, i: nat)
    requires PlanItems(plan.items) && Trace(plan, run, events) && i < |events| && InStep(run[i])
    ensures InStep(run[i + 1]) <==> !LateFirst(run[i], events[i])
  {
    hide Step, InStep, Init;
    TracePrefix(plan, run, events, i);
    assert Step(plan, run[i], events[i], run[i + 1]);
    FallsOutOfStepExactly(plan, run[..i + 1], events[i], run[i + 1]);
  }

  // A whole run stays in step, the receiver's cursor always at one end of the
  // outstanding batch, exactly when no late first batch is delivered in it.
  lemma InStepExactly(plan: Plan, run: seq<Exchange>, events: seq<Event>)
    requires PlanItems(plan.items) && Trace(plan, run, events)
    ensures (forall i :: 0 <= i < |run| ==> InStep(run[i])) <==> (forall i :: 0 <= i < |events| ==> !LateFirst(run[i], events[i]))
  {
    hide Step, InStep, LateFirst, Init;
    if forall i :: 0 <= i < |events| ==> !LateFirst(run[i], events[i]) {
      forall i | 0 <= i < |run|
        ensures InStep(run[i])
      {
        InStepUntilLate(plan, run, events, i);
      }
    } else {
      var i :| 0 <= i < |events| && LateFirst(run[i], events[i]);
      if InStep(run[i]) {
        OneMore(plan, run, events, i);
      }
    }
  }

  // Deliveries in the order of sending: none of a batch after a later one.
  // Repeating the outstanding batch is in order.
  predicate InOrder(events: seq<Event>) {
    forall i, j :: 0 <= i < j < |events| && events[i].DeliverBatch? && events[j].DeliverBatch? ==>
      !Before(events[j].batch.start, events[i].batch.start)
  }

  lemma CompletesOnTerminal(space: string, r: Option<Receiver>, w: Durable, b: Batch, admission: Admission, faults: Faults)
    requires var h := AcceptBatch(space, r, w, b, admission, faults); h.receiver.Some? && h.receiver.value.completed
    ensures b.done || (r.Some? && r.value.completed)
  {
    hide AddBatch, Persist;
  }

  lemma {:induction false} SentGrows(plan: Plan, run: seq<Exchange>, events: seq<Event>, m: nat, n: nat)
    requires Trace(plan, run, events) && m <= n < |run|
    ensures run[m].sent <= run[n].sent
    decreases n - m
  {
    hide Init, AcceptBatch;
    if m < n {
      SentGrows(plan, run, events, m, n - 1);
      assert Step(plan, run[n - 1], events[n - 1], run[n - 1 + 1]);
    }
  }

  // A receiver completes only by the delivery of a terminal batch.
  lemma {:induction false} CompletedBy(plan: Plan, run: seq<Exchange>, events: seq<Event>, n: nat) returns (m: nat)
    requires Trace(plan, run, events) && n < |run| && run[n].receiver.Some? && run[n].receiver.value.completed
    ensures m < n && events[m].DeliverBatch? && events[m].batch.done && events[m].batch in run[m].sent
  {
    hide AcceptBatch;
    if n > 0 {
      assert Step(plan, run[n - 1], events[n - 1], run[n - 1 + 1]);
      if events[n - 1].DeliverBatch? {
        var e, s := events[n - 1], run[n - 1];
        CompletesOnTerminal(plan.space, s.receiver, s.durable, e.batch, e.admission, e.faults);
        if e.batch.done {
          return n - 1;
        }
      }
      m := CompletedBy(plan, run, events, n - 1);
    }
  }

  lemma TerminalIsLast(plan: Plan, s: Exchange, k: nat, b: Batch)
    requires Inv(plan, s, k) && |s.sent| >= 3 && b in s.sent && b.done
    ensures Before(ORIGIN, b.start)
  {
    hide ReceiverAt, Acked;
    var j :| 0 <= j < |s.sent| && s.sent[j] == b;
    assert Link(plan, s.sent, j);
    ChainGrows(plan, s.sent, 0, j);
  }

  // Over a transport that delivers in order, whatever it loses and however
  // often the outstanding batch is repeated, the two ends are always in step.
  lemma InOrderStaysInStep(plan: Plan, run: seq<Exchange>, events: seq<Event>)
    requires PlanItems(plan.items) && Trace(plan, run, events) && InOrder(events)
    ensures forall i :: 0 <= i < |run| ==> InStep(run[i])
  {
    hide InStep, Step, Init;
    forall i | 0 <= i < |events|
      ensures !LateFirst(run[i], events[i])
    {
      if LateFirst(run[i], events[i]) {
        var m := CompletedBy(plan, run, events, i);
        SentGrows(plan, run, events, m, i);
        TracePrefix(plan, run, events, i);
        var k := RunKeeps(plan, run[..i + 1]);
        TerminalIsLast(plan, run[i], k, events[m].batch);
      }
    }
    InStepExactly(plan, run, events);
  }

  // Runs in which nothing fails.

  function NoFaults(calls: nat): Faults {
    Faults(calls, false, Works, true, true)
  }

  // The receiver waits for the outstanding batch with nothing pending.
  ghost predicate Waiting(plan: Plan, s: Exchange, k: nat) {
    && Inv(plan, s, k) && k == |s.sent| - 1 && s.outstanding == Some(s.sent[k])
    && s.receiver.Some? && !s.receiver.value.completed && s.receiver.value.pending == []
  }

  lemma Assembled(plan: Plan, s: Exchange, k: nat)
    requires Waiting(plan, s, k)
    ensures AddBatch(s.receiver.value.assembly, s.sent[k]).items.Success?
    ensures |AddBatch(s.receiver.value.assembly, s.sent[k]).items.value| <= |plan.items|
    ensures s.receiver.value.assembly.space == plan.space
  {
    hide AddBatch, Booked, Acked, Finished;
    var b, r := s.sent[k], s.receiver.value;
    assert Link(plan, s.sent, k);
    if k > 0 {
      assert Link(plan, s.sent, k - 1);
      ChainGrows(plan, s.sent, k - 1, k);
    }
    AfterStaysValid(plan.items, StartOf(s.sent, k), b.chunks);
    AssemblerAccepts(plan, r.assembly, b);
  }

  lemma Taken(plan: Plan, s: Exchange, k: nat)
    requires Waiting(plan, s, k)
    ensures var b, r := s.sent[k], s.receiver.value;
      var f := ReceiverAdd(r, s.durable, b, NoFaults(|plan.items|));
      && f.receiver.pending == [] && f.receiver.completed == b.done
      && f.ack == Success(Ack(plan.space, End(b), f.durable.held, b.done))
  {
    Assembled(plan, s, k);
    hide AddBatch, Inv, Persist;
    var b, r := s.sent[k], s.receiver.value;
    var items := AddBatch(r.assembly, b).items.value;
    assert r.pending + items == items;
    PersistWorks(Progress(items, r.rotations, r.dirty, s.durable.held), |plan.items|, false);
  }

  lemma TakeStep(plan: Plan, s: Exchange, k: nat) returns (e: Event, s': Exchange, a: Ack)
    requires Waiting(plan, s, k)
    ensures e == DeliverBatch(s.sent[k], Admitted, NoFaults(|plan.items|)) && Step(plan, s, e, s') && Inv(plan, s', k + 1)
    ensures s'.sent == s.sent && s'.outstanding == s.outstanding && s'.receiver.Some?
    ensures s'.receiver.value.pending == [] && s'.receiver.value.completed == s.sent[k].done
    ensures a in s'.acks && a == Ack(plan.space, End(s.sent[k]), a.frontier, s.sent[k].done)
  {
    hide Inv, ReceiverAdd;
    var b, faults := s.sent[k], NoFaults(|plan.items|);
    var h := AcceptBatch(plan.space, s.receiver, s.durable, b, Admitted, faults);
    Taken(plan, s, k);
    AcceptRunning(plan.space, s.receiver.value, s.durable, b, Admitted, faults);
    e := DeliverBatch(b, Admitted, faults);
    s' := s.(receiver := h.receiver, durable := h.durable, acks := s.acks + {h.ack.value});
    a := h.ack.value;
    var k' := BatchStepKeeps(plan, s, k, b, Admitted, faults, s');
  }

  lemma Extended(plan: Plan, run: seq<Exchange>, events: seq<Event>, e: Event, s: Exchange)
    requires Trace(plan, run, events) && Step(plan, run[|run| - 1], e, s)
    ensures Trace(plan, run + [s], events + [e])
  {
    hide Step, Init;
    var run', events' := run + [s], events + [e];
    forall i | 0 <= i < |events'|
      ensures Step(plan, run'[i], events'[i], run'[i + 1])
    {
      if i < |events| {
        assert Step(plan, run[i], events[i], run[i + 1]);
      }
    }
  }

  lemma FreshReceiverAt(plan: Plan, first: Batch, w: Durable)
    requires PlanItems(plan.items) && w.projected <= w.held
    ensures ReceiverAt(w.held, plan, [first], 0, NewReceiver(plan.space), w)
  {
    assert plan.items[..0] == [];
  }

  function FirstState(plan: Plan, first: Batch, w: Durable): Exchange {
    Exchange(w.held, [first], Some(first), {}, Some(NewReceiver(plan.space)), w, {})
  }

  lemma FirstTrace(plan: Plan, first: Batch, w: Durable)
    requires Continues(plan, ORIGIN, first) && w.projected <= w.held
    ensures Trace(plan, [FirstState(plan, first, w)], [])
  {
    hide Continues, Step;
  }

  lemma FirstInv(plan: Plan, first: Batch, w: Durable)
    requires PlanItems(plan.items) && Continues(plan, ORIGIN, first) && w.projected <= w.held
    ensures Inv(plan, FirstState(plan, first, w), 0)
  {
    FreshReceiverAt(plan, first, w);
    hide ReceiverAt, Continues, Acked, Settled, PlanItems;
    assert StartOf([first], 0) == ORIGIN;
    assert Link(plan, [first], 0);
  }

  lemma SentFirst(plan: Plan, first: Batch, w: Durable) returns (s: Exchange)
    requires PlanItems(plan.items) && Continues(plan, ORIGIN, first) && w.projected <= w.held
    ensures Trace(plan, [s], []) && s.durable == w && s.sent == [first] && Waiting(plan, s, 0)
  {
    s := FirstState(plan, first, w);
    FirstTrace(plan, first, w);
    FirstInv(plan, first, w);
    hide Inv, Trace, Continues;
  }

  // Delivering the outstanding batch, for the first time or again, makes the
  // acknowledgement the sender waits for once nothing fails, exactly in the
  // states that are in step. A receiver that has completed repeats its last one
  // and changes nothing.
  lemma OutstandingAcknowledgedExactly(plan: Plan, run: seq<Exchange>, admission: Admission)
    requires PlanItems(plan.items) && Run(plan, run)
    requires var s := run[|run| - 1]; s.outstanding.Some? && s.receiver.Some?
    ensures var s := run[|run| - 1];
      var h := AcceptBatch(plan.space, s.receiver, s.durable, s.outstanding.value, admission, NoFaults(|plan.items|));
      && (InStep(s) <==> h.ack.Success? && AckMatches(plan.space, s.outstanding, h.ack.value))
      && (h.ack.Success? ==> h.ack.value.frontier <= h.durable.held)
      && (s.receiver.value.completed ==>
            s.receiver.value.lastAck.Some? && h == Handled(s.receiver, s.durable, Success(s.receiver.value.lastAck.value)))
  {
    var s := run[|run| - 1];
    var k := RunKeeps(plan, run);
    InStepMeans(plan, s, k);
    CompletedAtEnd(plan, s, k);
    if s.receiver.value.completed {
      CompletedAcknowledges(plan, s, k, admission);
    } else if k >= |s.sent| - 1 {
      RunningAcknowledges(plan, s, k, admission);
    } else {
      AssemblerRefuses(plan, s.sent, k, |s.sent| - 1, s.receiver.value.assembly);
      AcceptRefused(plan.space, s.receiver.value, s.durable, s.outstanding.value, admission, NoFaults(|plan.items|));
    }
    hide AcceptBatch, AddBatch, ReceiverAt;
  }

  lemma CompletedAcknowledges(plan: Plan, s: Exchange, k: nat, admission: Admission)
    requires Inv(plan, s, k) && k == |s.sent| && s.outstanding == Some(s.sent[k - 1])
    requires s.receiver.Some? && s.receiver.value.completed
    ensures var h := AcceptBatch(plan.space, s.receiver, s.durable, s.sent[k - 1], admission, NoFaults(|plan.items|));
      && s.receiver.value.lastAck.Some? && h == Handled(s.receiver, s.durable, Success(s.receiver.value.lastAck.value))
      && AckMatches(plan.space, s.outstanding, h.ack.value) && h.ack.value.frontier <= h.durable.held
  {
    DeliverReplay(plan, s, k, admission, NoFaults(|plan.items|));
    assert Link(plan, s.sent, k - 1);
    AfterStaysValid(plan.items, s.sent[k - 1].start, s.sent[k - 1].chunks);
    assert AddBatch(s.receiver.value.assembly, s.sent[k - 1]) == Added(s.receiver.value.assembly, Success([]));
    hide AddBatch, Booked;
  }

  lemma RunningAcknowledges(plan: Plan, s: Exchange, k: nat, admission: Admission)
    requires Inv(plan, s, k) && k >= |s.sent| - 1 && s.outstanding == Some(s.sent[|s.sent| - 1])
    requires s.receiver.Some? && !s.receiver.value.completed
    ensures var h := AcceptBatch(plan.space, s.receiver, s.durable, s.sent[|s.sent| - 1], admission, NoFaults(|plan.items|));
      h.ack.Success? && AckMatches(plan.space, s.outstanding, h.ack.value) && h.ack.value.frontier == h.durable.held
  {
    var r, b := s.receiver.value, s.sent[|s.sent| - 1];
    RunningTakes(plan, s, k);
    hide AddBatch, Inv, ReceiverAdd;
    AcceptRunning(plan.space, r, s.durable, b, admission, NoFaults(|plan.items|));
    AddWorks(r, s.durable, b, |plan.items|);
  }

  // The outstanding batch is assembled, or replayed, with what is pending from it.
  lemma RunningTakes(plan: Plan, s: Exchange, k: nat)
    requires Inv(plan, s, k) && k >= |s.sent| - 1 && s.receiver.Some? && !s.receiver.value.completed
    ensures var r, b := s.receiver.value, s.sent[|s.sent| - 1];
      var items := AddBatch(r.assembly, b).items;
      r.assembly.space == plan.space && items.Success? && |r.pending| + |items.value| <= |plan.items|
  {
    hide AddBatch, Booked, Acked, Finished;
    var r, n := s.receiver.value, |s.sent| - 1;
    var b := s.sent[n];
    assert Link(plan, s.sent, n);
    AfterStaysValid(plan.items, StartOf(s.sent, n), b.chunks);
    if k == n {
      if k > 0 {
        assert Link(plan, s.sent, k - 1);
        ChainGrows(plan, s.sent, k - 1, k);
      }
      AssemblerAccepts(plan, r.assembly, b);
    } else {
      LastReplayed(plan, r.assembly, b);
    }
  }

  lemma LastReplayed(plan: Plan, a: Assembly, b: Batch)
    requires a.last == Some(b) && b.space == a.space && Continues(plan, b.start, b)
    requires ValidCursor(plan.items, End(b))
    ensures AddBatch(a, b) == Added(a, Success([]))
  {
  }

  lemma AddWorks(r: Receiver, w: Durable, b: Batch, calls: nat)
    requires !r.completed && AddBatch(r.assembly, b).items.Success? && |r.pending| + |AddBatch(r.assembly, b).items.value| <= calls
    ensures var f := ReceiverAdd(r, w, b, NoFaults(calls));
      f.ack == Success(Ack(r.assembly.space, End(b), f.durable.held, b.done))
  {
    var items := AddBatch(r.assembly, b).items.value;
    PersistWorks(Progress(r.pending + items, r.rotations, r.dirty, w.held), calls, false);
    hide AddBatch, Persist;
  }

  // Any plan cut into batches in any way is sent up to any of them.
  lemma {:induction false} SentUpTo(plan: Plan, sent: seq<Batch>, n: nat, w: Durable) returns (run: seq<Exchange>, events: seq<Event>)
    requires PlanItems(plan.items) && Chain(plan, sent) && n < |sent| && w.projected <= w.held
    ensures Trace(plan, run, events) && run[0].durable == w
    ensures var s := run[|run| - 1]; s.sent == sent[..n + 1] && Waiting(plan, s, n)
    ensures forall i :: 0 <= i < |events| ==> !events[i].Elsewhere?
  {
    hide Trace, Waiting, Continues, Step;
    assert Link(plan, sent, n);
    if n == 0 {
      var s := SentFirst(plan, sent[0], w);
      run, events := [s], [];
    } else {
      run, events := SentUpTo(plan, sent, n - 1, w);
      assert Link(plan, sent, n - 1);
      var run', events' := SentOneMore(plan, run, events, n, sent[n]);
      run, events := run', events';
      assert sent[..n] + [sent[n]] == sent[..n + 1];
    }
  }

  lemma SentOneMore(plan: Plan, run: seq<Exchange>, events: seq<Event>, n: nat, next: Batch)
    returns (run': seq<Exchange>, events': seq<Event>)
    requires Trace(plan, run, events) && n > 0
    requires var s := run[|run| - 1]; |s.sent| == n && Waiting(plan, s, n - 1) && !s.sent[n - 1].done && Continues(plan, End(s.sent[n - 1]), next)
    ensures Trace(plan, run', events') && run'[0] == run[0] && run' != []
    ensures var s, t := run[|run| - 1], run'[|run'| - 1]; t.sent == s.sent + [next] && Waiting(plan, t, n)
    ensures (forall i :: 0 <= i < |events| ==> !events[i].Elsewhere?) ==> (forall i :: 0 <= i < |events'| ==> !events'[i].Elsewhere?)
  {
    hide Step, Inv, Continues;
    var e, t, a := TakeStep(plan, run[|run| - 1], n - 1);
    Extended(plan, run, events, e, t);
    AckReleases(plan, t, n, a, next);
    var u := t.(outstanding := Some(next), sent := t.sent + [next]);
    Extended(plan, run + [t], events + [e], DeliverAck(a, next), u);
    run', events' := run + [t] + [u], events + [e] + [DeliverAck(a, next)];
  }

  lemma AckReleases(plan: Plan, t: Exchange, n: nat, a: Ack, next: Batch)
    requires Inv(plan, t, n) && n == |t.sent| > 0 && t.outstanding == Some(t.sent[n - 1]) && !t.sent[n - 1].done
    requires a in t.acks && a == Ack(plan.space, End(t.sent[n - 1]), a.frontier, false) && Continues(plan, a.cursor, next)
    requires t.receiver.Some? && !t.receiver.value.completed && t.receiver.value.pending == []
    ensures var u := t.(outstanding := Some(next), sent := t.sent + [next]);
      Step(plan, t, DeliverAck(a, next), u) && Waiting(plan, u, n)
  {
    var u := t.(outstanding := Some(next), sent := t.sent + [next]);
    assert Step(plan, t, DeliverAck(a, next), u);
    AckStepKeeps(plan, t, n, a, next, u);
  }

  // The receiver completes on the terminal batch, whose acknowledgement is on
  // its way.
  lemma Completes(plan: Plan, sent: seq<Batch>, w: Durable) returns (run: seq<Exchange>, events: seq<Event>, a: Ack)
    requires PlanItems(plan.items) && Chain(plan, sent) && sent[|sent| - 1].done && w.projected <= w.held
    ensures Trace(plan, run, events) && run[0].durable == w
    ensures var s := run[|run| - 1];
      && s.sent == sent && Inv(plan, s, |sent|) && s.outstanding == Some(sent[|sent| - 1])
      && s.receiver.Some? && s.receiver.value.completed
      && a in s.acks && a.done && AckMatches(plan.space, s.outstanding, a)
    ensures forall i :: 0 <= i < |events| ==> !events[i].Elsewhere?
  {
    var n := |sent| - 1;
    run, events := SentUpTo(plan, sent, n, w);
    assert sent[..n + 1] == sent;
    var s := run[|run| - 1];
    var e, t, ack := TakeStep(plan, s, n);
    Extended(plan, run, events, e, t);
    run, events, a := run + [t], events + [e], ack;
  }

  // Every plan that takes three batches or more has a run in which the first
  // one comes late and the two ends fall out of step.
  lemma LateFirstHappens(plan: Plan, sent: seq<Batch>, w: Durable) returns (run: seq<Exchange>, events: seq<Event>)
    requires PlanItems(plan.items) && Chain(plan, sent) && sent[|sent| - 1].done && |sent| >= 3 && w.projected <= w.held
    ensures Trace(plan, run, events) && !InStep(run[|run| - 1])
  {
    hide AcceptBatch, Inv, Init;
    var a: Ack;
    run, events, a := Completes(plan, sent, w);
    var s := run[|run| - 1];
    InStepMeans(plan, s, |sent|);
    var e := DeliverBatch(sent[0], Admitted, NoFaults(0));
    var h := AcceptBatch(plan.space, s.receiver, s.durable, e.batch, e.admission, e.faults);
    var t := s.(receiver := h.receiver, durable := h.durable, acks := s.acks + if h.ack.Success? then {h.ack.value} else {});
    Extended(plan, run, events, e, t);
    assert Link(plan, sent, 0);
    run, events := run + [t], events + [e];
    OneMore(plan, run, events, |events| - 1);
  }

  // A plan without configuration runs to its end, and the settings stay as
  // unprojected as they were.
  lemma CompletesUnprojected(plan: Plan, sent: seq<Batch>, w: Durable) returns (run: seq<Exchange>, events: seq<Event>)
    requires PlanItems(plan.items) && !HasConfig(plan.items) && w.projected <= w.held
    requires Chain(plan, sent) && sent[|sent| - 1].done
    ensures Trace(plan, run, events) && run[0].durable == w
    ensures run[|run| - 1].outstanding.None? && run[|run| - 1].durable.projected == w.projected
  {
    hide AcceptBatch, Init, Inv;
    var a: Ack;
    run, events, a := Completes(plan, sent, w);
    NeverProjected(plan, run, events, |events|);
    var s := run[|run| - 1];
    var t := s.(outstanding := None, recorded := s.recorded + a.frontier);
    Extended(plan, run, events, DeliverAck(a, sent[0]), t);
    run, events := run + [t], events + [DeliverAck(a, sent[0])];
  }

  lemma {:induction false} NeverProjected(plan: Plan, run: seq<Exchange>, events: seq<Event>, n: nat)
    requires PlanItems(plan.items) && !HasConfig(plan.items) && Trace(plan, run, events) && n <= |events|
    requires forall i :: 0 <= i < |events| ==> !events[i].Elsewhere?
    ensures run[n].durable.projected == run[0].durable.projected
  {
    hide Step, Init;
    if n > 0 {
      NeverProjected(plan, run, events, n - 1);
      TracePrefix(plan, run, events, n - 1);
      assert Step(plan, run[n - 1], events[n - 1], run[n - 1 + 1]);
      NoConfigNoProjection(plan, run[..n], events[n - 1], run[n]);
    }
  }

  // Both at a concrete input: a plan of three one-letter memberships.

  function Letter(i: nat): Item {
    Item(Membership, [(i % 26 + 'a' as int) as char])
  }

  function Letters(n: nat): Plan {
    Plan("space", map[], seq(n, i requires 0 <= i < n => Letter(i)), 100)
  }

  function LetterBatch(n: nat, i: nat): Batch
    requires i < n
  {
    var token := Letter(i).token;
    var end := Cursor(i + 1, 0);
    Batch("space", Cursor(i, 0), if i + 1 == n then None else Some(end), i + 1 == n, map[],
          [Chunk(Membership, Digest(token), 0, 1, token)])
  }

  function LetterBatches(n: nat): seq<Batch> {
    seq(n, i requires 0 <= i < n => LetterBatch(n, i))
  }

  lemma LettersChain(n: nat)
    requires n > 0
    ensures PlanItems(Letters(n).items) && !HasConfig(Letters(n).items)
    ensures Chain(Letters(n), LetterBatches(n)) && LetterBatches(n)[n - 1].done
  {
    LettersPlan(n);
    hide Continues, Letters, LetterBatch, PlanItems;
    var plan, sent := Letters(n), LetterBatches(n);
    forall i | 0 <= i < n
      ensures Link(plan, sent, i) && End(sent[i]) == Cursor(i + 1, 0)
    {
      LetterLink(n, i);
      if i > 0 {
        LetterLink(n, i - 1);
      }
    }
  }

  lemma LettersPlan(n: nat)
    requires n > 0
    ensures PlanItems(Letters(n).items) && !HasConfig(Letters(n).items)
    ensures LetterBatch(n, n - 1).done && forall i :: 0 <= i < n - 1 ==> !LetterBatch(n, i).done
  {
  }

  lemma LetterLink(n: nat, i: nat)
    requires i < n
    ensures End(LetterBatch(n, i)) == Cursor(i + 1, 0)
    ensures Continues(Letters(n), Cursor(i, 0), LetterBatch(n, i))
  {
    var b, items := LetterBatch(n, i), Letters(n).items;
    assert b.chunks[..0] == [];
    assert After(b.start, b.chunks[..0]) == b.start;
    assert items[i] == Letter(i);
    assert ChunkAt(items, b.start, b.chunks[0]);
    assert ChunksFrom(items, b.start, b.chunks[..0]);
  }

  lemma FallsOutOfStepOnce() returns (plan: Plan, run: seq<Exchange>, events: seq<Event>)
    ensures PlanItems(plan.items) && Trace(plan, run, events) && !InStep(run[|run| - 1])
  {
    plan := Letters(3);
    LettersChain(3);
    run, events := LateFirstHappens(plan, LetterBatches(3), Durable({}, {}));
  }

  // An operation held but not projected before the exchange stays so after it
  // has completed.
  lemma StaysUnprojectedOnce() returns (plan: Plan, run: seq<Exchange>, events: seq<Event>)
    ensures PlanItems(plan.items) && Trace(plan, run, events)
    ensures run[|run| - 1].outstanding.None? && !(run[0].durable.held <= run[|run| - 1].durable.projected)
  {
    plan := Letters(1);
    LettersChain(1);
    var op := Item(Operation, "x");
    run, events := CompletesUnprojected(plan, LetterBatches(1), Durable({op}, {}));
    assert op in run[0].durable.held && op !in run[|run| - 1].durable.projected;
  }
}
