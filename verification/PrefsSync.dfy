/** The serial preference-sync loop: a one-place queue that many callers fill by
    separate try-send and try-drain operations, and one consumer. */
module PrefsSync {
  import opened Wrappers

  datatype Request = Request(pull: bool, push: bool)

  function Merge(a: Request, b: Request): Request {
    Request(a.pull || b.pull, a.push || b.push)
  }

  datatype Outcome = Succeeds | Fails(message: string) | Panics(message: string)

  datatype EngineCall = Pull | Push

  // The engine calls one request leads to, in order.
  function CallsOf(req: Request, pull: Outcome): seq<EngineCall> {
    (if req.pull then [Pull] else [])
    + (if req.push && !(req.pull && pull.Panics?) then [Push] else [])
  }

  function ErrorOf(o: Outcome): Option<string> {
    if o.Succeeds? then None else Some(o.message)
  }

  // The status after one request: its last engine call decides.
  function ErrorAfter(before: Option<string>, req: Request, pull: Outcome, push: Outcome): Option<string> {
    var calls := CallsOf(req, pull);
    if calls == [] then before
    else if calls[|calls| - 1] == Pull then ErrorOf(pull) else ErrorOf(push)
  }

  // A pull exactly when asked for, a push exactly when asked for unless a pull of
  // this request panicked, each once, the pull first; and the outcome of the last
  // one is the status.
  lemma CallsExactly(req: Request, pull: Outcome, push: Outcome, before: Option<string>)
    ensures var calls := CallsOf(req, pull);
      && (Pull in calls <==> req.pull) && (Push in calls <==> req.push && !(req.pull && pull.Panics?))
      && (forall i, j :: 0 <= i < j < |calls| ==> calls[i] == Pull && calls[j] == Push)
    ensures ErrorAfter(before, req, pull, push)
      == if req.push && !(req.pull && pull.Panics?) then (if push.Succeeds? then None else Some(push.message))
         else if req.pull then (if pull.Succeeds? then None else Some(pull.message))
         else before
  {
  }

  class SyncLoop {
    var slot: Option<Request>
    var busy: bool
    var lastError: Option<string>
    var calls: seq<EngineCall>

    constructor ()
      ensures slot == None && !busy && lastError == None && calls == []
    {
      slot, busy, lastError, calls := None, false, None, [];
    }

    method TrySend(req: Request) returns (sent: bool)
      modifies this`slot
      ensures sent <==> old(slot).None?
      ensures slot == if sent then Some(req) else old(slot)
    {
      sent := slot == None;
      if sent {
        slot := Some(req);
      }
    }

    method TryDrain() returns (pending: Option<Request>)
      modifies this`slot
      ensures pending == old(slot) && slot == None
    {
      pending := slot;
      slot := None;
    }

    // With nobody interfering, enqueueing never blocks and merges in place.
    method EnqueueSync(req: Request)
      modifies this`slot
      ensures slot == Some(if old(slot).None? then req else Merge(req, old(slot).value))
    {
      var merged := req;
      var sent := TrySend(merged);
      while !sent
        invariant if sent then slot == Some(if old(slot).None? then req else Merge(req, old(slot).value))
                  else if slot.None? then old(slot).Some? && merged == Merge(req, old(slot).value)
                  else slot == old(slot) && merged == req
        decreases !sent, slot.Some?
      {
        var pending := TryDrain();
        if pending.Some? {
          merged := Merge(merged, pending.value);
        }
        sent := TrySend(merged);
      }
    }

    method RecordOutcome(o: Outcome)
      modifies this`lastError
      ensures lastError == ErrorOf(o)
    {
      lastError := if o.Succeeds? then None else Some(o.message);
    }

    // Failures and panics of the engine are contained here.
    method RunSyncRequest(req: Request, pull: Outcome, push: Outcome)
      modifies this`lastError, this`calls
      ensures calls == old(calls) + CallsOf(req, pull)
      ensures calls == old(calls) + match (req.pull, req.push && !(req.pull && pull.Panics?))
                                    case (true, true) => [Pull, Push]
                                    case (true, false) => [Pull]
                                    case (false, true) => [Push]
                                    case (false, false) => []
      ensures lastError == ErrorAfter(old(lastError), req, pull, push)
    {
      if req.pull {
        calls := calls + [Pull];
        RecordOutcome(pull);
        if pull.Panics? {
          return;
        }
      }
      if req.push {
        calls := calls + [Push];
        RecordOutcome(push);
      }
    }

    // One turn of the consumer.
    method ServeOne(pull: Outcome, push: Outcome) returns (served: Option<Request>)
      requires !busy
      modifies this
      ensures served == old(slot) && slot == None && !busy
      ensures served.Some? ==> calls == old(calls) + CallsOf(served.value, pull)
      ensures served.Some? ==> lastError == ErrorAfter(old(lastError), served.value, pull, push)
      ensures served.None? ==> calls == old(calls) && lastError == old(lastError)
    {
      served := TryDrain();
      if served.Some? {
        busy := true;
        RunSyncRequest(served.value, pull, push);
        busy := false;
      }
    }
  }
}

/** All interleavings of any number of enqueueing callers with the consumer.
    Each call to enqueueSync is a token; an edit is a call made by
    markPrefDirtyAndPush, after it has marked its key. */
module PrefsSyncRuns {
  import opened Wrappers
  import opened PrefsSync

  type Call = nat

  datatype Phase = AtSend | AtDrain

  datatype Caller = Caller(req: Request, phase: Phase)

  datatype Consumer = Idle | Pulling(req: Request) | Pushing(req: Request) | Busy | Stopped

  // Where a call's request is now. `Dropped`: taken by the consumer, but a
  // panicking pull ended the request before its push.
  datatype Place = Hand(caller: Call) | Slot | Loop | Served | Dropped

  // `asked` and `place` are the history of every call; `pulled` and `pushed`
  // the calls made before some pull, or some push, started.
  datatype Sys = Sys(
    slot: Option<Request>, callers: map<Call, Caller>, consumer: Consumer,
    asked: map<Call, Request>, edits: set<Call>, place: map<Call, Place>, pulled: set<Call>, pushed: set<Call>)

  const EMPTY := Sys(None, map[], Idle, map[], {}, map[], {}, {})

  // `TaskPull` and `TaskPush` are the engine calls of the post-login task.
  datatype Event =
    | Enqueue(call: Call, req: Request)
    | MarkDirty(call: Call)
    | TrySend(call: Call)
    | TryDrain(call: Call)
    | Take
    | RunPull(panics: bool)
    | RunPush
    | TaskStart
    | TaskPull
    | TaskPush
    | TaskEnd
    | Stop

  predicate Enabled(s: Sys, e: Event) {
    match e
    case Enqueue(call, _) => call !in s.asked
    case MarkDirty(call) => call !in s.asked
    case TrySend(call) => call in s.callers && s.callers[call].phase == AtSend
    case TryDrain(call) => call in s.callers && s.callers[call].phase == AtDrain
    case Take => s.consumer.Idle? && s.slot.Some?
    case RunPull(panics) => s.consumer.Pulling? && (panics ==> s.consumer.req.pull)
    case RunPush => s.consumer.Pushing?
    case TaskStart => s.consumer.Idle?
    case TaskPull => s.consumer.Busy?
    case TaskPush => s.consumer.Busy?
    case TaskEnd => s.consumer.Busy?
    case Stop => s.consumer.Idle?
  }

  // Every call at `from` goes to `to`.
  function Carry(place: map<Call, Place>, from: Place, to: Place): map<Call, Place> {
    map c | c in place :: if place[c] == from then to else place[c]
  }

  function Arrive(s: Sys, call: Call, req: Request): Sys {
    s.(callers := s.callers[call := Caller(req, AtSend)], asked := s.asked[call := req], place := s.place[call := Hand(call)])
  }

  function Next(s: Sys, e: Event): Sys
    requires Enabled(s, e)
  {
    match e
    case Enqueue(call, req) => Arrive(s, call, req)
    case MarkDirty(call) => Arrive(s, call, Request(false, true)).(edits := s.edits + {call})
    case TrySend(call) =>
      if s.slot.None?
      then s.(slot := Some(s.callers[call].req), callers := s.callers - {call}, place := Carry(s.place, Hand(call), Slot))
      else s.(callers := s.callers[call := s.callers[call].(phase := AtDrain)])
    case TryDrain(call) =>
      var req := if s.slot.None? then s.callers[call].req else Merge(s.callers[call].req, s.slot.value);
      s.(slot := None, callers := s.callers[call := Caller(req, AtSend)], place := Carry(s.place, Slot, Hand(call)))
    case Take => s.(slot := None, consumer := Pulling(s.slot.value), place := Carry(s.place, Slot, Loop))
    case RunPull(panics) =>
      var s1 := if s.consumer.req.pull then s.(pulled := s.asked.Keys) else s;
      if panics then s1.(consumer := Idle, place := Carry(s.place, Loop, Dropped)) else s1.(consumer := Pushing(s.consumer.req))
    case RunPush =>
      var s1 := if s.consumer.req.push then s.(pushed := s.asked.Keys) else s;
      s1.(consumer := Idle, place := Carry(s.place, Loop, Served))
    case TaskStart => s.(consumer := Busy)
    case TaskPull => s.(pulled := s.asked.Keys)
    case TaskPush => s.(pushed := s.asked.Keys)
    case TaskEnd => s.(consumer := Idle)
    case Stop => s.(consumer := Stopped)
  }

  // The request standing at a place, if any.
  function RequestAt(s: Sys, p: Place): Option<Request> {
    match p
    case Hand(c) => if c in s.callers then Some(s.callers[c].req) else None
    case Slot => s.slot
    case Loop => if s.consumer.Pulling? || s.consumer.Pushing? then Some(s.consumer.req) else None
    case _ => None
  }

  function At(place: map<Call, Place>, p: Place): set<Call> {
    set c | c in place && place[c] == p
  }

  predicate Waiting(p: Place) {
    p.Hand? || p.Slot? || p.Loop?
  }

  // A coalesced request asks for exactly what the calls it stands for asked
  // for, and no call waits at a place without a request.
  ghost predicate Coalesced(asked: map<Call, Request>, calls: set<Call>, req: Option<Request>) {
    if req.None? then calls == {}
    else
      && (req.value.pull <==> exists c :: c in calls && c in asked && asked[c].pull)
      && (req.value.push <==> exists c :: c in calls && c in asked && asked[c].push)
  }

  // A finished call got what it asked for; a dropped one got its pull.
  predicate Answered(asked: Request, place: Place, pushing: bool, pulled: bool, pushed: bool) {
    && (place.Served? ==> (asked.pull ==> pulled) && (asked.push ==> pushed))
    && (place.Dropped? || (place.Loop? && pushing) ==> (asked.pull ==> pulled))
  }

  ghost predicate AllCoalesced(s: Sys) {
    forall p: Place :: Waiting(p) ==> Coalesced(s.asked, At(s.place, p), RequestAt(s, p))
  }

  ghost predicate AllAnswered(s: Sys) {
    forall c :: c in s.place ==>
      c in s.asked && Answered(s.asked[c], s.place[c], s.consumer.Pushing?, c in s.pulled, c in s.pushed)
  }

  ghost predicate Inv(s: Sys) {
    && s.place.Keys == s.asked.Keys && s.callers.Keys <= s.asked.Keys
    && s.edits <= s.asked.Keys && s.pulled <= s.asked.Keys && s.pushed <= s.asked.Keys
    && (forall c :: c in s.edits ==> s.asked[c] == Request(false, true))
    && AllCoalesced(s) && AllAnswered(s)
  }

  lemma AtCarry(place: map<Call, Place>, from: Place, to: Place, p: Place)
    requires from != to
    ensures At(Carry(place, from, to), p)
         == (if p == from then {} else if p == to then At(place, p) + At(place, from) else At(place, p))
  {
  }

  lemma CoalescedJoin(asked: map<Call, Request>, a: set<Call>, b: set<Call>, r: Option<Request>, q: Request)
    requires Coalesced(asked, a, r) && Coalesced(asked, b, Some(q))
    ensures Coalesced(asked, a + b, Some(if r.None? then q else Merge(r.value, q)))
  {
  }

  // A step that carries the calls at `from` to `to`, and merges their requests
  // when `to` is a waiting place.
  lemma CarryKeeps(s: Sys, s': Sys, from: Place, to: Place)
    requires AllCoalesced(s) && from != to && Waiting(from) && s'.place == Carry(s.place, from, to) && s'.asked == s.asked
    requires RequestAt(s, from).Some? && RequestAt(s', from).None?
    requires forall p: Place :: Waiting(p) && p != from && p != to ==> RequestAt(s', p) == RequestAt(s, p)
    requires Waiting(to) ==> RequestAt(s', to) == Some(if RequestAt(s, to).None? then RequestAt(s, from).value
                                                       else Merge(RequestAt(s, to).value, RequestAt(s, from).value))
    ensures AllCoalesced(s')
  {
    forall p: Place | Waiting(p)
      ensures Coalesced(s'.asked, At(s'.place, p), RequestAt(s', p))
    {
      AtCarry(s.place, from, to, p);
      assert Coalesced(s.asked, At(s.place, p), RequestAt(s, p));
      assert Coalesced(s.asked, At(s.place, from), RequestAt(s, from));
      if p == to {
        CoalescedJoin(s.asked, At(s.place, p), At(s.place, from), RequestAt(s, p), RequestAt(s, from).value);
      }
    }
  }

  lemma StayKeeps(s: Sys, s': Sys)
    requires AllCoalesced(s) && s'.place == s.place && s'.asked == s.asked
    requires forall p: Place :: Waiting(p) ==> RequestAt(s', p) == RequestAt(s, p)
    ensures AllCoalesced(s')
  {
  }

  lemma ArriveKeeps(s: Sys, call: Call, req: Request)
    requires Inv(s) && call !in s.asked
    ensures AllCoalesced(Arrive(s, call, req))
  {
    var s' := Arrive(s, call, req);
    forall p: Place | Waiting(p)
      ensures Coalesced(s'.asked, At(s'.place, p), RequestAt(s', p))
    {
      assert Coalesced(s.asked, At(s.place, p), RequestAt(s, p));
      assert At(s'.place, p) == At(s.place, p) + if p == Hand(call) then {call} else {};
      if p == Hand(call) {
        assert At(s.place, p) == {};
      }
    }
  }

  lemma StepKeepsCoalesced(s: Sys, e: Event)
    requires Inv(s) && Enabled(s, e)
    ensures AllCoalesced(Next(s, e))
  {
    var s' := Next(s, e);
    match e
    case Enqueue(call, req) => ArriveKeeps(s, call, req);
    case MarkDirty(call) =>
      ArriveKeeps(s, call, Request(false, true));
      StayKeeps(Arrive(s, call, Request(false, true)), s');
    case TrySend(call) =>
      if s.slot.None? {
        CarryKeeps(s, s', Hand(call), Slot);
      } else {
        StayKeeps(s, s');
      }
    case TryDrain(call) =>
      if s.slot.Some? {
        CarryKeeps(s, s', Slot, Hand(call));
      } else {
        assert Coalesced(s.asked, At(s.place, Slot), RequestAt(s, Slot));
        assert forall c :: c in s.place && s.place[c] == Slot ==> c in At(s.place, Slot);
        assert s'.place == s.place;
        StayKeeps(s, s');
      }
    case Take =>
      CarryKeeps(s, s', Slot, Loop);
    case RunPull(panics) =>
      if panics {
        CarryKeeps(s, s', Loop, Dropped);
      } else {
        StayKeeps(s, s');
      }
    case RunPush => CarryKeeps(s, s', Loop, Served);
    case _ => StayKeeps(s, s');
  }

  lemma StepKeepsAnswered(s: Sys, e: Event)
    requires Inv(s) && Enabled(s, e)
    ensures AllAnswered(Next(s, e))
  {
    var s' := Next(s, e);
    assert Coalesced(s.asked, At(s.place, Loop), RequestAt(s, Loop));
    assert forall c :: c in s.place && s.place[c] == Loop ==> c in At(s.place, Loop);
    forall c | c in s'.place
      ensures c in s'.asked && Answered(s'.asked[c], s'.place[c], s'.consumer.Pushing?, c in s'.pulled, c in s'.pushed)
    {
      if c in s.place {
        assert Answered(s.asked[c], s.place[c], s.consumer.Pushing?, c in s.pulled, c in s.pushed);
      }
    }
  }

  lemma StepKeeps(s: Sys, e: Event)
    requires Inv(s) && Enabled(s, e)
    ensures Inv(Next(s, e))
  {
    hide AllCoalesced, AllAnswered;
    StepKeepsCoalesced(s, e);
    StepKeepsAnswered(s, e);
  }

  // The state after a list of events, if each was enabled in turn.
  function Run(events: seq<Event>): Option<Sys> {
    if events == [] then Some(EMPTY)
    else
      var last, before := events[|events| - 1], Run(events[..|events| - 1]);
      if before.Some? && Enabled(before.value, last) then Some(Next(before.value, last)) else None
  }

  lemma {:induction false} RunKeeps(events: seq<Event>, s: Sys)
    requires Run(events) == Some(s)
    ensures Inv(s)
  {
    if events != [] {
      var last, before := events[|events| - 1], Run(events[..|events| - 1]).value;
      RunKeeps(events[..|events| - 1], before);
      StepKeeps(before, last);
    }
  }

  // ---------- One turn of the loop is a sequence of steps ----------

  // The engine calls that a step starts.
  function Started(s: Sys, e: Event): seq<EngineCall>
    requires Enabled(s, e)
  {
    match e
    case RunPull(_) => if s.consumer.req.pull then [Pull] else []
    case RunPush => if s.consumer.req.push then [Push] else []
    case TaskPull => [Pull]
    case TaskPush => [Push]
    case _ => []
  }

  function StartedBy(events: seq<Event>): seq<EngineCall>
    requires Run(events).Some?
  {
    if events == [] then []
    else
      var last := |events| - 1;
      StartedBy(events[..last]) + Started(Run(events[..last]).value, events[last])
  }

  // Taking a request, and serving it as a pull of that outcome does.
  function Turn(req: Request, pull: Outcome): seq<Event> {
    if req.pull && pull.Panics? then [Take, RunPull(true)] else [Take, RunPull(false), RunPush]
  }

  lemma StepOn(events: seq<Event>, e: Event)
    requires Run(events).Some? && Enabled(Run(events).value, e)
    ensures Run(events + [e]) == Some(Next(Run(events).value, e))
    ensures StartedBy(events + [e]) == StartedBy(events) + Started(Run(events).value, e)
  {
    assert (events + [e])[..|events|] == events;
  }

  // One turn of the consumer, with whatever it finds in the slot, is such a
  // sequence of steps: it starts the same engine calls and leaves the slot empty
  // and the consumer idle.
  lemma ServeIsTurn(events: seq<Event>, s: Sys, pull: Outcome)
    requires Run(events) == Some(s) && s.consumer.Idle? && s.slot.Some?
    ensures var all := events + Turn(s.slot.value, pull);
      && Run(all).Some? && Run(all).value.slot.None? && Run(all).value.consumer.Idle?
      && StartedBy(all) == StartedBy(events) + CallsOf(s.slot.value, pull)
  {
    hide Run, StartedBy, Next, Enabled;
    var req := s.slot.value;
    TakeAndPull(events, s, req.pull && pull.Panics?);
    if req.pull && pull.Panics? {
      assert events + Turn(req, pull) == events + [Take] + [RunPull(true)];
    } else {
      PushAndEnd(events + [Take] + [RunPull(false)]);
      assert events + Turn(req, pull) == events + [Take] + [RunPull(false)] + [RunPush];
    }
  }

  lemma PushAndEnd(events: seq<Event>)
    requires Run(events).Some? && Run(events).value.consumer.Pushing?
    ensures var all := events + [RunPush];
      && Run(all).Some? && Run(all).value.slot == Run(events).value.slot && Run(all).value.consumer.Idle?
      && StartedBy(all) == StartedBy(events) + if Run(events).value.consumer.req.push then [Push] else []
  {
    StepOn(events, RunPush);
    hide Run, StartedBy;
  }

  lemma TakeAndPull(events: seq<Event>, s: Sys, panics: bool)
    requires Run(events) == Some(s) && s.consumer.Idle? && s.slot.Some? && (panics ==> s.slot.value.pull)
    ensures var all := events + [Take] + [RunPull(panics)];
      && Run(all).Some? && Run(all).value.slot.None?
      && Run(all).value.consumer == (if panics then Idle else Pushing(s.slot.value))
      && StartedBy(all) == StartedBy(events) + if s.slot.value.pull then [Pull] else []
  {
    StepOn(events, Take);
    StepOn(events + [Take], RunPull(panics));
    hide Run, StartedBy;
  }

  // What an undisturbed caller does to the slot, likewise.
  function Enqueueing(s: Sys, c: Call, req: Request): seq<Event> {
    if s.slot.None? then [Enqueue(c, req), TrySend(c)] else [Enqueue(c, req), TrySend(c), TryDrain(c), TrySend(c)]
  }

  lemma EnqueueIsSteps(events: seq<Event>, s: Sys, c: Call, req: Request)
    requires Run(events) == Some(s) && c !in s.asked
    ensures var all := events + Enqueueing(s, c, req);
      && Run(all).Some? && c !in Run(all).value.callers && Run(all).value.consumer == s.consumer
      && Run(all).value.slot == Some(if s.slot.None? then req else Merge(req, s.slot.value))
  {
    var arrived := events + [Enqueue(c, req)];
    var tried := arrived + [TrySend(c)];
    StepOn(events, Enqueue(c, req));
    StepOn(arrived, TrySend(c));
    if s.slot.None? {
      assert events + Enqueueing(s, c, req) == tried;
    } else {
      var drained := tried + [TryDrain(c)];
      StepOn(tried, TryDrain(c));
      StepOn(drained, TrySend(c));
      assert events + Enqueueing(s, c, req) == drained + [TrySend(c)];
    }
  }

  // Nothing is queued, in hand or being served.
  predicate Quiescent(s: Sys) {
    s.callers == map[] && s.slot.None? && (s.consumer.Idle? || s.consumer.Stopped?)
  }

  // Once a caller has left enqueueSync its request is merged into the slot or
  // into the hand of another caller, or the consumer has it.
  lemma RequestsAreHeld(events: seq<Event>, s: Sys, c: Call)
    requires Run(events) == Some(s) && c in s.asked
    ensures c in s.place
    ensures Waiting(s.place[c]) ==>
      var held := RequestAt(s, s.place[c]);
      held.Some? && (s.asked[c].pull ==> held.value.pull) && (s.asked[c].push ==> held.value.push)
    ensures s.place[c].Served? ==> (s.asked[c].pull ==> c in s.pulled) && (s.asked[c].push ==> c in s.pushed)
  {
    RunKeeps(events, s);
    var p := s.place[c];
    if Waiting(p) {
      assert c in At(s.place, p);
      assert Coalesced(s.asked, At(s.place, p), RequestAt(s, p));
    }
    assert Answered(s.asked[c], s.place[c], s.consumer.Pushing?, c in s.pulled, c in s.pushed);
  }

  // No edit is lost by coalescing: at quiescence every marked edit was
  // followed by a push that started after its mark, unless a pull in the same
  // coalesced request panicked.
  lemma NoEditIsLost(events: seq<Event>, s: Sys, c: Call)
    requires Run(events) == Some(s) && Quiescent(s) && c in s.edits
    ensures c in s.pushed || (c in s.place && s.place[c].Dropped?)
  {
    RunKeeps(events, s);
    RequestsAreHeld(events, s, c);
  }

  // Coalescing invents nothing: a queued request asks only for what one of the
  // calls it stands for asked for.
  lemma NothingIsInvented(events: seq<Event>, s: Sys, p: Place)
    requires Run(events) == Some(s) && Waiting(p) && RequestAt(s, p).Some?
    ensures RequestAt(s, p).value.pull ==> exists c :: c in s.asked && c in s.place && s.place[c] == p && s.asked[c].pull
    ensures RequestAt(s, p).value.push ==> exists c :: c in s.asked && c in s.place && s.place[c] == p && s.asked[c].push
  {
    RunKeeps(events, s);
    assert Coalesced(s.asked, At(s.place, p), RequestAt(s, p));
  }

  // A step drops a call exactly when it is a panicking pull and the call is
  // part of the request being served; some call of that request asked for the
  // pull.
  lemma DropsExactly(events: seq<Event>, s: Sys, e: Event, c: Call)
    requires Run(events) == Some(s) && Enabled(s, e) && c in s.place && !s.place[c].Dropped?
    ensures Next(s, e).place[c].Dropped? <==> e == RunPull(true) && s.place[c].Loop?
    ensures Next(s, e).place[c].Dropped? ==> exists d :: d in s.asked && d in s.place && s.place[d].Loop? && s.asked[d].pull
  {
    RunKeeps(events, s);
    if e == RunPull(true) && s.place[c].Loop? {
      NothingIsInvented(events, s, Loop);
    }
  }

  // Whether the event at `j` starts a push.
  predicate StartsPush(events: seq<Event>, j: nat)
    requires j < |events|
  {
    var before := Run(events[..j]);
    before.Some? && (events[j] == TaskPush || (events[j] == RunPush && before.value.consumer.Pushing? && before.value.consumer.req.push))
  }

  // Whether the event at `j` is a panicking pull of a request that stands for `c`.
  predicate PanicsOver(events: seq<Event>, j: nat, c: Call)
    requires j < |events|
  {
    var before := Run(events[..j]);
    before.Some? && events[j] == RunPull(true) && c in before.value.place && before.value.place[c].Loop?
  }

  lemma RunLast(events: seq<Event>, s: Sys) returns (before: Sys)
    requires Run(events) == Some(s) && events != []
    ensures var last := events[|events| - 1];
      Run(events[..|events| - 1]) == Some(before) && Enabled(before, last) && s == Next(before, last)
  {
    before := Run(events[..|events| - 1]).value;
  }

  lemma {:induction false} AskedStays(events: seq<Event>, s: Sys, c: Call, m: nat)
    requires Run(events) == Some(s) && m < |events| && events[m] == MarkDirty(c)
    ensures c in s.asked
  {
    var before := RunLast(events, s);
    if m < |events| - 1 {
      AskedStays(events[..|events| - 1], before, c, m);
    }
  }

  lemma {:induction false} PushedExactly(events: seq<Event>, s: Sys, c: Call, m: nat)
    requires Run(events) == Some(s) && m < |events| && events[m] == MarkDirty(c)
    ensures c in s.pushed <==> exists j :: m < j < |events| && StartsPush(events, j)
  {
    var n := |events| - 1;
    var before := RunLast(events, s);
    RunKeeps(events[..n], before);
    if m < n {
      PushedExactly(events[..n], before, c, m);
      AskedStays(events[..n], before, c, m);
      forall j | m < j < n
        ensures StartsPush(events, j) == StartsPush(events[..n], j)
      {
        assert events[..n][..j] == events[..j];
      }
      hide Inv, Run;
      if StartsPush(events, n) {
      } else if c in s.pushed {
        var j :| m < j < n && StartsPush(events[..n], j);
        assert StartsPush(events, j);
      } else {
        forall j | m < j < |events|
          ensures !StartsPush(events, j)
        {
          assert j < n ==> StartsPush(events, j) == StartsPush(events[..n], j);
        }
      }
    }
  }

  // Over a whole run: a call is dropped exactly when a pull of its request
  // panicked.
  lemma {:induction false} DroppedExactly(events: seq<Event>, s: Sys, c: Call)
    requires Run(events) == Some(s)
    ensures c in s.place && s.place[c].Dropped? <==> exists j :: 0 <= j < |events| && PanicsOver(events, j, c)
  {
    if events != [] {
      var n := |events| - 1;
      var before := RunLast(events, s);
      RunKeeps(events[..n], before);
      DroppedExactly(events[..n], before, c);
      PanicsBefore(events, n, c);
      hide Inv, Run;
      if j :| 0 <= j < |events| && PanicsOver(events, j, c) {
        assert j < n ==> PanicsOver(events[..n], j, c);
      } else {
        assert !PanicsOver(events, n, c);
        assert forall j :: 0 <= j < n ==> !PanicsOver(events[..n], j, c);
      }
    }
  }

  lemma PanicsBefore(events: seq<Event>, n: nat, c: Call)
    requires n <= |events|
    ensures forall j :: 0 <= j < n ==> (PanicsOver(events[..n], j, c) <==> PanicsOver(events, j, c))
  {
    forall j | 0 <= j < n
      ensures PanicsOver(events[..n], j, c) <==> PanicsOver(events, j, c)
    {
      assert events[..n][..j] == events[..j];
    }
  }

  // At quiescence a call's own request served it exactly when no pull of that
  // request panicked; an edit served like that has been pushed.
  lemma ServedExactly(events: seq<Event>, s: Sys, c: Call)
    requires Run(events) == Some(s) && Quiescent(s) && c in s.asked
    ensures c in s.place && (s.place[c].Served? <==> !exists j :: 0 <= j < |events| && PanicsOver(events, j, c))
    ensures s.place[c].Served? && s.asked[c].push ==> c in s.pushed
    ensures s.place[c].Served? && s.asked[c].pull ==> c in s.pulled
  {
    RequestsAreHeld(events, s, c);
    DroppedExactly(events, s, c);
  }

  // Over a whole run: an edit ends unpushed exactly when no push starts after
  // its mark, and at quiescence that happens only if a pull panics over it.
  lemma UnpushedExactly(events: seq<Event>, s: Sys, c: Call, m: nat)
    requires Run(events) == Some(s) && Quiescent(s) && m < |events| && events[m] == MarkDirty(c)
    ensures c in s.pushed <==> exists j :: m < j < |events| && StartsPush(events, j)
    ensures (forall j :: m < j < |events| ==> !StartsPush(events, j)) ==> exists j :: 0 <= j < |events| && PanicsOver(events, j, c)
  {
    PushedExactly(events, s, c, m);
    if c !in s.pushed {
      EditStays(events, s, c, m);
      NoEditIsLost(events, s, c);
      DroppedExactly(events, s, c);
    }
  }

  lemma {:induction false} EditStays(events: seq<Event>, s: Sys, c: Call, m: nat)
    requires Run(events) == Some(s) && m < |events| && events[m] == MarkDirty(c)
    ensures c in s.edits
  {
    var before := RunLast(events, s);
    if m < |events| - 1 {
      EditStays(events[..|events| - 1], before, c, m);
    }
  }

  // The exception is real: edit 1 is coalesced with the pull of call 0, the
  // pull panics, and nothing is left to push the edit. (Its key stays dirty, so
  // a push asked for later would still carry it.)
  lemma EditLostToPanickingPull()
    ensures exists events, s :: Run(events) == Some(s) && Quiescent(s) && 1 in s.edits && 1 !in s.pushed
  {
    var events, s := Extend([], EMPTY, Enqueue(0, Request(true, false)));
    events, s := Extend(events, s, TrySend(0));
    events, s := Extend(events, s, MarkDirty(1));
    events, s := Extend(events, s, TrySend(1));
    events, s := Extend(events, s, TryDrain(1));
    events, s := Extend(events, s, TrySend(1));
    events, s := Extend(events, s, Take);
    events, s := Extend(events, s, RunPull(true));
    assert Quiescent(s) && 1 in s.edits && 1 !in s.pushed;
  }

  lemma Extend(events: seq<Event>, s: Sys, e: Event) returns (events': seq<Event>, s': Sys)
    requires Run(events) == Some(s) && Enabled(s, e)
    ensures Run(events') == Some(s') && s' == Next(s, e)
  {
    events', s' := events + [e], Next(s, e);
    assert events'[..|events|] == events;
  }
}
