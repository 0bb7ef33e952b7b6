/** All interleavings of start, claim, close and release, for any number of
    attempts, keys and goroutines. A step is one critical section. */
module LeaseRuns {
  import opened Wrappers
  import opened RouteLease
  import opened HostAttempt

  type Tid = nat

  // Where a goroutine stands between two sections.
  datatype Thread =
    | Starting(a: Id, channel: Channel, key: Key)
    | Looked(a: Id, channel: Channel, key: Key, expected: Option<Id>)
    | Subscribed(a: Id, channel: Channel, key: Key, expected: Option<Id>, sub: Sub)
    | Attached(a: Id, previous: Option<Id>)
    | Dropping(a: Id, sub: Sub)
    | Leaving(a: Id)
    | Removing(a: Id)
    | Closing(a: Id)
    | Releasing(a: Id, lease: Option<Key>, spoil: Option<Sub>)
    | Unsubscribing(sub: Sub)

  // Who answers for a subscription.
  datatype Home = InHand(t: Tid) | Owned(a: Id) | Unsubscribed

  // `registered` is the host's attempts table; `unsubs` counts Unsubscribe
  // calls and `channels` the channels ever attached.
  datatype Sys = Sys(
    attempts: map<Id, Attempt>, registered: set<Id>, leases: Leases, threads: map<Tid, Thread>,
    home: map<Sub, Home>, unsubs: map<Sub, nat>, channels: map<Id, nat>)

  // `ok` decides an outcome the model leaves open: authorization of a start,
  // or whether a new subscription `sub` is live.
  datatype Event =
    | Register(a: Id)
    | SpawnStart(t: Tid, a: Id, channel: Channel, key: Key)
    | SpawnRemove(t: Tid, a: Id)
    | Advance(t: Tid, ok: bool, sub: Sub)

  const EMPTY := Sys(map[], {}, map[], map[], map[], map[], map[])

  predicate Enabled(s: Sys, e: Event) {
    match e
    case Register(a) => a !in s.attempts
    case SpawnStart(t, a, _, _) => t !in s.threads && a in s.attempts && MayStart(s.attempts[a])
    case SpawnRemove(t, a) => t !in s.threads && a in s.attempts
    case Advance(t, _, sub) => t in s.threads && (s.threads[t].Looked? ==> sub !in s.home)
  }

  // Goroutine `t` moves to `next`, or ends.
  function Move(s: Sys, t: Tid, next: Option<Thread>): Sys {
    s.(threads := if next.Some? then s.threads[t := next.value] else s.threads - {t})
  }

  function SetStarting(s: Sys, a: Id, starting: bool): Sys
    requires a in s.attempts
  {
    s.(attempts := s.attempts[a := s.attempts[a].(starting := starting)])
  }

  function Acquire(s: Sys, t: Tid, a: Id, channel: Channel, key: Key, expected: Option<Id>, sub: Sub): Sys {
    Move(s.(home := s.home[sub := InHand(t)]), t, Some(Subscribed(a, channel, key, expected, sub)))
  }

  // `sub` is unsubscribed by goroutine `t`, which then moves on.
  function Unsubscribe(s: Sys, t: Tid, sub: Sub, next: Option<Thread>): Sys {
    Move(s.(home := s.home[sub := Unsubscribed],
            unsubs := s.unsubs[sub := (if sub in s.unsubs then s.unsubs[sub] else 0) + 1]), t, next)
  }

  function Attach(s: Sys, t: Tid, a: Id, channel: Channel, key: Key, expected: Option<Id>, sub: Sub): Sys
    requires a in s.attempts && a in s.channels
  {
    var r := AttachTo(s.attempts[a], a, s.leases, key, expected, channel, sub);
    var s1 := s.(attempts := s.attempts[a := r.attempt], leases := r.leases);
    if r.outcome.Took? then
      var previous := if r.outcome.previous == Some(a) then None else r.outcome.previous;
      Move(s1.(home := s.home[sub := Owned(a)], channels := s.channels[a := s.channels[a] + 1]),
           t, Some(Attached(a, previous)))
    else Move(s1, t, Some(Dropping(a, sub)))
  }

  function Close(s: Sys, t: Tid, a: Id): Sys
    requires a in s.attempts
  {
    var taken := Taken(s.attempts[a]);
    if s.attempts[a].closed then Move(s, t, None)
    else Move(s.(attempts := s.attempts[a := Closed(s.attempts[a])],
                 home := if taken.sub.Some? then s.home[taken.sub.value := InHand(t)] else s.home),
              t, Some(Releasing(a, taken.lease, taken.sub)))
  }

  function Remove(s: Sys, t: Tid, a: Id): Sys {
    if a in s.registered then Move(s.(registered := s.registered - {a}), t, Some(Closing(a))) else Move(s, t, None)
  }

  function Release(s: Sys, t: Tid, a: Id, lease: Option<Key>, spoil: Option<Sub>): Sys {
    Move(if lease.Some? then s.(leases := ReleaseLease(s.leases, lease.value, a)) else s, t,
         if spoil.Some? then Some(Unsubscribing(spoil.value)) else None)
  }

  function Register(s: Sys, a: Id): Sys {
    s.(attempts := s.attempts[a := FRESH], registered := s.registered + {a}, channels := s.channels[a := 0])
  }

  function Next(s: Sys, e: Event): Sys
    requires WellFormed(s) && Enabled(s, e)
  {
    match e
    case Register(a) => Register(s, a)
    case SpawnStart(t, a, channel, key) => Move(SetStarting(s, a, true), t, Some(Starting(a, channel, key)))
    case SpawnRemove(t, a) => Move(s, t, Some(Removing(a)))
    case Advance(t, ok, newSub) =>
      match s.threads[t]
      case Starting(a, channel, key) =>
        Move(s, t, Some(if ok then Looked(a, channel, key, Lookup(s.leases, key)) else Leaving(a)))
      case Looked(a, channel, key, expected) =>
        if ok then Acquire(s, t, a, channel, key, expected, newSub) else Move(s, t, Some(Leaving(a)))
      case Subscribed(a, channel, key, expected, sub) => Attach(s, t, a, channel, key, expected, sub)
      case Attached(_, previous) => Move(s, t, if previous.Some? then Some(Removing(previous.value)) else None)
      case Dropping(a, sub) => Unsubscribe(s, t, sub, Some(Leaving(a)))
      case Leaving(a) => Move(SetStarting(s, a, false), t, None)
      case Removing(a) => Remove(s, t, a)
      case Closing(a) => Close(s, t, a)
      case Releasing(a, lease, spoil) => Release(s, t, a, lease, spoil)
      case Unsubscribing(sub) => Unsubscribe(s, t, sub, None)
  }

  // ---------- The invariant ----------

  predicate KnownThread(attempts: map<Id, Attempt>, th: Thread) {
    match th
    case Attached(a, previous) => a in attempts && (previous.Some? ==> previous.value in attempts)
    case Looked(a, _, _, expected) => a in attempts && (expected.Some? ==> expected.value in attempts)
    case Subscribed(a, _, _, expected, _) => a in attempts && (expected.Some? ==> expected.value in attempts)
    case Unsubscribing(_) => true
    case _ => th.a in attempts
  }

  predicate WellFormed(s: Sys) {
    && s.channels.Keys == s.attempts.Keys
    && (forall t :: t in s.threads ==> KnownThread(s.attempts, s.threads[t]))
    && (forall k :: k in s.leases ==> s.leases[k] in s.attempts)
  }

  function SubOf(th: Thread): Option<Sub> {
    match th
    case Subscribed(_, _, _, _, sub) => Some(sub)
    case Dropping(_, sub) => Some(sub)
    case Releasing(_, _, spoil) => spoil
    case Unsubscribing(sub) => Some(sub)
    case _ => None
  }

  // Some goroutine is committed to closing `a`.
  predicate Dooms(th: Thread, a: Id) {
    th == Removing(a) || th == Closing(a) || (th.Attached? && th.previous == Some(a))
  }

  ghost predicate Doomed(threads: map<Tid, Thread>, a: Id) {
    exists t :: t in threads && Dooms(threads[t], a)
  }

  ghost predicate BeingClosed(threads: map<Tid, Thread>, a: Id) {
    exists t :: t in threads && threads[t] == Closing(a)
  }

  // A release of `a`'s lease on `k` is still to come.
  ghost predicate ReleasePending(threads: map<Tid, Thread>, a: Id, k: Key) {
    exists t :: t in threads && threads[t].Releasing? && threads[t].a == a && threads[t].lease == Some(k)
  }

  predicate Holds(a: Attempt, k: Key) {
    !a.closed && a.held && a.key == Some(k)
  }

  // An attempt owns a subscription, a channel and a lease claim together, only
  // while it is open, and only once.
  predicate AttemptOk(a: Attempt, channels: nat) {
    && (a.held <==> a.sub.Some?) && (a.channel.Some? <==> a.sub.Some?)
    && (a.held ==> !a.closed && a.key.Some?)
    && channels <= 1 && (!a.closed && a.sub.None? ==> channels == 0)
  }

  ghost predicate AttemptsOk(attempts: map<Id, Attempt>, channels: map<Id, nat>, registered: set<Id>, threads: map<Tid, Thread>) {
    && (forall a :: a in attempts ==> a in channels && AttemptOk(attempts[a], channels[a]))
    && (forall a :: a in attempts && a !in registered ==> attempts[a].closed || BeingClosed(threads, a))
  }

  ghost predicate LeasesOk(attempts: map<Id, Attempt>, leases: Leases, threads: map<Tid, Thread>) {
    && (forall k :: k in leases ==> leases[k] in attempts
                                    && (Holds(attempts[leases[k]], k) || ReleasePending(threads, leases[k], k)))
    && (forall a :: a in attempts && attempts[a].held && attempts[a].key.Some? ==>
          Lookup(leases, attempts[a].key.value) == Some(a) || Doomed(threads, a))
  }

  // Every release still to come is for an attempt that is already closed.
  ghost predicate ReleasesOk(attempts: map<Id, Attempt>, threads: map<Tid, Thread>) {
    forall t :: t in threads && threads[t].Releasing? ==> threads[t].a in attempts && attempts[threads[t].a].closed
  }

  predicate HomeOk(attempts: map<Id, Attempt>, threads: map<Tid, Thread>, unsubs: map<Sub, nat>, x: Sub, h: Home) {
    && (h.InHand? ==> h.t in threads && SubOf(threads[h.t]) == Some(x))
    && (h.Owned? ==> h.a in attempts && !attempts[h.a].closed && attempts[h.a].sub == Some(x))
    && (if h.Unsubscribed? then x in unsubs && unsubs[x] == 1 else x !in unsubs)
  }

  ghost predicate SubsOk(attempts: map<Id, Attempt>, threads: map<Tid, Thread>, home: map<Sub, Home>, unsubs: map<Sub, nat>) {
    && (forall t :: t in threads && SubOf(threads[t]).Some? ==>
          SubOf(threads[t]).value in home && home[SubOf(threads[t]).value] == InHand(t))
    && (forall a :: a in attempts && attempts[a].sub.Some? ==>
          attempts[a].sub.value in home && home[attempts[a].sub.value] == Owned(a))
    && (forall x :: x in home ==> HomeOk(attempts, threads, unsubs, x, home[x]))
    && unsubs.Keys <= home.Keys
  }

  ghost predicate Inv(s: Sys) {
    && WellFormed(s)
    && AttemptsOk(s.attempts, s.channels, s.registered, s.threads)
    && LeasesOk(s.attempts, s.leases, s.threads) && ReleasesOk(s.attempts, s.threads)
    && SubsOk(s.attempts, s.threads, s.home, s.unsubs)
  }

  // ---------- Moving a goroutine ----------

  function Moved(threads: map<Tid, Thread>, t: Tid, next: Option<Thread>): map<Tid, Thread> {
    if next.Some? then threads[t := next.value] else threads - {t}
  }

  function Held(threads: map<Tid, Thread>, t: Tid): Option<Sub> {
    if t in threads then SubOf(threads[t]) else None
  }

  function HeldBy(next: Option<Thread>): Option<Sub> {
    if next.Some? then SubOf(next.value) else None
  }

  // Moving `t` to `next` abandons none of its duties.
  ghost predicate MayMove(attempts: map<Id, Attempt>, leases: Leases, threads: map<Tid, Thread>, t: Tid, next: Option<Thread>)
  {
    && (next.Some? ==> KnownThread(attempts, next.value))
    && (next.Some? && next.value.Releasing? ==> next.value.a in attempts && attempts[next.value.a].closed)
    && (t in threads ==>
          && (forall a :: Dooms(threads[t], a) && a in attempts && !attempts[a].closed ==>
                (next.Some? && Dooms(next.value, a)) || BeingClosed(threads - {t}, a))
          && (forall a :: threads[t] == Closing(a) && a in attempts ==> attempts[a].closed || next == Some(Closing(a)))
          && (threads[t].Releasing? && threads[t].lease.Some? ==>
                Lookup(leases, threads[t].lease.value) != Some(threads[t].a)))
  }

  lemma AttemptsAfterMove(attempts: map<Id, Attempt>, channels: map<Id, nat>, registered: set<Id>, leases: Leases,
                          threads: map<Tid, Thread>, t: Tid, next: Option<Thread>)
    requires AttemptsOk(attempts, channels, registered, threads) && MayMove(attempts, leases, threads, t, next)
    ensures AttemptsOk(attempts, channels, registered, Moved(threads, t, next))
  {
    forall a | a in attempts && a !in registered && !attempts[a].closed
      ensures BeingClosed(Moved(threads, t, next), a)
    {
      var t0 :| t0 in threads && threads[t0] == Closing(a);
      assert Moved(threads, t, next)[t0] == Closing(a);
    }
  }

  lemma LeasesAfterMove(attempts: map<Id, Attempt>, leases: Leases, threads: map<Tid, Thread>, t: Tid, next: Option<Thread>)
    requires LeasesOk(attempts, leases, threads) && MayMove(attempts, leases, threads, t, next)
    requires forall a :: a in attempts && attempts[a].held ==> !attempts[a].closed
    ensures LeasesOk(attempts, leases, Moved(threads, t, next))
  {
    var moved := Moved(threads, t, next);
    forall a | a in attempts && attempts[a].held && Doomed(threads, a)
      ensures Doomed(moved, a)
    {
      var t0 :| t0 in threads && Dooms(threads[t0], a);
      if t0 != t {
        assert moved[t0] == threads[t0];
      } else if next.Some? && Dooms(next.value, a) {
        assert moved[t] == next.value;
      } else {
        var t1 :| t1 in threads - {t} && (threads - {t})[t1] == Closing(a);
        assert moved[t1] == Closing(a);
      }
    }
    forall k | k in leases && ReleasePending(threads, leases[k], k)
      ensures ReleasePending(moved, leases[k], k)
    {
      var t0 :| t0 in threads && threads[t0].Releasing? && threads[t0].a == leases[k] && threads[t0].lease == Some(k);
      assert moved[t0] == threads[t0];
    }
  }

  lemma SubsAfterMove(attempts: map<Id, Attempt>, threads: map<Tid, Thread>, home: map<Sub, Home>, unsubs: map<Sub, nat>,
                      t: Tid, next: Option<Thread>)
    requires SubsOk(attempts, threads, home, unsubs) && HeldBy(next) == Held(threads, t)
    ensures SubsOk(attempts, Moved(threads, t, next), home, unsubs)
  {
    forall x | x in home
      ensures HomeOk(attempts, Moved(threads, t, next), unsubs, x, home[x])
    {
      assert HomeOk(attempts, threads, unsubs, x, home[x]);
    }
  }

  lemma FormAfterMove(s: Sys, t: Tid, next: Option<Thread>)
    requires WellFormed(s) && ReleasesOk(s.attempts, s.threads) && MayMove(s.attempts, s.leases, s.threads, t, next)
    ensures WellFormed(Move(s, t, next)) && ReleasesOk(s.attempts, Move(s, t, next).threads)
  {
  }

  lemma MoveKeeps(s: Sys, t: Tid, next: Option<Thread>)
    requires Inv(s) && MayMove(s.attempts, s.leases, s.threads, t, next) && HeldBy(next) == Held(s.threads, t)
    ensures Inv(Move(s, t, next))
  {
    FormAfterMove(s, t, next);
    AttemptsAfterMove(s.attempts, s.channels, s.registered, s.leases, s.threads, t, next);
    LeasesAfterMove(s.attempts, s.leases, s.threads, t, next);
    SubsAfterMove(s.attempts, s.threads, s.home, s.unsubs, t, next);
  }

  // ---------- Changing one attempt ----------

  lemma FormAfterChange(s: Sys, a: Id, v: Attempt)
    requires WellFormed(s) && ReleasesOk(s.attempts, s.threads) && a in s.attempts && (s.attempts[a].closed ==> v.closed)
    ensures WellFormed(s.(attempts := s.attempts[a := v])) && ReleasesOk(s.attempts[a := v], s.threads)
  {
    forall t | t in s.threads
      ensures KnownThread(s.attempts[a := v], s.threads[t])
    {
      assert KnownThread(s.attempts, s.threads[t]);
    }
  }

  lemma SetStartingKeeps(s: Sys, a: Id, starting: bool)
    requires Inv(s) && a in s.attempts
    ensures Inv(SetStarting(s, a, starting))
  {
    IdleKeeps(s, a, s.attempts[a].(starting := starting));
  }

  // A change of `a` that touches neither its subscription nor its lease.
  predicate IdleChange(old_: Attempt, v: Attempt) {
    && v.sub == old_.sub && v.channel == old_.channel && v.closed == old_.closed && v.held == old_.held
    && (v.held ==> v.key == old_.key)
  }

  lemma LeasesAfterIdle(attempts: map<Id, Attempt>, leases: Leases, threads: map<Tid, Thread>, a: Id, v: Attempt)
    requires LeasesOk(attempts, leases, threads) && a in attempts && IdleChange(attempts[a], v)
    ensures LeasesOk(attempts[a := v], leases, threads)
  {
  }

  lemma IdleKeeps(s: Sys, a: Id, v: Attempt)
    requires Inv(s) && a in s.attempts && IdleChange(s.attempts[a], v)
    ensures Inv(s.(attempts := s.attempts[a := v]))
  {
    hide LeasesOk;
    FormAfterChange(s, a, v);
    LeasesAfterIdle(s.attempts, s.leases, s.threads, a, v);
    SubsAfterIdle(s.attempts, s.threads, s.home, s.unsubs, a, v);
  }

  lemma SubsAfterIdle(attempts: map<Id, Attempt>, threads: map<Tid, Thread>, home: map<Sub, Home>, unsubs: map<Sub, nat>,
                      a: Id, v: Attempt)
    requires SubsOk(attempts, threads, home, unsubs)
    requires if a in attempts then v.sub == attempts[a].sub && (v.sub.Some? ==> v.closed == attempts[a].closed) else v.sub.None?
    ensures SubsOk(attempts[a := v], threads, home, unsubs)
  {
    forall x | x in home
      ensures HomeOk(attempts[a := v], threads, unsubs, x, home[x])
    {
      assert HomeOk(attempts, threads, unsubs, x, home[x]);
    }
  }

  lemma RegisterKeeps(s: Sys, a: Id)
    requires Inv(s) && a !in s.attempts
    ensures Inv(Register(s, a))
  {
    forall t | t in s.threads
      ensures KnownThread(s.attempts[a := FRESH], s.threads[t])
    {
      assert KnownThread(s.attempts, s.threads[t]);
    }
    SubsAfterIdle(s.attempts, s.threads, s.home, s.unsubs, a, FRESH);
  }

  // ---------- Subscriptions change hands ----------

  lemma SubsAfterAcquire(attempts: map<Id, Attempt>, threads: map<Tid, Thread>, home: map<Sub, Home>, unsubs: map<Sub, nat>,
                         t: Tid, next: Thread, sub: Sub)
    requires SubsOk(attempts, threads, home, unsubs) && Held(threads, t).None? && SubOf(next) == Some(sub) && sub !in home
    ensures SubsOk(attempts, threads[t := next], home[sub := InHand(t)], unsubs)
  {
    forall x | x in home
      ensures HomeOk(attempts, threads[t := next], unsubs, x, home[x])
    {
      assert HomeOk(attempts, threads, unsubs, x, home[x]);
    }
  }

  lemma SubsAfterUnsubscribe(attempts: map<Id, Attempt>, threads: map<Tid, Thread>, home: map<Sub, Home>, unsubs: map<Sub, nat>,
                             t: Tid, next: Option<Thread>, sub: Sub)
    requires SubsOk(attempts, threads, home, unsubs) && Held(threads, t) == Some(sub) && HeldBy(next).None?
    ensures sub !in unsubs
    ensures SubsOk(attempts, Moved(threads, t, next), home[sub := Unsubscribed], unsubs[sub := 1])
  {
    assert HomeOk(attempts, threads, unsubs, sub, home[sub]);
    forall x | x in home && x != sub
      ensures HomeOk(attempts, Moved(threads, t, next), unsubs[sub := 1], x, home[x])
    {
      assert HomeOk(attempts, threads, unsubs, x, home[x]);
    }
  }

  lemma SubsAfterAttach(attempts: map<Id, Attempt>, threads: map<Tid, Thread>, home: map<Sub, Home>, unsubs: map<Sub, nat>,
                        t: Tid, next: Thread, sub: Sub, a: Id, v: Attempt)
    requires SubsOk(attempts, threads, home, unsubs) && Held(threads, t) == Some(sub) && SubOf(next).None?
    requires a in attempts && attempts[a].sub.None? && !v.closed && v.sub == Some(sub)
    ensures SubsOk(attempts[a := v], threads[t := next], home[sub := Owned(a)], unsubs)
  {
    assert HomeOk(attempts, threads, unsubs, sub, home[sub]);
    forall x | x in home && x != sub
      ensures HomeOk(attempts[a := v], threads[t := next], unsubs, x, home[x])
    {
      assert HomeOk(attempts, threads, unsubs, x, home[x]);
    }
  }

  lemma SubsAfterTake(attempts: map<Id, Attempt>, threads: map<Tid, Thread>, home: map<Sub, Home>, unsubs: map<Sub, nat>,
                      t: Tid, next: Thread, sub: Sub, a: Id, v: Attempt)
    requires SubsOk(attempts, threads, home, unsubs) && Held(threads, t).None? && SubOf(next) == Some(sub)
    requires a in attempts && attempts[a].sub == Some(sub) && v.sub.None?
    ensures SubsOk(attempts[a := v], threads[t := next], home[sub := InHand(t)], unsubs)
  {
    assert HomeOk(attempts, threads, unsubs, sub, home[sub]);
    forall x | x in home && x != sub
      ensures HomeOk(attempts[a := v], threads[t := next], unsubs, x, home[x])
    {
      assert HomeOk(attempts, threads, unsubs, x, home[x]);
    }
  }

  lemma AcquireKeeps(s: Sys, t: Tid, a: Id, channel: Channel, key: Key, expected: Option<Id>, sub: Sub)
    requires Inv(s) && t in s.threads && s.threads[t] == Looked(a, channel, key, expected) && sub !in s.home
    ensures Inv(Acquire(s, t, a, channel, key, expected, sub))
  {
    var next := Subscribed(a, channel, key, expected, sub);
    assert KnownThread(s.attempts, s.threads[t]);
    FormAfterMove(s, t, Some(next));
    AttemptsAfterMove(s.attempts, s.channels, s.registered, s.leases, s.threads, t, Some(next));
    LeasesAfterMove(s.attempts, s.leases, s.threads, t, Some(next));
    SubsAfterAcquire(s.attempts, s.threads, s.home, s.unsubs, t, next, sub);
  }

  lemma UnsubscribeKeeps(s: Sys, t: Tid, sub: Sub, next: Option<Thread>)
    requires Inv(s) && t in s.threads && Held(s.threads, t) == Some(sub) && HeldBy(next).None?
    requires MayMove(s.attempts, s.leases, s.threads, t, next)
    ensures Inv(Unsubscribe(s, t, sub, next))
  {
    FormAfterMove(s, t, next);
    AttemptsAfterMove(s.attempts, s.channels, s.registered, s.leases, s.threads, t, next);
    LeasesAfterMove(s.attempts, s.leases, s.threads, t, next);
    SubsAfterUnsubscribe(s.attempts, s.threads, s.home, s.unsubs, t, next, sub);
  }

  // ---------- Leases change hands ----------

  lemma LeasesAfterAttach(attempts: map<Id, Attempt>, leases: Leases, threads: map<Tid, Thread>, t: Tid, a: Id, key: Key,
                          expected: Option<Id>, v: Attempt, previous: Option<Id>)
    requires LeasesOk(attempts, leases, threads) && ReleasesOk(attempts, threads)
    requires t in threads && threads[t].Subscribed?
    requires a in attempts && !attempts[a].closed && !attempts[a].held && Holds(v, key)
    requires var claim := ClaimLease(leases, key, expected, a);
             claim.ok && previous == if claim.previous == Some(a) then None else claim.previous
    ensures LeasesOk(attempts[a := v], leases[key := a], threads[t := Attached(a, previous)])
  {
    var threads' := threads[t := Attached(a, previous)];
    forall k | k in leases && k != key
      ensures leases[k] in attempts && leases[k] != a
      ensures Holds(attempts[leases[k]], k) || ReleasePending(threads', leases[k], k)
    {
      if ReleasePending(threads, leases[k], k) {
        var t0 :| t0 in threads && threads[t0].Releasing? && threads[t0].a == leases[k] && threads[t0].lease == Some(k);
        assert threads'[t0] == threads[t0];
      }
    }
    forall b | b in attempts && b != a && attempts[b].held && attempts[b].key.Some?
      ensures Lookup(leases[key := a], attempts[b].key.value) == Some(b) || Doomed(threads', b)
    {
      if Doomed(threads, b) {
        var t0 :| t0 in threads && Dooms(threads[t0], b);
        assert threads'[t0] == threads[t0];
      } else if attempts[b].key == Some(key) {
        assert Dooms(threads'[t], b);
      }
    }
  }

  lemma LeasesAfterClose(attempts: map<Id, Attempt>, leases: Leases, threads: map<Tid, Thread>, t: Tid, a: Id, next: Thread)
    requires LeasesOk(attempts, leases, threads) && t in threads && threads[t] == Closing(a) && a in attempts
    requires next == Releasing(a, Taken(attempts[a]).lease, Taken(attempts[a]).sub)
    ensures LeasesOk(attempts[a := Closed(attempts[a])], leases, threads[t := next])
  {
    var threads' := threads[t := next];
    forall k | k in leases
      ensures leases[k] in attempts
      ensures (leases[k] != a && Holds(attempts[leases[k]], k)) || ReleasePending(threads', leases[k], k)
    {
      if ReleasePending(threads, leases[k], k) {
        var t0 :| t0 in threads && threads[t0].Releasing? && threads[t0].a == leases[k] && threads[t0].lease == Some(k);
        assert threads'[t0] == threads[t0];
      } else if leases[k] == a {
        assert threads'[t] == next;
      }
    }
    forall b | b in attempts && b != a && Doomed(threads, b)
      ensures Doomed(threads', b)
    {
      var t0 :| t0 in threads && Dooms(threads[t0], b);
      assert threads'[t0] == threads[t0];
    }
  }

  lemma LeasesAfterRelease(attempts: map<Id, Attempt>, leases: Leases, threads: map<Tid, Thread>, a: Id, key: Key)
    requires LeasesOk(attempts, leases, threads) && a in attempts && !attempts[a].held
    ensures LeasesOk(attempts, ReleaseLease(leases, key, a), threads)
  {
  }

  // ---------- The remaining steps ----------

  lemma AttemptsAfterTook(attempts: map<Id, Attempt>, channels: map<Id, nat>, registered: set<Id>, threads: map<Tid, Thread>,
                          a: Id, v: Attempt)
    requires AttemptsOk(attempts, channels, registered, threads) && a in attempts && a in channels
    requires !attempts[a].closed && attempts[a].sub.None? && AttemptOk(v, 1) && v.sub.Some? && !v.closed
    ensures AttemptsOk(attempts[a := v], channels[a := channels[a] + 1], registered, threads)
  {
  }

  lemma TookKeeps(s: Sys, t: Tid, a: Id, v: Attempt, key: Key, expected: Option<Id>, sub: Sub, previous: Option<Id>)
    requires Inv(s) && t in s.threads && s.threads[t].Subscribed? && s.threads[t].sub == sub
    requires a in s.attempts && a in s.channels && !s.attempts[a].closed && s.attempts[a].sub.None? && !s.attempts[a].held
    requires AttemptOk(v, 1) && Holds(v, key) && v.sub == Some(sub)
    requires previous.Some? ==> previous.value in s.attempts
    requires var claim := ClaimLease(s.leases, key, expected, a);
             claim.ok && previous == if claim.previous == Some(a) then None else claim.previous
    ensures Inv(Move(s.(attempts := s.attempts[a := v], leases := s.leases[key := a], home := s.home[sub := Owned(a)],
                        channels := s.channels[a := s.channels[a] + 1]), t, Some(Attached(a, previous))))
  {
    hide AttemptsOk, LeasesOk, SubsOk, ReleasesOk;
    var next := Attached(a, previous);
    var attempts', channels' := s.attempts[a := v], s.channels[a := s.channels[a] + 1];
    LeasesAfterAttach(s.attempts, s.leases, s.threads, t, a, key, expected, v, previous);
    SubsAfterAttach(s.attempts, s.threads, s.home, s.unsubs, t, next, sub, a, v);
    AttemptsAfterTook(s.attempts, s.channels, s.registered, s.threads, a, v);
    AttemptsAfterMove(attempts', channels', s.registered, s.leases, s.threads, t, Some(next));
    FormAfterChange(s, a, v);
    FormAfterMove(s.(attempts := attempts'), t, Some(next));
  }

  lemma AttemptOkIn(s: Sys, a: Id)
    requires Inv(s) && a in s.attempts
    ensures a in s.channels && AttemptOk(s.attempts[a], s.channels[a])
  {
  }

  lemma AttachKeeps(s: Sys, t: Tid, a: Id, channel: Channel, key: Key, expected: Option<Id>, sub: Sub)
    requires Inv(s) && t in s.threads && s.threads[t] == Subscribed(a, channel, key, expected, sub)
    requires a in s.attempts && a in s.channels
    ensures Inv(Attach(s, t, a, channel, key, expected, sub))
  {
    hide AttemptsOk, LeasesOk, SubsOk, ReleasesOk;
    var r := AttachTo(s.attempts[a], a, s.leases, key, expected, channel, sub);
    AttemptOkIn(s, a);
    assert KnownThread(s.attempts, s.threads[t]);
    if r.outcome.Took? {
      TookKeeps(s, t, a, r.attempt, key, expected, sub, if r.outcome.previous == Some(a) then None else r.outcome.previous);
    } else {
      IdleKeeps(s, a, r.attempt);
      MoveKeeps(s.(attempts := s.attempts[a := r.attempt]), t, Some(Dropping(a, sub)));
    }
  }

  lemma CloseKeeps(s: Sys, t: Tid, a: Id)
    requires Inv(s) && t in s.threads && s.threads[t] == Closing(a) && a in s.attempts
    ensures Inv(Close(s, t, a))
  {
    if s.attempts[a].closed {
      MoveKeeps(s, t, None);
    } else {
      var v, taken := Closed(s.attempts[a]), Taken(s.attempts[a]);
      var next := Releasing(a, taken.lease, taken.sub);
      LeasesAfterClose(s.attempts, s.leases, s.threads, t, a, next);
      FormAfterChange(s, a, v);
      FormAfterMove(s.(attempts := s.attempts[a := v]), t, Some(next));
      AttemptsAfterClose(s, t, a, next);
      if taken.sub.Some? {
        SubsAfterTake(s.attempts, s.threads, s.home, s.unsubs, t, next, taken.sub.value, a, v);
      } else {
        SubsAfterIdle(s.attempts, s.threads, s.home, s.unsubs, a, v);
        SubsAfterMove(s.attempts[a := v], s.threads, s.home, s.unsubs, t, Some(next));
      }
    }
  }

  lemma AttemptsAfterClose(s: Sys, t: Tid, a: Id, next: Thread)
    requires AttemptsOk(s.attempts, s.channels, s.registered, s.threads)
    requires t in s.threads && s.threads[t] == Closing(a) && a in s.attempts
    ensures AttemptsOk(s.attempts[a := Closed(s.attempts[a])], s.channels, s.registered, s.threads[t := next])
  {
    forall b | b in s.attempts && b != a && BeingClosed(s.threads, b)
      ensures BeingClosed(s.threads[t := next], b)
    {
      var t0 :| t0 in s.threads && s.threads[t0] == Closing(b);
      assert s.threads[t := next][t0] == Closing(b);
    }
  }

  lemma RemoveKeeps(s: Sys, t: Tid, a: Id)
    requires Inv(s) && t in s.threads && s.threads[t] == Removing(a)
    ensures Inv(Remove(s, t, a))
  {
    assert KnownThread(s.attempts, s.threads[t]);
    if a in s.registered {
      MoveKeeps(s, t, Some(Closing(a)));
      assert s.threads[t := Closing(a)][t] == Closing(a);
    } else {
      if !s.attempts[a].closed {
        var t0 :| t0 in s.threads && s.threads[t0] == Closing(a);
        assert (s.threads - {t})[t0] == Closing(a);
      }
      MoveKeeps(s, t, None);
    }
  }

  lemma ReleaseKeeps(s: Sys, t: Tid, a: Id, lease: Option<Key>, spoil: Option<Sub>)
    requires Inv(s) && t in s.threads && s.threads[t] == Releasing(a, lease, spoil)
    ensures Inv(Release(s, t, a, lease, spoil))
  {
    var s1 := if lease.Some? then s.(leases := ReleaseLease(s.leases, lease.value, a)) else s;
    if lease.Some? {
      LeasesAfterRelease(s.attempts, s.leases, s.threads, a, lease.value);
    }
    MoveKeeps(s1, t, if spoil.Some? then Some(Unsubscribing(spoil.value)) else None);
  }

  lemma StartKeeps(s: Sys, t: Tid, a: Id, starting: bool, next: Option<Thread>)
    requires Inv(s) && a in s.attempts && HeldBy(next) == Held(s.threads, t)
    requires MayMove(SetStarting(s, a, starting).attempts, s.leases, s.threads, t, next)
    ensures Inv(Move(SetStarting(s, a, starting), t, next))
  {
    SetStartingKeeps(s, a, starting);
    MoveKeeps(SetStarting(s, a, starting), t, next);
  }

  lemma AdvanceKeeps(s: Sys, t: Tid, ok: bool, newSub: Sub)
    requires Inv(s) && Enabled(s, Advance(t, ok, newSub))
    ensures Inv(Next(s, Advance(t, ok, newSub)))
  {
    hide AttemptsOk, LeasesOk, SubsOk, ReleasesOk;
    assert KnownThread(s.attempts, s.threads[t]);
    match s.threads[t]
    case Starting(a, channel, key) =>
      MoveKeeps(s, t, Some(if ok then Looked(a, channel, key, Lookup(s.leases, key)) else Leaving(a)));
    case Looked(a, channel, key, expected) =>
      if ok {
        AcquireKeeps(s, t, a, channel, key, expected, newSub);
      } else {
        MoveKeeps(s, t, Some(Leaving(a)));
      }
    case Subscribed(a, channel, key, expected, sub) => AttachKeeps(s, t, a, channel, key, expected, sub);
    case Attached(_, previous) => MoveKeeps(s, t, if previous.Some? then Some(Removing(previous.value)) else None);
    case Dropping(a, sub) => UnsubscribeKeeps(s, t, sub, Some(Leaving(a)));
    case Leaving(a) => StartKeeps(s, t, a, false, None);
    case Removing(a) => RemoveKeeps(s, t, a);
    case Closing(a) => CloseKeeps(s, t, a);
    case Releasing(a, lease, spoil) => ReleaseKeeps(s, t, a, lease, spoil);
    case Unsubscribing(sub) => UnsubscribeKeeps(s, t, sub, None);
  }

  lemma StepKeeps(s: Sys, e: Event)
    requires Inv(s) && Enabled(s, e)
    ensures Inv(Next(s, e))
  {
    hide AttemptsOk, LeasesOk, SubsOk, ReleasesOk;
    match e
    case Register(a) => RegisterKeeps(s, a);
    case SpawnStart(t, a, channel, key) => StartKeeps(s, t, a, true, Some(Starting(a, channel, key)));
    case SpawnRemove(t, a) => MoveKeeps(s, t, Some(Removing(a)));
    case Advance(t, ok, newSub) => AdvanceKeeps(s, t, ok, newSub);
  }

  ghost predicate Steps(s: Sys, s': Sys) {
    WellFormed(s) && exists e :: Enabled(s, e) && s' == Next(s, e)
  }

  ghost predicate Run(run: seq<Sys>) {
    run != [] && run[0] == EMPTY && forall i :: 0 < i < |run| ==> Steps(run[i - 1], run[i])
  }

  lemma {:induction false} RunKeeps(run: seq<Sys>)
    requires Run(run)
    ensures Inv(run[|run| - 1])
    decreases |run|
  {
    var n := |run| - 1;
    if n > 0 {
      RunKeeps(run[..n]);
      assert Steps(run[n - 1], run[n]);
      var e :| Enabled(run[n - 1], e) && run[n] == Next(run[n - 1], e);
      StepKeeps(run[n - 1], e);
    }
  }

  // ---------- Main results ----------

  // In every reachable state a lease names an open holder of its key or a
  // closed one whose release is still to come; a holder that lost its entry is
  // about to be removed; and no attempt ever had two channels.
  lemma LeasesNameHolders(run: seq<Sys>)
    requires Run(run)
    ensures var s := run[|run| - 1];
            && (forall k :: k in s.leases ==> s.leases[k] in s.attempts)
            && (forall k :: k in s.leases ==> Holds(s.attempts[s.leases[k]], k) || ReleasePending(s.threads, s.leases[k], k))
            && (forall a, k :: a in s.attempts && Holds(s.attempts[a], k) ==>
                  Lookup(s.leases, k) == Some(a) || Doomed(s.threads, a))
            && (forall a :: a in s.attempts ==> a in s.channels && s.channels[a] <= 1)
  {
    RunKeeps(run);
  }

  // An open holder loses its entry only to a claim that looked it up as the
  // holder and dooms it; in particular no release, however late, evicts a
  // successor.
  lemma OnlyClaimsEvict(run: seq<Sys>, e: Event, b: Id, k: Key)
    requires Run(run) && Enabled(run[|run| - 1], e)
    requires var s := run[|run| - 1]; b in s.attempts && !s.attempts[b].closed && Lookup(s.leases, k) == Some(b)
    ensures WellFormed(run[|run| - 1])
    ensures var s := run[|run| - 1];
            var s' := Next(s, e);
            Lookup(s'.leases, k) == Some(b)
            || (Doomed(s'.threads, b) && e.Advance? && s.threads[e.t].Subscribed? && s.threads[e.t].key == k
                && s.threads[e.t].expected == Some(b))
  {
    RunKeeps(run);
    var s := run[|run| - 1];
    StepKeeps(s, e);
    assert !ReleasePending(s.threads, b, k);
    if Lookup(Next(s, e).leases, k) != Some(b) {
      EvictionIsClaim(s, e, b, k);
    }
  }

  lemma EvictionIsClaim(s: Sys, e: Event, b: Id, k: Key)
    requires Inv(s) && Enabled(s, e) && b in s.attempts && Holds(s.attempts[b], k) && Lookup(s.leases, k) == Some(b)
    requires Lookup(Next(s, e).leases, k) != Some(b)
    ensures e.Advance? && s.threads[e.t].Subscribed? && s.threads[e.t].key == k && s.threads[e.t].expected == Some(b)
    ensures b in Next(s, e).attempts && Next(s, e).attempts[b] == s.attempts[b]
  {
    hide AttemptsOk, LeasesOk, SubsOk, ReleasesOk, WellFormed;
    AttemptOkIn(s, b);
    ClosedBeforeRelease(s, e);
    if !TouchesLeases(s, e) {
      LeasesUntouched(s, e);
    }
  }

  predicate TouchesLeases(s: Sys, e: Event)
    requires Enabled(s, e)
  {
    e.Advance? && (s.threads[e.t].Subscribed? || s.threads[e.t].Releasing?)
  }

  lemma LeasesUntouched(s: Sys, e: Event)
    requires WellFormed(s) && Enabled(s, e) && !TouchesLeases(s, e)
    ensures Next(s, e).leases == s.leases
  {
  }

  lemma ClosedBeforeRelease(s: Sys, e: Event)
    requires Inv(s) && Enabled(s, e)
    ensures e.Advance? && s.threads[e.t].Releasing? ==> s.threads[e.t].a in s.attempts && s.attempts[s.threads[e.t].a].closed
  {
  }

  // A start attaches exactly when its attempt is open and serves nothing, and the
  // entry of its key is still as it looked it up or its holder has only released
  // since: one that saw no holder attaches only while the key is free. It then
  // holds everything, and removes the attempt it looked up, released or not.
  // Otherwise it takes nothing and drops its subscription.
  lemma AttachesExactly(run: seq<Sys>, t: Tid, ok: bool, newSub: Sub)
    requires Run(run) && t in run[|run| - 1].threads && run[|run| - 1].threads[t].Subscribed?
    ensures WellFormed(run[|run| - 1]) && run[|run| - 1].threads[t].a in run[|run| - 1].attempts
    ensures var s := run[|run| - 1];
      var s', th := Next(s, Advance(t, ok, newSub)), s.threads[t];
      var a, holder := s.attempts[th.a], if th.key in s.leases then Some(s.leases[th.key]) else None;
      var free := !a.closed && a.sub.None? && a.channel.None?;
      && t in s'.threads && th.a in s'.attempts
      && (s'.threads[t].Attached? <==> free && (holder == th.expected || (holder.None? && th.expected.Some?)))
      && (s'.threads[t].Attached? ==>
            && s'.leases == s.leases[th.key := th.a]
            && s'.threads[t] == Attached(th.a, if th.expected == Some(th.a) then None else th.expected)
            && s'.attempts[th.a] == Attempt(false, false, Some(th.sub), Some(th.channel), Some(th.key), true))
      && (!s'.threads[t].Attached? ==>
            && s'.leases == s.leases && s'.threads[t] == Dropping(th.a, th.sub)
            && s'.attempts[th.a].sub == a.sub && s'.attempts[th.a].channel == a.channel && s'.attempts[th.a].held == a.held)
  {
    RunKeeps(run);
    var s := run[|run| - 1];
    AttemptOkIn(s, s.threads[t].a);
    hide AttemptsOk, LeasesOk, SubsOk, ReleasesOk;
    assert KnownThread(s.attempts, s.threads[t]);
  }

  // Once every goroutine has finished: each lease names an open attempt, each
  // key has at most one open holder, and every subscription is owned by exactly
  // one open attempt or was unsubscribed exactly once.
  lemma Quiescence(run: seq<Sys>)
    requires Run(run) && run[|run| - 1].threads == map[]
    ensures var s := run[|run| - 1];
            && (forall k :: k in s.leases ==> s.leases[k] in s.attempts && Holds(s.attempts[s.leases[k]], k))
            && (forall a, b, k :: a in s.attempts && b in s.attempts && Holds(s.attempts[a], k) && Holds(s.attempts[b], k) ==> a == b)
            && (forall x :: x in s.home ==>
                  if s.home[x].Owned? then x !in s.unsubs && s.home[x].a in s.attempts
                                           && !s.attempts[s.home[x].a].closed && s.attempts[s.home[x].a].sub == Some(x)
                  else x in s.unsubs && s.unsubs[x] == 1)
  {
    RunKeeps(run);
    var s := run[|run| - 1];
    assert forall x :: x in s.home ==> HomeOk(s.attempts, s.threads, s.unsubs, x, s.home[x]);
  }

  // At every moment exactly one party answers for a live subscription, and none
  // is ever unsubscribed twice.
  lemma SubscriptionsHaveOneHome(run: seq<Sys>, x: Sub)
    requires Run(run) && x in run[|run| - 1].home
    ensures var s := run[|run| - 1];
            && (x in s.unsubs ==> s.unsubs[x] == 1)
            && (forall a, b :: a in s.attempts && b in s.attempts && s.attempts[a].sub == Some(x) == s.attempts[b].sub ==> a == b)
            && (forall a, t :: a in s.attempts && s.attempts[a].sub == Some(x) && t in s.threads ==> SubOf(s.threads[t]) != Some(x))
            && (x !in s.unsubs ==> (exists a :: a in s.attempts && s.attempts[a].sub == Some(x))
                                   || (exists t :: t in s.threads && SubOf(s.threads[t]) == Some(x)))
  {
    RunKeeps(run);
    var s := run[|run| - 1];
    assert HomeOk(s.attempts, s.threads, s.unsubs, x, s.home[x]);
  }
}
