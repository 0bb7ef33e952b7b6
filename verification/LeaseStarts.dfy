/** The flag that keeps two starts of one attempt apart, over all interleavings:
    when it does, and the one way it does not. */
module LeaseStarts {
  import opened Wrappers
  import opened RouteLease
  import opened HostAttempt
  import opened LeaseRuns

  // The goroutine is between the two ends of a start of `a`.
  predicate InStart(th: Thread, a: Id) {
    (th.Starting? || th.Looked? || th.Subscribed? || th.Dropping? || th.Leaving?) && th.a == a
  }

  // Every flag belongs to a start that is still running.
  ghost predicate FlagsOwned(s: Sys) {
    forall a :: a in s.attempts && s.attempts[a].starting ==> exists t :: t in s.threads && InStart(s.threads[t], a)
  }

  // The goroutine that a step lets advance, if it does.
  function Stepped(e: Event): Option<Tid> {
    match e
    case Register(_) => None
    case SpawnStart(t, _, _, _) => Some(t)
    case SpawnRemove(t, _) => Some(t)
    case Advance(t, _, _) => Some(t)
  }

  // Whether that goroutine is starting `a`.
  predicate StartsAt(s: Sys, t: Option<Tid>, a: Id) {
    t.Some? && t.value in s.threads && InStart(s.threads[t.value], a)
  }

  // A step leaves every other goroutine where it is, and opens no closed attempt.

  lemma SpawnLeavesOthers(s: Sys, e: Event, u: Tid)
    requires WellFormed(s) && Enabled(s, e) && Stepped(e) != Some(u) && !e.Advance?
    ensures u in Next(s, e).threads <==> u in s.threads
    ensures u in s.threads ==> Next(s, e).threads[u] == s.threads[u]
  {
    hide WellFormed;
  }

  lemma ChangeLeavesOthers(s: Sys, e: Event, u: Tid)
    requires WellFormed(s) && Enabled(s, e) && Stepped(e) != Some(u) && e.Advance?
      && (s.threads[e.t].Subscribed? || s.threads[e.t].Leaving? || s.threads[e.t].Closing? || s.threads[e.t].Removing? || s.threads[e.t].Releasing?)
    ensures u in Next(s, e).threads <==> u in s.threads
    ensures u in s.threads ==> Next(s, e).threads[u] == s.threads[u]
  {
    assert KnownThread(s.attempts, s.threads[e.t]);
    hide WellFormed, KnownThread, AttachTo, Taken, ReleaseLease;
  }

  lemma MoveLeavesOthers(s: Sys, e: Event, u: Tid)
    requires WellFormed(s) && Enabled(s, e) && Stepped(e) != Some(u) && e.Advance?
      && (s.threads[e.t].Starting? || s.threads[e.t].Looked? || s.threads[e.t].Attached?)
    ensures u in Next(s, e).threads <==> u in s.threads
    ensures u in s.threads ==> Next(s, e).threads[u] == s.threads[u]
  {
    hide WellFormed;
  }

  lemma UnsubscribeLeavesOthers(s: Sys, e: Event, u: Tid)
    requires WellFormed(s) && Enabled(s, e) && Stepped(e) != Some(u) && e.Advance?
      && (s.threads[e.t].Dropping? || s.threads[e.t].Unsubscribing?)
    ensures u in Next(s, e).threads <==> u in s.threads
    ensures u in s.threads ==> Next(s, e).threads[u] == s.threads[u]
  {
    hide WellFormed;
  }

  lemma StepLeavesOthers(s: Sys, e: Event, u: Tid)
    requires WellFormed(s) && Enabled(s, e) && Stepped(e) != Some(u)
    ensures u in Next(s, e).threads <==> u in s.threads
    ensures u in s.threads ==> Next(s, e).threads[u] == s.threads[u]
  {
    hide Next;
    if !e.Advance? {
      SpawnLeavesOthers(s, e, u);
    } else if s.threads[e.t].Subscribed? || s.threads[e.t].Leaving? || s.threads[e.t].Closing? || s.threads[e.t].Removing? || s.threads[e.t].Releasing? {
      ChangeLeavesOthers(s, e, u);
    } else if s.threads[e.t].Dropping? || s.threads[e.t].Unsubscribing? {
      UnsubscribeLeavesOthers(s, e, u);
    } else {
      MoveLeavesOthers(s, e, u);
    }
  }

  lemma StepOpensNone(s: Sys, e: Event, a: Id)
    requires WellFormed(s) && Enabled(s, e) && a in s.attempts
    ensures a in Next(s, e).attempts && (s.attempts[a].closed ==> Next(s, e).attempts[a].closed)
  {
    if e.Advance? {
      assert KnownThread(s.attempts, s.threads[e.t]);
    }
    hide WellFormed, KnownThread, ClaimLease, ReleaseLease;
  }

  // A start raises the flag when it begins, and lowers it when it ends or its
  // claim is refused.
  predicate FlagFollows(s: Sys, s': Sys, t: Option<Tid>, a: Id)
    requires a in s.attempts && a in s'.attempts
  {
    var before, after, was, now := StartsAt(s, t, a), StartsAt(s', t, a), s.attempts[a].starting, s'.attempts[a].starting;
    && (after && !before ==> now && !was && !s.attempts[a].closed)
    && (before && !after ==> !now)
    && (before && after && now != was ==>
          s.threads[t.value].Subscribed? && s'.threads[t.value].Dropping? && MayClaim(s.attempts[a]) && !now)
    && (!before && !after && now != was ==> s'.attempts[a].closed && !now)
  }

  lemma SpawnFlag(s: Sys, e: Event, a: Id)
    requires WellFormed(s) && Enabled(s, e) && !e.Advance? && a in s.attempts && a in Next(s, e).attempts
    ensures FlagFollows(s, Next(s, e), Stepped(e), a)
  {
    hide WellFormed;
  }

  // Goroutines that only move on, those that attach or end a start, and those that
  // close.

  lemma StartingFlag(s: Sys, t: Tid, ok: bool, newSub: Sub, a: Id)
    requires WellFormed(s) && Enabled(s, Advance(t, ok, newSub)) && a in s.attempts && a in Next(s, Advance(t, ok, newSub)).attempts
    requires s.threads[t].Starting? || s.threads[t].Looked? || s.threads[t].Dropping?
    ensures FlagFollows(s, Next(s, Advance(t, ok, newSub)), Some(t), a)
  {
    hide WellFormed;
  }

  lemma MovingFlag(s: Sys, t: Tid, ok: bool, newSub: Sub, a: Id)
    requires WellFormed(s) && Enabled(s, Advance(t, ok, newSub)) && a in s.attempts && a in Next(s, Advance(t, ok, newSub)).attempts
    requires s.threads[t].Attached? || s.threads[t].Removing? || s.threads[t].Releasing? || s.threads[t].Unsubscribing?
    ensures FlagFollows(s, Next(s, Advance(t, ok, newSub)), Some(t), a)
  {
    hide WellFormed;
  }

  lemma AttachingFlag(s: Sys, t: Tid, ok: bool, newSub: Sub, a: Id)
    requires WellFormed(s) && Enabled(s, Advance(t, ok, newSub)) && a in s.attempts && a in Next(s, Advance(t, ok, newSub)).attempts
    requires s.threads[t].Subscribed?
    ensures FlagFollows(s, Next(s, Advance(t, ok, newSub)), Some(t), a)
  {
    assert KnownThread(s.attempts, s.threads[t]);
    hide WellFormed, ClaimLease, KnownThread;
  }

  lemma LeavingFlag(s: Sys, t: Tid, ok: bool, newSub: Sub, a: Id)
    requires WellFormed(s) && Enabled(s, Advance(t, ok, newSub)) && a in s.attempts && a in Next(s, Advance(t, ok, newSub)).attempts
    requires s.threads[t].Leaving?
    ensures FlagFollows(s, Next(s, Advance(t, ok, newSub)), Some(t), a)
  {
    assert KnownThread(s.attempts, s.threads[t]);
    hide WellFormed, KnownThread;
  }

  lemma ClosingFlag(s: Sys, t: Tid, ok: bool, newSub: Sub, a: Id)
    requires WellFormed(s) && Enabled(s, Advance(t, ok, newSub)) && a in s.attempts && a in Next(s, Advance(t, ok, newSub)).attempts
    requires s.threads[t].Closing?
    ensures FlagFollows(s, Next(s, Advance(t, ok, newSub)), Some(t), a)
  {
    assert KnownThread(s.attempts, s.threads[t]);
    hide WellFormed, KnownThread;
  }

  lemma StepOfStart(s: Sys, e: Event, a: Id)
    requires WellFormed(s) && Enabled(s, e) && a in s.attempts && a in Next(s, e).attempts
    ensures FlagFollows(s, Next(s, e), Stepped(e), a)
  {
    hide FlagFollows, Next;
    if !e.Advance? {
      SpawnFlag(s, e, a);
    } else if s.threads[e.t].Subscribed? {
      AttachingFlag(s, e.t, e.ok, e.sub, a);
    } else if s.threads[e.t].Leaving? {
      LeavingFlag(s, e.t, e.ok, e.sub, a);
    } else if s.threads[e.t].Closing? {
      ClosingFlag(s, e.t, e.ok, e.sub, a);
    } else if s.threads[e.t].Starting? || s.threads[e.t].Looked? || s.threads[e.t].Dropping? {
      StartingFlag(s, e.t, e.ok, e.sub, a);
    } else {
      MovingFlag(s, e.t, e.ok, e.sub, a);
    }
  }

  predicate MayClaim(a: Attempt) {
    !a.closed && !Streaming(a)
  }

  // A step in which the claim of a start of `a` is refused because the entry has
  // moved on.
  ghost predicate SupersededIn(s: Sys, s': Sys, a: Id) {
    exists t :: t in s.threads && t in s'.threads && s.threads[t].Subscribed? && s'.threads[t].Dropping?
                && s.threads[t].a == a && a in s.attempts && MayClaim(s.attempts[a])
  }

  // At most one start is running, and an open attempt says so.
  ghost predicate OneStart(s: Sys, a: Id) {
    && (forall t, u :: StartsAt(s, Some(t), a) && StartsAt(s, Some(u), a) ==> t == u)
    && (forall t :: StartsAt(s, Some(t), a) && a in s.attempts ==> s.attempts[a].starting || s.attempts[a].closed)
  }

  lemma OneMoves(s: Sys, s': Sys, moved: Option<Tid>, a: Id)
    requires a in s.attempts && a in s'.attempts && (s.attempts[a].closed ==> s'.attempts[a].closed)
    requires forall u: Tid :: moved != Some(u) ==> (StartsAt(s', Some(u), a) <==> StartsAt(s, Some(u), a))
    requires FlagFollows(s, s', moved, a) && OneStart(s, a) && !SupersededIn(s, s', a)
    ensures OneStart(s', a)
  {
  }

  lemma StepKeepsOne(s: Sys, e: Event, a: Id)
    requires Inv(s) && Enabled(s, e) && a in s.attempts && OneStart(s, a) && !SupersededIn(s, Next(s, e), a)
    ensures OneStart(Next(s, e), a)
  {
    assert WellFormed(s);
    StepOpensNone(s, e, a);
    StepOfStart(s, e, a);
    forall u: Tid | Stepped(e) != Some(u)
      ensures StartsAt(Next(s, e), Some(u), a) <==> StartsAt(s, Some(u), a)
    {
      StepLeavesOthers(s, e, u);
    }
    hide Inv, Next, InStart, MayClaim, Enabled, WellFormed, FlagFollows;
    OneMoves(s, Next(s, e), Stepped(e), a);
  }

  lemma StepKeepsFlag(s: Sys, e: Event, a: Id)
    requires Inv(s) && Enabled(s, e) && a in s.attempts && a in Next(s, e).attempts && Next(s, e).attempts[a].starting
    requires s.attempts[a].starting ==> exists t :: t in s.threads && InStart(s.threads[t], a)
    ensures exists t :: t in Next(s, e).threads && InStart(Next(s, e).threads[t], a)
  {
    assert WellFormed(s);
    StepOfStart(s, e, a);
    var s' := Next(s, e);
    hide Inv, Next, InStart, MayClaim;
    if StartsAt(s', Stepped(e), a) {
      assert InStart(s'.threads[Stepped(e).value], a);
    } else {
      var t :| t in s.threads && InStart(s.threads[t], a);
      assert Stepped(e) != Some(t);
      StepLeavesOthers(s, e, t);
      assert InStart(s'.threads[t], a);
    }
  }

  // No start of `a` has been superseded so far.
  ghost predicate NeverSuperseded(run: seq<Sys>, a: Id) {
    forall i :: 0 < i < |run| ==> !SupersededIn(run[i - 1], run[i], a)
  }

  // As long as no claim of an attempt has been refused, at most one goroutine is
  // starting it at a time. Whatever happens, a flag belongs to a start that is
  // still running, so at quiescence every attempt may start again unless it is
  // closed or streaming.
  lemma {:induction false} StartsDoNotOverlap(run: seq<Sys>, a: Id)
    requires Run(run)
    ensures NeverSuperseded(run, a) ==> OneStart(run[|run| - 1], a)
    ensures FlagsOwned(run[|run| - 1])
    decreases |run|
  {
    var n := |run| - 1;
    if n > 0 {
      StartsDoNotOverlap(run[..n], a);
      RunKeeps(run[..n]);
      var s := run[n - 1];
      assert Steps(run[n - 1], run[n]);
      var e :| Enabled(s, e) && run[n] == Next(s, e);
      hide Inv, Next, OneStart, Enabled;
      StepKeepsFlags(s, e);
      if NeverSuperseded(run, a) {
        assert !SupersededIn(run[n - 1], run[n], a);
        StepKeepsOneOf(s, e, a);
      }
    }
  }

  lemma StepKeepsOneOf(s: Sys, e: Event, a: Id)
    requires Inv(s) && Enabled(s, e) && OneStart(s, a) && !SupersededIn(s, Next(s, e), a)
    ensures OneStart(Next(s, e), a)
  {
    if a in s.attempts {
      StepKeepsOne(s, e, a);
    } else {
      StepKeeps(s, e);
      NotYetKnown(s, e, a);
    }
  }

  lemma OnlyRegisterAdds(s: Sys, e: Event)
    requires WellFormed(s) && Enabled(s, e) && !e.Register?
    ensures Next(s, e).attempts.Keys == s.attempts.Keys
  {
    if e.Advance? {
      assert KnownThread(s.attempts, s.threads[e.t]);
    }
    hide WellFormed, KnownThread, AttachTo, Taken, ReleaseLease;
  }

  // An attempt that is not known has no start, and comes to be known without one.
  lemma NotYetKnown(s: Sys, e: Event, a: Id)
    requires Inv(s) && Enabled(s, e) && a !in s.attempts && WellFormed(Next(s, e))
    ensures forall t: Tid :: !StartsAt(Next(s, e), Some(t), a)
    ensures a in Next(s, e).attempts ==> !Next(s, e).attempts[a].starting
  {
    var s' := Next(s, e);
    if e == Event.Register(a) {
      assert s'.threads == s.threads && s'.attempts[a] == FRESH;
    } else if !e.Register? {
      OnlyRegisterAdds(s, e);
    }
    assert forall t :: t in s'.threads ==> KnownThread(s'.attempts, s'.threads[t]);
    assert forall t :: t in s.threads ==> KnownThread(s.attempts, s.threads[t]);
    hide AttemptsOk, LeasesOk, SubsOk, ReleasesOk;
    if !e.Register? {
      hide Next;
    }
  }

  lemma StepKeepsFlags(s: Sys, e: Event)
    requires Inv(s) && Enabled(s, e) && FlagsOwned(s)
    ensures FlagsOwned(Next(s, e))
  {
    var s' := Next(s, e);
    StepKeeps(s, e);
    forall a | a in s'.attempts && s'.attempts[a].starting
      ensures exists t :: t in s'.threads && InStart(s'.threads[t], a)
    {
      if a in s.attempts {
        StepKeepsFlag(s, e, a);
      } else {
        NotYetKnown(s, e, a);
      }
    }
    hide Next, Inv;
  }

  // ---------- The one way two starts overlap ----------

  lemma Extend(run: seq<Sys>, e: Event) returns (longer: seq<Sys>)
    requires Run(run) && Enabled(run[|run| - 1], e)
    ensures WellFormed(run[|run| - 1]) && Run(longer) && longer != [] && longer[|longer| - 1] == Next(run[|run| - 1], e)
  {
    RunKeeps(run);
    hide Next, Enabled, Inv;
    longer := run + [Next(run[|run| - 1], e)];
    forall i | 0 < i < |longer|
      ensures Steps(longer[i - 1], longer[i])
    {
      if i < |run| {
        assert Steps(run[i - 1], run[i]);
      }
    }
  }

  const PANE := Key("p", 0, "c")

  const IDLE := Attempt(false, true, None, None, None, false)

  const SERVING := Attempt(false, false, Some(2), Some(2), Some(PANE), true)

  // Two attempts start for one pane, and the second one attaches first.
  lemma BothLook() returns (run: seq<Sys>)
    ensures Run(run)
    ensures var s := run[|run| - 1];
      && s.attempts == map[1 := IDLE, 2 := IDLE] && s.leases == map[] && s.channels == map[1 := 0, 2 := 0] && s.home == map[]
      && s.threads == map[1 := Looked(1, 1, PANE, None), 2 := Looked(2, 2, PANE, None)]
  {
    run := [EMPTY];
    run := Extend(run, Event.Register(1));
    run := Extend(run, Event.Register(2));
    run := Extend(run, SpawnStart(1, 1, 1, PANE));
    run := Extend(run, Advance(1, true, 0));
    run := Extend(run, SpawnStart(2, 2, 2, PANE));
    run := Extend(run, Advance(2, true, 0));
  }

  lemma SecondAttaches() returns (run: seq<Sys>)
    ensures Run(run)
    ensures var s := run[|run| - 1];
      && s.attempts == map[1 := IDLE, 2 := SERVING] && s.leases == map[PANE := 2]
      && s.threads == map[1 := Looked(1, 1, PANE, None), 2 := Attached(2, None)]
      && s.home.Keys == {2}
  {
    run := BothLook();
    hide Run;
    run := Extend(run, Advance(2, true, 2));
    run := Extend(run, Advance(2, true, 0));
  }

  // The claim of the first is refused, which lowers its flag.
  lemma FirstRefused() returns (run: seq<Sys>)
    ensures Run(run)
    ensures var s := run[|run| - 1];
      && s.attempts == map[1 := FRESH, 2 := SERVING]
      && s.threads == map[1 := Dropping(1, 1), 2 := Attached(2, None)]
  {
    run := SecondAttaches();
    hide Run, Close, Remove, Release;
    run := Extend(run, Advance(1, true, 1));
    run := Extend(run, Advance(1, true, 0));
  }

  // Another start of it begins, and the end of the first one lowers its flag.
  lemma OtherBegins() returns (run: seq<Sys>)
    ensures Run(run)
    ensures var s := run[|run| - 1];
      && s.attempts == map[1 := IDLE, 2 := SERVING]
      && s.threads == map[1 := Leaving(1), 2 := Attached(2, None), 3 := Starting(1, 3, PANE)]
  {
    run := FirstRefused();
    hide Run, Close, Remove, Release, Attach, Acquire, ClaimLease;
    run := Extend(run, SpawnStart(3, 1, 3, PANE));
    run := Extend(run, Advance(1, true, 0));
  }

  lemma FlagLost() returns (run: seq<Sys>)
    ensures Run(run)
    ensures var s := run[|run| - 1];
      && s.attempts == map[1 := FRESH, 2 := SERVING]
      && s.threads == map[2 := Attached(2, None), 3 := Starting(1, 3, PANE)]
  {
    run := OtherBegins();
    hide Run, Close, Remove, Release, Attach, Acquire, ClaimLease;
    run := Extend(run, Advance(1, true, 0));
  }

  // So a third may begin: two starts of one attempt run side by side. Attaching
  // still lets only one of them through.
  lemma StartsOverlapOnce() returns (run: seq<Sys>)
    ensures Run(run) && !OneStart(run[|run| - 1], 1)
    ensures var s := run[|run| - 1];
      s.threads == map[2 := Attached(2, None), 3 := Starting(1, 3, PANE), 4 := Starting(1, 4, PANE)]
  {
    run := FlagLost();
    hide Run;
    run := Extend(run, SpawnStart(4, 1, 4, PANE));
    assert StartsAt(run[|run| - 1], Some(3), 1) && StartsAt(run[|run| - 1], Some(4), 1);
  }
}
