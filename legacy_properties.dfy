/** What the earlier revision promises, proved about the functions of `LegacyModel`. */
module LegacyProperties {
  import opened Wrappers
  import opened HostEvents
  import opened LegacyModel
  import Gate

  // ----- the reachable-state invariant -----

  lemma InitSatisfiesInv(hasRouter: bool)
    ensures Inv(Init(hasRouter))
  {
  }

  lemma MountPreservesInv(s: State) requires Inv(s) ensures Inv(OnMount(s)) {}
  lemma UserEventPreservesInv(s: State, name: string) requires Inv(s) ensures Inv(OnUserEvent(s, name)) {}
  lemma TickPreservesInv(s: State) requires Inv(s) ensures Inv(OnTick(s)) {}
  lemma RouteStartPreservesInv(s: State) requires Inv(s) ensures Inv(OnRouteChangeStart(s)) {}
  lemma RouteCompletePreservesInv(s: State) requires Inv(s) ensures Inv(OnRouteChangeComplete(s)) {}
  lemma FramePreservesInv(s: State) requires Inv(s) ensures Inv(OnAnimationFrame(s)) {}
  lemma UnmountPreservesInv(s: State) requires Inv(s) ensures Inv(OnUnmount(s)) {}

  lemma StepPreservesInv(s: State, e: Event)
    requires Inv(s)
    ensures Inv(Step(s, e))
  {
    match e
    case Mount => MountPreservesInv(s);
    case UserEvent(name) => UserEventPreservesInv(s, name);
    case Tick => TickPreservesInv(s);
    case RouteChangeStart => RouteStartPreservesInv(s);
    case RouteChangeComplete => RouteCompletePreservesInv(s);
    case AnimationFrame => FramePreservesInv(s);
    case Unmount => UnmountPreservesInv(s);
  }

  lemma {:induction false} RunPreservesInv(s: State, events: seq<Event>)
    requires Inv(s)
    ensures Inv(Run(s, events))
    decreases |events|
  {
    if events != [] {
      StepPreservesInv(s, events[0]);
      RunPreservesInv(Step(s, events[0]), events[1..]);
    }
  }

  /** Unlike the current revision, this one never loses an interval handle:
      whatever the host delivers, every scheduled interval is the one the ref
      holds, and none survives unmount. The counter stays within 0..10. */
  lemma NeverLeaksIntervals(hasRouter: bool, events: seq<Event>)
    ensures var r := Run(Init(hasRouter), events);
      && r.leakedIntervals == 0 && 0 <= r.timer <= InitialTimer
      && (r.phase == Unmounted ==> !r.IntervalScheduled())
  {
    RunPreservesInv(Init(hasRouter), events);
  }

  // ----- the countdown -----

  ghost predicate CountingDown(s: State, m: nat) {
    && Inv(s) && s.phase == Mounted
    && !s.userTriggered && !s.timerExpired && s.intervalLive
    && s.timer == m && m > 0
  }

  /** From a running countdown at `m`, `n <= m` ticks leave it running at
      `m - n`, and the `m`-th tick sets the expiry flag at exactly 0 and
      starts no interval. The listeners are left as they were: this revision
      has no effect that removes them on expiry. */
  lemma {:induction false} CountdownFrom(s: State, m: nat, n: nat)
    requires CountingDown(s, m) && n <= m
    ensures var r := Run(s, Ticks(n));
      && (n < m ==> CountingDown(r, m - n))
      && (n == m ==> r.timer == 0 && r.timerExpired && !r.IntervalScheduled())
      && r.listenersActive == s.listenersActive && r.registered == s.registered
    decreases n
  {
    if n > 0 {
      var s' := OnTick(s);
      TickPreservesInv(s);
      assert Ticks(n)[0] == Tick && Ticks(n)[1..] == Ticks(n - 1);
      assert Run(s, Ticks(n)) == Run(s', Ticks(n - 1));
      if m == 1 {
        assert s'.timerExpired && !s'.IntervalScheduled();
      } else {
        assert CountingDown(s', m - 1);
        CountdownFrom(s', m - 1, n - 1);
      }
    }
  }

  /** There is no disabled path: without interaction, every mount expires at
      exactly the tenth tick, with the listeners still on the window. */
  lemma MountedCountdownExpires(hasRouter: bool, n: nat)
    requires n <= InitialTimer
    ensures var r := Run(OnMount(Init(hasRouter)), Ticks(n));
      && (r.HasInteracted() <==> n == InitialTimer)
      && (n == InitialTimer ==> r.timer == 0 && !r.IntervalScheduled()
                                && r.listenersActive && r.registered == TrackedSet())
  {
    var s := OnMount(Init(hasRouter));
    InitSatisfiesInv(hasRouter);
    MountPreservesInv(Init(hasRouter));
    CountdownFrom(s, InitialTimer, n);
  }

  /** What a consumer sees: `afterInteraction` returns nothing for the first
      nine ticks after mount and the callback's result at the tenth. */
  lemma GateOpensAtTenthTick<T>(hasRouter: bool, n: nat, callback: () -> T)
    requires n <= InitialTimer
    ensures var r := Run(OnMount(Init(hasRouter)), Ticks(n));
      Gate.AfterInteraction(r.HasInteracted(), callback) == if n == InitialTimer then Some(callback()) else None
  {
    MountedCountdownExpires(hasRouter, n);
  }

  lemma OnTickStep(s: State)
    requires Inv(s) && s.phase == Mounted && s.IntervalScheduled()
    ensures var r := OnTick(s);
      && r.timer == s.timer - TickStep
      && (r.timerExpired <==> r.timer == 0)
      && (r.intervalLive <==> r.timer != 0)
      && !r.userTriggered
      && r.listenersActive == s.listenersActive && r.registered == s.registered
  {
  }

  // ----- listeners and user events -----

  /** `removeEventListeners` is a no-op while the flag is false. */
  lemma RemoveIsGuarded(s: State)
    requires !s.listenersActive
    ensures RemoveEventListeners(s) == s
  {
  }

  /** Mount adds the listeners for click, touchstart and scroll, sets the
      flag, starts the countdown at 10 and subscribes when a router is given. */
  lemma MountStep(s: State)
    requires Inv(s) && s.phase == Rendered
    ensures var r := OnMount(s);
      && r.phase == Mounted && r.listenersActive && r.registered == TrackedSet()
      && r.intervalLive && r.timer == InitialTimer && !r.HasInteracted()
      && r.subscribed == (if s.hasRouter then {RouteChangeStartName, RouteChangeCompleteName} else {})
  {
  }

  /** A tracked event while listening sets the user flag; if the flag was
      clear, the cleanup effect then removes the listeners and clears the
      interval. If it was already set (listeners re-added by a second queued
      frame), the effect does not re-run and the listeners stay. Other
      names change nothing. */
  lemma UserEventStep(s: State, name: string)
    requires Inv(s) && s.phase == Mounted
    ensures var r := OnUserEvent(s, name);
      && (name in s.registered <==> name in EventNames && s.listenersActive)
      && (name in s.registered ==> r.userTriggered && r.HasInteracted())
      && (name in s.registered && !s.userTriggered ==>
            && !r.listenersActive && r.registered == {} && !r.intervalLive
            && r.timer == s.timer && r.timerExpired == s.timerExpired)
      && (name in s.registered && s.userTriggered ==> r == s)
      && (name !in s.registered ==> r == s)
  {
  }

  lemma UserEventIdempotent(s: State, name: string)
    requires Inv(s)
    ensures OnUserEvent(OnUserEvent(s, name), name) == OnUserEvent(s, name)
  {
  }

  /** A stopped countdown never starts again in this revision: nothing but
      the timer effect starts an interval, and it re-runs only when a tick
      moves the counter. Route events included, no event moves the counter or
      schedules an interval. */
  lemma {:induction false} StoppedCountdownStaysStopped(s: State, events: seq<Event>)
    requires Inv(s) && s.phase != Rendered && !s.intervalLive
    ensures var r := Run(s, events);
      && r.timer == s.timer && r.timerExpired == s.timerExpired && !r.IntervalScheduled()
    decreases |events|
  {
    if events != [] {
      var s' := Step(s, events[0]);
      StepPreservesInv(s, events[0]);
      assert s'.timer == s.timer && s'.timerExpired == s.timerExpired && !s'.intervalLive && s'.phase != Rendered by {
        match events[0]
        case Mount =>
        case UserEvent(name) =>
        case Tick =>
        case RouteChangeStart =>
        case RouteChangeComplete =>
        case AnimationFrame =>
        case Unmount =>
      }
      StoppedCountdownStaysStopped(s', events[1..]);
    }
  }

  /** So a click before expiry stops the countdown for good: whatever follows,
      navigations included, the counter stays where the click left it and the
      expiry flag stays false. */
  lemma ClickStopsCountdownForGood(hasRouter: bool, later: seq<Event>)
    ensures var clicked := OnUserEvent(OnMount(Init(hasRouter)), "click");
      var r := Run(clicked, later);
      && clicked.HasInteracted()
      && r.timer == InitialTimer && !r.timerExpired && !r.IntervalScheduled()
  {
    var s := OnMount(Init(hasRouter));
    InitSatisfiesInv(hasRouter);
    MountPreservesInv(Init(hasRouter));
    UserEventPreservesInv(s, "click");
    StoppedCountdownStaysStopped(OnUserEvent(s, "click"), later);
  }

  // ----- the signal -----

  lemma HasInteractedOnlyResetByRouteStart(s: State, e: Event)
    ensures !e.RouteChangeStart? && s.HasInteracted() ==> Step(s, e).HasInteracted()
    ensures e.RouteChangeStart? && RouteChangeStartName in s.subscribed ==>
      (Step(s, e).HasInteracted() <==> s.timerExpired)
  {
  }

  // ----- the router hook -----

  lemma NoRouterIgnoresRouteEvents(s: State)
    requires Inv(s) && !s.hasRouter
    ensures s.subscribed == {}
    ensures OnRouteChangeStart(s) == s && OnRouteChangeComplete(s) == s
  {
  }

  /** Route start removes the listeners only if they are active and clears
      the user flag unconditionally; it touches neither the counter, the
      interval nor the expiry flag. */
  lemma RouteStartStep(s: State)
    requires Inv(s) && s.phase == Mounted && s.hasRouter
    ensures var r := OnRouteChangeStart(s);
      && !r.userTriggered && !r.listenersActive && r.registered == {}
      && r.timer == s.timer && r.intervalLive == s.intervalLive && r.timerExpired == s.timerExpired
      && r.pendingFrames == s.pendingFrames
  {
  }

  /** Route completion only queues the frame re-add; it touches no timer. */
  lemma RouteCompleteStep(s: State)
    requires Inv(s) && s.phase == Mounted && s.hasRouter
    ensures OnRouteChangeComplete(s) == s.(pendingFrames := s.pendingFrames + 1)
  {
  }

  lemma FrameStep(s: State)
    requires Inv(s) && s.phase == Mounted && s.pendingFrames > 0
    ensures var r := OnAnimationFrame(s);
      && r.pendingFrames == s.pendingFrames - 1 && r.listenersActive && r.registered == TrackedSet()
      && r.userTriggered == s.userTriggered && r.timerExpired == s.timerExpired && r.timer == s.timer
      && r.intervalLive == s.intervalLive
  {
  }

  /** A navigation re-arms the listeners with the user flag cleared, and a
      click afterwards makes `hasInteracted` true again. */
  lemma NavigationRestoresTracking(s: State)
    requires Inv(s) && s.phase == Mounted && s.hasRouter
    ensures var r := Run(s, [RouteChangeStart, RouteChangeComplete, AnimationFrame]);
      && !r.userTriggered && r.listenersActive && r.registered == TrackedSet()
      && r.timer == s.timer && r.timerExpired == s.timerExpired && r.intervalLive == s.intervalLive
      && OnUserEvent(r, "click").HasInteracted()
  {
    var s1 := OnRouteChangeStart(s);
    RouteStartStep(s);
    RouteStartPreservesInv(s);
    var s2 := OnRouteChangeComplete(s1);
    RouteCompleteStep(s1);
    var s3 := OnAnimationFrame(s2);
    FrameStep(s2);
    FramePreservesInv(s2);
    UserEventStep(s3, "click");
    assert Run(s, [RouteChangeStart, RouteChangeComplete, AnimationFrame]) == s3 by {
      assert [RouteChangeStart, RouteChangeComplete, AnimationFrame][1..] == [RouteChangeComplete, AnimationFrame];
      assert [RouteChangeComplete, AnimationFrame][1..] == [AnimationFrame];
      assert [AnimationFrame][1..] == [];
    }
  }

  /** Two completions before the next paint queue two re-adds. A click
      between the frames removes the listeners, the second frame puts them
      back with the user flag still set, and, since the flag does not change
      again, no effect removes them: later clicks change nothing. */
  lemma SecondFrameKeepsListenersAfterInteraction(s: State)
    requires Inv(s) && s.phase == Mounted && s.hasRouter
    ensures var r := Run(s, [RouteChangeStart, RouteChangeComplete, RouteChangeComplete,
                             AnimationFrame, UserEvent("click"), AnimationFrame]);
      && r.userTriggered && r.listenersActive && r.registered == TrackedSet()
      && OnUserEvent(r, "click") == r
  {
    var s1 := OnRouteChangeStart(s);
    RouteStartStep(s);
    RouteStartPreservesInv(s);
    var s2 := OnRouteChangeComplete(s1);
    var s3 := OnRouteChangeComplete(s2);
    RouteCompletePreservesInv(s1);
    RouteCompletePreservesInv(s2);
    var s4 := OnAnimationFrame(s3);
    FrameStep(s3);
    FramePreservesInv(s3);
    var s5 := OnUserEvent(s4, "click");
    UserEventStep(s4, "click");
    UserEventPreservesInv(s4, "click");
    var s6 := OnAnimationFrame(s5);
    assert s6.userTriggered && s6.listenersActive && s6.registered == TrackedSet();
    var evs := [RouteChangeStart, RouteChangeComplete, RouteChangeComplete,
                AnimationFrame, UserEvent("click"), AnimationFrame];
    assert Run(s, evs) == s6 by {
      assert evs[1..] == [RouteChangeComplete, RouteChangeComplete, AnimationFrame, UserEvent("click"), AnimationFrame];
      assert evs[2..] == [RouteChangeComplete, AnimationFrame, UserEvent("click"), AnimationFrame];
      assert evs[3..] == [AnimationFrame, UserEvent("click"), AnimationFrame];
      assert evs[4..] == [UserEvent("click"), AnimationFrame];
      assert evs[5..] == [AnimationFrame];
      assert evs[6..] == [];
      assert Run(s, evs) == Run(s1, evs[1..]);
      assert Run(s1, evs[1..]) == Run(s2, evs[2..]);
      assert Run(s2, evs[2..]) == Run(s3, evs[3..]);
      assert Run(s3, evs[3..]) == Run(s4, evs[4..]);
      assert Run(s4, evs[4..]) == Run(s5, evs[5..]);
      assert Run(s5, evs[5..]) == Run(s6, evs[6..]);
    }
  }

  // ----- unmount -----

  lemma UnmountStep(s: State)
    requires Inv(s) && s.phase == Mounted
    ensures var r := OnUnmount(s);
      && r.phase == Unmounted && r.registered == {} && r.subscribed == {} && !r.IntervalScheduled()
      && r.userTriggered == s.userTriggered && r.timerExpired == s.timerExpired && r.timer == s.timer
  {
  }

  /** As in the current revision, the frame callback is never cancelled. */
  lemma FrameAfterUnmountReaddsListeners(s: State)
    requires s.phase == Unmounted && s.pendingFrames > 0
    ensures OnAnimationFrame(s).registered == s.registered + TrackedSet()
  {
  }
}
