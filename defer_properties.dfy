/** What the current revision promises, proved about the functions of `DeferModel`. */
module DeferProperties {
  import opened Wrappers
  import opened HostEvents
  import opened DeferModel
  import Gate

  // ----- the reachable-state invariant -----

  lemma InitSatisfiesInv(timeout: Option<int>, hasRouter: bool)
    ensures Inv(Init(timeout, hasRouter))
  {
  }

  lemma MountPreservesInv(s: State) requires Inv(s) ensures Inv(OnMount(s)) {}
  lemma UserEventPreservesInv(s: State, name: string) requires Inv(s) ensures Inv(OnUserEvent(s, name)) {}
  lemma TickPreservesInv(s: State) requires Inv(s) ensures Inv(OnTick(s)) {}
  lemma RouteStartPreservesInv(s: State) requires Inv(s) ensures Inv(OnRouteChangeStart(s)) {}
  lemma RouteCompletePreservesInv(s: State) requires Inv(s) ensures Inv(OnRouteChangeComplete(s)) {}
  lemma FramePreservesInv(s: State) requires Inv(s) ensures Inv(OnAnimationFrame(s)) {}
  lemma UnmountPreservesInv(s: State) requires Inv(s) ensures Inv(OnUnmount(s)) {}

  /** Every event keeps the invariant. */
  lemma StepPreservesInv(s: State, e: Event)
    requires Inv(s)
    ensures Inv(Step(s, e))
  {
    match e
    case Mount => MountPreservesInv(s);
    case UserEvent(name) => UserEventPreservesInv(s, name);
    case Tick => TickPreservesInv(s);
    case RouteChangeStart => RouteStartPreservesInv(s);
    case RouteChangeComplete => RouteCompletePreservesInv(s);
    case AnimationFrame => FramePreservesInv(s);
    case Unmount => UnmountPreservesInv(s);
  }

  lemma {:induction false} RunPreservesInv(s: State, events: seq<Event>)
    requires Inv(s)
    ensures Inv(Run(s, events))
    decreases |events|
  {
    if events != [] {
      StepPreservesInv(s, events[0]);
      RunPreservesInv(Step(s, events[0]), events[1..]);
    }
  }

  /** The configuration captured at the first render never changes. */
  lemma {:induction false} RunKeepsConfiguration(s: State, events: seq<Event>)
    ensures var r := Run(s, events);
      r.timeout == s.timeout && r.disabled == s.disabled && r.hasRouter == s.hasRouter
    decreases |events|
  {
    if events != [] {
      RunKeepsConfiguration(Step(s, events[0]), events[1..]);
    }
  }

  /** Whatever the host delivers after the first render, the invariant holds
      and the configuration is the one the first render captured. */
  lemma ReachableStatesSatisfyInv(timeout: Option<int>, hasRouter: bool, events: seq<Event>)
    ensures var r := Run(Init(timeout, hasRouter), events);
      && Inv(r) && r.timeout == EffectiveTimeout(timeout) && r.hasRouter == hasRouter
      && (r.disabled <==> EffectiveTimeout(timeout) == 0)
  {
    RunPreservesInv(Init(timeout, hasRouter), events);
    RunKeepsConfiguration(Init(timeout, hasRouter), events);
  }

  // ----- the timeout -----

  /** A timeout of 0 disables the timer for good: no interval is ever
      scheduled, the expiry flag is never set, and only a user event can make
      `hasInteracted` true. */
  lemma DisabledTimerNeverExpires(hasRouter: bool, events: seq<Event>)
    ensures var s := Run(Init(Some(0), hasRouter), events);
      && s.disabled && !s.timerExpired && !s.IntervalScheduled()
      && (s.HasInteracted() <==> s.userTriggered)
  {
    ReachableStatesSatisfyInv(Some(0), hasRouter, events);
  }

  /** With the timer disabled, `startTimer` and `endTimer` do nothing and the
      timer effect returns at once, leaving no cleanup. */
  lemma DisabledTimerHelpersDoNothing(s: State)
    requires s.disabled
    ensures StartTimer(s) == s && EndTimer(s) == s
    ensures TimerEffect(s) == s.(timerCleanup := false)
  {
  }

  /** Without a window event the user flag, once clear, stays clear: only
      `handleInteraction` sets it. */
  lemma {:induction false} NoWindowEventKeepsUserClear(s: State, events: seq<Event>)
    requires Inv(s) && !s.userTriggered
    requires forall i :: 0 <= i < |events| ==> !events[i].UserEvent?
    ensures !Run(s, events).userTriggered
    decreases |events|
  {
    if events != [] {
      StepPreservesInv(s, events[0]);
      NoWindowEventKeepsUserClear(Step(s, events[0]), events[1..]);
    }
  }

  /** With timeout 0 a window event is the only way to open the gate:
      whatever else arrives, `hasInteracted` stays false and
      `afterInteraction` returns nothing. */
  lemma DisabledNeedsAWindowEvent<T>(hasRouter: bool, events: seq<Event>, callback: () -> T)
    requires forall i :: 0 <= i < |events| ==> !events[i].UserEvent?
    ensures !Run(Init(Some(0), hasRouter), events).HasInteracted()
    ensures Gate.AfterInteraction(Run(Init(Some(0), hasRouter), events).HasInteracted(), callback).None?
  {
    InitSatisfiesInv(Some(0), hasRouter);
    DisabledTimerNeverExpires(hasRouter, events);
    NoWindowEventKeepsUserClear(Init(Some(0), hasRouter), events);
  }

  /** The strict `timer === 0` test can only hold for a positive timeout that
      is a whole number of ticks: any other timeout never expires, whatever
      events arrive. */
  lemma ExpiryNeedsWholeTicks(timeout: int, hasRouter: bool, events: seq<Event>)
    ensures Run(Init(Some(timeout), hasRouter), events).timerExpired ==> timeout > 0 && timeout % TickMillis == 0
  {
    ReachableStatesSatisfyInv(Some(timeout), hasRouter, events);
  }

  /** A mounted countdown `m` ticks from zero with nothing else going on. */
  ghost predicate CountingDown(s: State, m: nat) {
    && Inv(s) && s.phase == Mounted && !s.disabled
    && !s.userTriggered && !s.timerExpired && s.listenersActive
    && s.intervalLive && s.leakedIntervals == 0
    && s.timer == m * TickMillis && m > 0
  }

  /** From a running countdown `m` ticks from zero, `n <= m` ticks leave it
      running `m - n` ticks from zero, and the `m`-th tick expires it: the
      counter reaches exactly 0, the expiry flag is set, no interval is left
      and the listeners are removed. */
  lemma {:induction false} CountdownFrom(s: State, m: nat, n: nat)
    requires CountingDown(s, m) && n <= m
    ensures var r := Run(s, Ticks(n));
      && (n < m ==> CountingDown(r, m - n))
      && (n == m ==> r.timer == 0 && r.timerExpired && !r.IntervalScheduled()
                     && !r.listenersActive && r.registered == {} && r.HasInteracted())
    decreases n
  {
    if n > 0 {
      var s' := OnTick(s);
      TickPreservesInv(s);
      assert Ticks(n)[0] == Tick && Ticks(n)[1..] == Ticks(n - 1);
      assert Run(s, Ticks(n)) == Run(s', Ticks(n - 1));
      if m == 1 {
        assert s'.timerExpired && !s'.IntervalScheduled();
      } else {
        assert CountingDown(s', m - 1);
        CountdownFrom(s', m - 1, n - 1);
      }
    }
  }

  /** With a timeout of `k` whole ticks and no user event, `hasInteracted`
      stays false for the first `k - 1` ticks after mount and becomes true
      at exactly the `k`-th. */
  lemma MountedCountdownExpires(k: nat, hasRouter: bool, n: nat)
    requires k > 0 && n <= k
    ensures var r := Run(OnMount(Init(Some(k * TickMillis), hasRouter)), Ticks(n));
      && (r.HasInteracted() <==> n == k)
      && (n == k ==> r.timer == 0 && !r.IntervalScheduled() && !r.listenersActive)
  {
    var s := OnMount(Init(Some(k * TickMillis), hasRouter));
    InitSatisfiesInv(Some(k * TickMillis), hasRouter);
    MountPreservesInv(Init(Some(k * TickMillis), hasRouter));
    assert CountingDown(s, k);
    CountdownFrom(s, k, n);
  }

  /** What a consumer sees during the countdown: `afterInteraction` returns
      nothing for the first `k - 1` ticks after mount and the callback's
      result from the `k`-th on. */
  lemma GateFollowsCountdown<T>(k: nat, hasRouter: bool, n: nat, callback: () -> T)
    requires k > 0 && n <= k
    ensures var r := Run(OnMount(Init(Some(k * TickMillis), hasRouter)), Ticks(n));
      Gate.AfterInteraction(r.HasInteracted(), callback) == if n == k then Some(callback()) else None
  {
    MountedCountdownExpires(k, hasRouter, n);
  }

  /** Without a timeout the provider falls back to 10000 ms: ten ticks. */
  lemma DefaultTimeoutExpiresAfterTenTicks(hasRouter: bool)
    ensures !Run(OnMount(Init(None, hasRouter)), Ticks(9)).HasInteracted()
    ensures Run(OnMount(Init(None, hasRouter)), Ticks(10)).HasInteracted()
  {
    assert Init(None, hasRouter) == Init(Some(10 * TickMillis), hasRouter);
    MountedCountdownExpires(10, hasRouter, 9);
    MountedCountdownExpires(10, hasRouter, 10);
  }

  /** One firing of an interval subtracts exactly 1000. At 0 the expiry flag
      is set, the listeners are removed and no interval is started (the
      cleanup clears the current one). At any other value a fresh interval is
      started, unless the user flag stops it at once. The firing leaks the
      current interval only when the counter had already reached 0, because
      the expiry branch left no cleanup. */
  lemma TickStep(s: State)
    requires Inv(s) && s.phase == Mounted && s.IntervalScheduled()
    ensures var r := OnTick(s);
      && !s.disabled
      && r.timer == s.timer - TickMillis
      && (r.timerExpired <==> s.timerExpired || r.timer == 0)
      && (r.timer == 0 ==> !r.intervalLive && !r.listenersActive && r.registered == {})
      && (r.timer != 0 ==> (r.intervalLive <==> !r.userTriggered))
      && r.leakedIntervals == s.leakedIntervals + (if s.timer == 0 && s.intervalLive then 1 else 0)
      && r.userTriggered == s.userTriggered && r.phase == Mounted
  {
  }

  /** The counter and the expiry flag change only through ticks. */
  lemma OnlyTicksMoveCountdown(s: State, e: Event)
    requires Inv(s) && !e.Tick?
    ensures Step(s, e).timer == s.timer
    ensures Step(s, e).timerExpired == s.timerExpired
  {
    match e
    case Mount =>
    case UserEvent(_) =>
    case Tick =>
    case RouteChangeStart =>
    case RouteChangeComplete =>
    case AnimationFrame =>
    case Unmount =>
  }

  // ----- user events -----

  /** A window event reaches the handler exactly when its name is click,
      touchstart or scroll and the listeners are active; the handler only
      ever sets the user flag, and the settled effects then remove the
      listeners and stop the timer. Any other event changes nothing. */
  lemma UserEventStep(s: State, name: string)
    requires Inv(s) && s.phase == Mounted
    ensures var r := OnUserEvent(s, name);
      && (name in s.registered <==> name in EventNames && s.listenersActive)
      && (name in s.registered ==>
            && r.userTriggered && r.HasInteracted()
            && !r.listenersActive && r.registered == {} && !r.intervalLive
            && r.timer == s.timer && r.timerExpired == s.timerExpired)
      && (name !in s.registered ==> r == s)
  {
  }

  /** Delivering the same event again changes nothing more. */
  lemma UserEventIdempotent(s: State, name: string)
    requires Inv(s)
    ensures OnUserEvent(OnUserEvent(s, name), name) == OnUserEvent(s, name)
  {
  }

  /** Once the user flag is set and no interval is scheduled, no event other
      than a route event can move the counter, set the expiry flag or clear
      the user flag. */
  lemma {:induction false} InteractionFreezesCountdown(s: State, events: seq<Event>)
    requires Inv(s) && s.phase != Rendered && s.userTriggered && !s.IntervalScheduled()
    requires forall i :: 0 <= i < |events| ==> !events[i].RouteChangeStart? && !events[i].RouteChangeComplete?
    ensures var r := Run(s, events);
      && r.timer == s.timer && r.timerExpired == s.timerExpired
      && r.userTriggered && !r.IntervalScheduled()
    decreases |events|
  {
    if events != [] {
      var s' := Step(s, events[0]);
      StepPreservesInv(s, events[0]);
      InteractionFreezesCountdown(s', events[1..]);
    }
  }

  /** The scenario of a click before expiry: after mount with any timeout, a
      click makes `hasInteracted` true at once and no later tick or other
      non-route event can change the counter. */
  lemma ClickStopsTimer(timeout: Option<int>, hasRouter: bool, later: seq<Event>)
    requires forall i :: 0 <= i < |later| ==> !later[i].RouteChangeStart? && !later[i].RouteChangeComplete?
    ensures var clicked := OnUserEvent(OnMount(Init(timeout, hasRouter)), "click");
      && clicked.HasInteracted() && !clicked.IntervalScheduled()
      && Run(clicked, later).timer == EffectiveTimeout(timeout)
      && Run(clicked, later).HasInteracted()
  {
    var s := OnMount(Init(timeout, hasRouter));
    InitSatisfiesInv(timeout, hasRouter);
    MountPreservesInv(Init(timeout, hasRouter));
    UserEventPreservesInv(s, "click");
    InteractionFreezesCountdown(OnUserEvent(s, "click"), later);
  }

  /** After a click the gate stays open for every later non-route event. */
  lemma GateOpensOnClick<T>(timeout: Option<int>, hasRouter: bool, later: seq<Event>, callback: () -> T)
    requires forall i :: 0 <= i < |later| ==> !later[i].RouteChangeStart? && !later[i].RouteChangeComplete?
    ensures var r := Run(OnUserEvent(OnMount(Init(timeout, hasRouter)), "click"), later);
      Gate.AfterInteraction(r.HasInteracted(), callback) == Some(callback())
  {
    ClickStopsTimer(timeout, hasRouter, later);
  }

  // ----- the signal -----

  /** `hasInteracted` never falls back to false, except on route start, which
      clears the user flag only: after it the signal equals the expiry flag. */
  lemma HasInteractedOnlyResetByRouteStart(s: State, e: Event)
    ensures !e.RouteChangeStart? && s.HasInteracted() ==> Step(s, e).HasInteracted()
    ensures e.RouteChangeStart? && RouteChangeStartName in s.subscribed ==>
      (Step(s, e).HasInteracted() <==> s.timerExpired)
  {
  }

  // ----- the router -----

  /** Without a router nothing is subscribed and route events change nothing. */
  lemma NoRouterIgnoresRouteEvents(s: State)
    requires Inv(s) && !s.hasRouter
    ensures s.subscribed == {}
    ensures OnRouteChangeStart(s) == s && OnRouteChangeComplete(s) == s
  {
  }

  /** With a router, mount subscribes exactly the two handlers, adds the
      three listeners and starts the countdown unless it is disabled. */
  lemma MountStep(s: State)
    requires Inv(s) && s.phase == Rendered
    ensures var r := OnMount(s);
      && r.phase == Mounted && r.listenersActive && r.registered == TrackedSet()
      && r.subscribed == (if s.hasRouter then {RouteChangeStartName, RouteChangeCompleteName} else {})
      && (r.intervalLive <==> !s.disabled) && !r.HasInteracted() && r.timer == s.timeout
  {
  }

  /** Route start: with listeners active it removes them and stops the timer;
      with listeners inactive it touches neither. Either way the user flag
      becomes false, while the expiry flag and the counter are untouched. */
  lemma RouteStartStep(s: State)
    requires Inv(s) && s.phase == Mounted && s.hasRouter
    ensures var r := OnRouteChangeStart(s);
      && !r.userTriggered && r.timerExpired == s.timerExpired && r.timer == s.timer
      && r.HasInteracted() == s.timerExpired
      && !r.listenersActive && r.registered == {}
      && (s.listenersActive && !s.disabled ==> !r.intervalLive)
      && (!s.listenersActive ==> r.intervalLive == s.intervalLive)
      && r.leakedIntervals == s.leakedIntervals && r.pendingFrames == s.pendingFrames
  {
  }

  /** Route completion starts the timer at once, from the current counter,
      and leaves the listeners as they are until the next frame re-adds them.
      Starting over a still-scheduled interval leaks it. */
  lemma RouteCompleteStep(s: State)
    requires Inv(s) && s.phase == Mounted && s.hasRouter
    ensures var r := OnRouteChangeComplete(s);
      && r.pendingFrames == s.pendingFrames + 1 && r.timer == s.timer && r.timerExpired == s.timerExpired
      && r.listenersActive == s.listenersActive && r.registered == s.registered
      && r.userTriggered == s.userTriggered
      && (r.intervalLive <==> !s.disabled)
      && r.leakedIntervals == s.leakedIntervals + (if s.intervalLive then 1 else 0)
  {
  }

  /** The queued frame re-adds the three listeners. With the user flag clear
      they stay on; with it set (a click between two queued frames) the effect
      that removes listeners on interaction takes them off again in the same
      commit. Either way one frame is consumed and the user flag, the timer
      and the interval are untouched. */
  lemma FrameStep(s: State)
    requires Inv(s) && s.phase == Mounted && s.pendingFrames > 0
    ensures var r := OnAnimationFrame(s);
      && r.pendingFrames == s.pendingFrames - 1
      && (!s.userTriggered ==> r.listenersActive && r.registered == TrackedSet())
      && (s.userTriggered ==> !r.listenersActive && r.registered == {})
      && r.userTriggered == s.userTriggered && r.timerExpired == s.timerExpired && r.timer == s.timer
      && r.intervalLive == s.intervalLive && r.leakedIntervals == s.leakedIntervals
  {
  }

  /** A navigation (start, complete, next frame) re-arms the listeners with
      the user flag cleared, leaves the counter where it was, and a click
      afterwards makes `hasInteracted` true again. */
  lemma NavigationRestoresTracking(s: State)
    requires Inv(s) && s.phase == Mounted && s.hasRouter
    ensures var r := Run(s, [RouteChangeStart, RouteChangeComplete, AnimationFrame]);
      && !r.userTriggered && r.listenersActive && r.registered == TrackedSet()
      && r.timer == s.timer && r.timerExpired == s.timerExpired
      && (r.intervalLive <==> !s.disabled) && r.pendingFrames == s.pendingFrames
      && OnUserEvent(r, "click").HasInteracted()
  {
    var s1 := OnRouteChangeStart(s);
    RouteStartStep(s);
    RouteStartPreservesInv(s);
    var s2 := OnRouteChangeComplete(s1);
    RouteCompleteStep(s1);
    RouteCompletePreservesInv(s1);
    var s3 := OnAnimationFrame(s2);
    FrameStep(s2);
    FramePreservesInv(s2);
    UserEventStep(s3, "click");
    assert Run(s, [RouteChangeStart, RouteChangeComplete, AnimationFrame]) == s3 by {
      assert [RouteChangeStart, RouteChangeComplete, AnimationFrame][1..] == [RouteChangeComplete, AnimationFrame];
      assert [RouteChangeComplete, AnimationFrame][1..] == [AnimationFrame];
      assert [AnimationFrame][1..] == [];
    }
  }

  // ----- unmount -----

  /** Unmount removes the listeners from the window, unsubscribes from the
      router and clears the current interval if the timer effect left a
      cleanup; the state itself is frozen. */
  lemma UnmountStep(s: State)
    requires Inv(s) && s.phase == Mounted
    ensures var r := OnUnmount(s);
      && r.phase == Unmounted && r.registered == {} && r.subscribed == {}
      && (s.timerCleanup ==> !r.intervalLive)
      && r.userTriggered == s.userTriggered && r.timerExpired == s.timerExpired && r.timer == s.timer
      && r.pendingFrames == s.pendingFrames && r.leakedIntervals == s.leakedIntervals
  {
  }

  /** The frame callback is never cancelled: one still queued at unmount
      re-adds the three listeners to the window afterwards. */
  lemma FrameAfterUnmountReaddsListeners(s: State)
    requires s.phase == Unmounted && s.pendingFrames > 0
    ensures OnAnimationFrame(s).registered == s.registered + TrackedSet()
    ensures OnAnimationFrame(s).phase == Unmounted
  {
  }

  // ----- two consequences of the code as written -----

  /** After the countdown has expired, a navigation restarts the interval
      with the counter at 0. The expiry branch of the timer effect returned no
      cleanup, so the next firing starts a second interval over the first:
      one interval is left that nothing clears, not even unmount. */
  lemma ExpiredNavigationLeaksInterval()
    ensures var s0 := OnMount(Init(Some(TickMillis), true));
      var s1 := OnTick(s0);
      var s4 := OnTick(OnRouteChangeComplete(OnRouteChangeStart(s1)));
      && s1.timerExpired && s1.timer == 0 && !s1.IntervalScheduled()
      && s4.timer == -TickMillis && s4.leakedIntervals == 1
      && OnUnmount(s4).IntervalScheduled()
  {
  }

  /** Two navigations in a row before the deferred frame: the second start
      finds the listeners inactive, so it does not stop the timer the first
      completion started, and the second completion overwrites its handle. */
  lemma DoubleNavigationLeaksInterval()
    ensures var s0 := OnMount(Init(Some(3 * TickMillis), true));
      var s2 := OnRouteChangeComplete(OnRouteChangeStart(s0));
      var s4 := OnRouteChangeComplete(OnRouteChangeStart(s2));
      && s2.pendingFrames == 1 && !s2.listenersActive && s2.leakedIntervals == 0
      && s4.leakedIntervals == 1 && s4.intervalLive
  {
  }
}
