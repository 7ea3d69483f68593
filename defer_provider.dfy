/** The current revision's `Provider` (src/context/Provider.tsx) as an object
    whose fields are its state, its refs and what it has registered with the
    host. One method per host event runs the handler and then the effects, in
    the order the hooks are declared; each is proved to produce exactly the
    state `DeferModel.Step` gives, and to keep `DeferModel.Inv`. */
module DeferProvider {
  import opened Wrappers
  import opened HostEvents
  import Gate
  import M = DeferModel
  import P = DeferProperties

  class DeferState {
    /** The timeout prop after its default, fixed at the first render. */
    const timeout: int
    /** `isTimerDisabledByCaller`, captured once from `timeout === 0`. */
    const disabled: bool
    /** Whether a router was passed. */
    const hasRouter: bool

    var phase: Phase
    /** `hasUserTriggeredEvent` */
    var userTriggered: bool
    /** `areEventListenersCurrentlyActive` */
    var listenersActive: bool
    /** The window event names `handleInteraction` is added under. */
    var registered: set<string>
    var timer: int
    /** `hasTimerExpired` */
    var timerExpired: bool
    /** The interval held in `intervalTimer.current` is scheduled. */
    var intervalLive: bool
    /** Scheduled intervals whose handle was overwritten. */
    var leakedIntervals: nat
    /** The timer effect's last run returned a cleanup. */
    var timerCleanup: bool
    /** `requestAnimationFrame` re-adds of the listeners still queued. */
    var pendingFrames: nat
    /** The router events this provider's handlers are subscribed to. */
    var subscribed: set<string>

    function Snapshot(): M.State
      reads this
    {
      M.State(timeout, disabled, hasRouter, phase, userTriggered, listenersActive, registered,
              timer, timerExpired, intervalLive, leakedIntervals, timerCleanup, pendingFrames, subscribed)
    }

    ghost predicate Valid()
      reads this
    {
      M.Inv(Snapshot())
    }

    /** The first render (src/context/Provider.tsx:16-22). */
    constructor (timeoutProp: Option<int>, router: bool)
      ensures Valid() && Snapshot() == M.Init(timeoutProp, router)
    {
      var t := timeoutProp.GetOr(M.DefaultTimeout);
      timeout, disabled, hasRouter := t, t == 0, router;
      phase := Rendered;
      userTriggered, listenersActive, registered := false, false, {};
      timer, timerExpired := t, false;
      intervalLive, leakedIntervals, timerCleanup := false, 0, false;
      pendingFrames, subscribed := 0, {};
    }

    /** src/context/Provider.tsx:23 */
    predicate HasInteracted()
      reads this
    {
      userTriggered || timerExpired
    }

    /** The gate handed to consumers (src/context/Provider.tsx:67-75). */
    function AfterInteraction<T>(callback: () -> T): (r: Option<T>)
      reads this
      ensures r.Some? <==> HasInteracted()
      ensures r.Some? ==> r.value == callback()
    {
      Gate.AfterInteraction(HasInteracted(), callback)
    }

    // ----- src/effects/useTrackUserEvents.ts -----

    /** `addEventListeners`: one `window.addEventListener` per tracked name
        (adding a name twice leaves one registration), then the active flag. */
    method AddEventListeners()
      modifies this
      ensures Snapshot() == M.AddEventListeners(old(Snapshot()))
    {
      for i := 0 to |EventNames|
        invariant Snapshot() == old(Snapshot()).(registered := registered)
        invariant registered == old(registered) + (set name | name in EventNames[..i])
      {
        assert EventNames[..i + 1] == EventNames[..i] + [EventNames[i]];
        registered := registered + {EventNames[i]};
      }
      assert EventNames[..|EventNames|] == EventNames;
      if phase != Unmounted {
        listenersActive := true;
      }
    }

    /** `removeEventListeners`: one `window.removeEventListener` per tracked
        name, whatever the flag says, then the flag. */
    method RemoveEventListeners()
      modifies this
      ensures Snapshot() == M.RemoveEventListeners(old(Snapshot()))
    {
      for i := 0 to |EventNames|
        invariant Snapshot() == old(Snapshot()).(registered := registered)
        invariant registered == old(registered) - (set name | name in EventNames[..i])
      {
        assert EventNames[..i + 1] == EventNames[..i] + [EventNames[i]];
        registered := registered - {EventNames[i]};
      }
      assert EventNames[..|EventNames|] == EventNames;
      if phase != Unmounted {
        listenersActive := false;
      }
    }

    /** `handleInteraction` (lines 17-19), with the update dropped after unmount. */
    method HandleInteraction()
      modifies this
      ensures Snapshot() == if old(phase) == Unmounted then old(Snapshot()) else old(Snapshot()).(userTriggered := true)
    {
      if phase != Unmounted {
        userTriggered := true;
      }
    }

    /** The effect at lines 30-34. */
    method RemoveListenersOnInteraction(before: M.Deps)
      modifies this
      ensures Snapshot() == M.RemoveListenersOnInteraction(old(Snapshot()), before)
    {
      if (listenersActive != before.listenersActive || userTriggered != before.userTriggered)
         && listenersActive && userTriggered {
        RemoveEventListeners();
      }
    }

    // ----- src/effects/useTrackTimer.ts -----

    /** `startTimer` (lines 16-25). */
    method StartTimer()
      modifies this
      ensures Snapshot() == M.StartTimer(old(Snapshot()))
    {
      if disabled {
        return;
      }
      if intervalLive {
        leakedIntervals := leakedIntervals + 1;
      }
      intervalLive := true;
    }

    /** `endTimer` (lines 26-32). */
    method EndTimer()
      modifies this
      ensures Snapshot() == M.EndTimer(old(Snapshot()))
    {
      if disabled {
        return;
      }
      intervalLive := false;
    }

    /** The timer effect's body (lines 34-46). */
    method TimerEffect()
      modifies this
      ensures Snapshot() == M.TimerEffect(old(Snapshot()))
    {
      if disabled {
        timerCleanup := false;
        return;
      }
      if timer == 0 {
        timerExpired := true;
        timerCleanup := false;
      } else {
        StartTimer();
        timerCleanup := true;
      }
    }

    /** The cleanup the timer effect's last run returned, if any (line 44). */
    method TimerEffectCleanup()
      modifies this
      ensures Snapshot() == M.TimerEffectCleanup(old(Snapshot()))
    {
      if timerCleanup {
        EndTimer();
        timerCleanup := false;
      }
    }

    // ----- src/context/Provider.tsx -----

    /** The effect at lines 40-45. */
    method EndTimerOnInteraction(before: M.Deps)
      modifies this
      ensures Snapshot() == M.EndTimerOnInteraction(old(Snapshot()), before)
    {
      if (userTriggered != before.userTriggered || timer != before.timer) && userTriggered {
        EndTimer();
      }
    }

    /** The effect at lines 48-53. */
    method RemoveListenersOnExpiry(before: M.Deps)
      modifies this
      ensures Snapshot() == M.RemoveListenersOnExpiry(old(Snapshot()), before)
    {
      if timerExpired != before.timerExpired && timerExpired {
        RemoveEventListeners();
      }
    }

    /** The effects after a handler, in declaration order; `before` holds the
        dependency values of the previous commit. */
    method Settle(before: M.Deps)
      modifies this
      ensures Snapshot() == M.Settle(old(Snapshot()), before)
    {
      var timerChanged := timer != before.timer;
      if timerChanged {
        TimerEffectCleanup();
      }
      RemoveListenersOnInteraction(before);
      if timerChanged {
        TimerEffect();
      }
      EndTimerOnInteraction(before);
      RemoveListenersOnExpiry(before);
    }

    // ----- src/effects/useTrackNextRouter.ts -----

    /** `onRouteChangeStart` (lines 21-30). */
    method OnRouteChangeStart()
      modifies this
      ensures Snapshot() == M.RouteStartHandler(old(Snapshot()))
    {
      if listenersActive {
        RemoveEventListeners();
        EndTimer();
      }
      userTriggered := false;
    }

    /** `onRouteChangeComplete` (lines 32-36). */
    method OnRouteChangeComplete()
      modifies this
      ensures Snapshot() == M.RouteCompleteHandler(old(Snapshot()))
    {
      pendingFrames := pendingFrames + 1;
      StartTimer();
    }

    // ----- the host events -----

    /** The first commit: the listener effect, the timer effect and the router
        subscription run once. */
    method Mount()
      requires Valid() && phase == Rendered
      modifies this
      ensures Valid() && Snapshot() == M.Step(old(Snapshot()), Event.Mount)
    {
      ghost var s := Snapshot();
      phase := Mounted;
      AddEventListeners();
      TimerEffect();
      if hasRouter {
        subscribed := RouteEventSet();
      }
      P.MountPreservesInv(s);
    }

    /** A window event named `name`; only a registered name reaches the handler. */
    method UserEvent(name: string)
      requires Valid()
      modifies this
      ensures Valid() && Snapshot() == M.Step(old(Snapshot()), Event.UserEvent(name))
    {
      ghost var s := Snapshot();
      if phase == Mounted && name in registered {
        var before := M.DepsOf(Snapshot());
        HandleInteraction();
        Settle(before);
      }
      P.UserEventPreservesInv(s, name);
    }

    /** One firing of a scheduled interval: `setTimer(prev => prev - 1000)`. */
    method Tick()
      requires Valid() && (intervalLive || leakedIntervals > 0)
      modifies this
      ensures Valid() && Snapshot() == M.Step(old(Snapshot()), Event.Tick)
    {
      ghost var s := Snapshot();
      if phase == Mounted {
        var before := M.DepsOf(Snapshot());
        timer := timer - M.TickMillis;
        assert Snapshot() == s.(timer := s.timer - M.TickMillis);
        Settle(before);
        assert Snapshot() == M.OnTick(s);
      }
      P.TickPreservesInv(s);
    }

    /** The router's `routeChangeStart`, delivered to our handler only if subscribed. */
    method RouteChangeStart()
      requires Valid()
      modifies this
      ensures Valid() && Snapshot() == M.Step(old(Snapshot()), Event.RouteChangeStart)
    {
      ghost var s := Snapshot();
      if RouteChangeStartName in subscribed {
        var before := M.DepsOf(Snapshot());
        OnRouteChangeStart();
        Settle(before);
      }
      P.RouteStartPreservesInv(s);
    }

    /** The router's `routeChangeComplete`, delivered only if subscribed. */
    method RouteChangeComplete()
      requires Valid()
      modifies this
      ensures Valid() && Snapshot() == M.Step(old(Snapshot()), Event.RouteChangeComplete)
    {
      ghost var s := Snapshot();
      if RouteChangeCompleteName in subscribed {
        var before := M.DepsOf(Snapshot());
        OnRouteChangeComplete();
        Settle(before);
      }
      P.RouteCompletePreservesInv(s);
    }

    /** The next paint runs the queued `() => addEventListeners()`, mounted or not. */
    method AnimationFrame()
      requires Valid() && pendingFrames > 0
      modifies this
      ensures Valid() && Snapshot() == M.Step(old(Snapshot()), Event.AnimationFrame)
    {
      ghost var s := Snapshot();
      var before := M.DepsOf(Snapshot());
      pendingFrames := pendingFrames - 1;
      AddEventListeners();
      Settle(before);
      P.FramePreservesInv(s);
    }

    /** Unmount: the listener, timer and router cleanups, in declaration order. */
    method Unmount()
      requires Valid() && phase == Mounted
      modifies this
      ensures Valid() && Snapshot() == M.Step(old(Snapshot()), Event.Unmount)
    {
      ghost var s := Snapshot();
      phase := Unmounted;
      RemoveEventListeners();
      TimerEffectCleanup();
      subscribed := {};
      P.UnmountPreservesInv(s);
    }
  }
}
