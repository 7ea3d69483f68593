/** The earlier revision's `Provider` (src/Provider.tsx) and its router hook
    (src/useTrackNextRouter.tsx) as an object, built like
    `DeferProvider.DeferState`: one method per host event, each proved to
    produce exactly the state `LegacyModel.Step` gives and to keep
    `LegacyModel.Inv`. */
module LegacyProvider {
  import opened Wrappers
  import opened HostEvents
  import Gate
  import M = LegacyModel
  import P = LegacyProperties

  class LegacyDeferState {
    /** Whether a router was passed. */
    const hasRouter: bool

    var phase: Phase
    /** `hasUserTriggeredEvent` */
    var userTriggered: bool
    /** `areEventListenersCurrentlyActive` */
    var listenersActive: bool
    /** The window event names `handleInteraction` is added under. */
    var registered: set<string>
    var timer: int
    /** `hasTimerExpired` */
    var timerExpired: bool
    /** The interval held in `intervalTimer.current` is scheduled. */
    var intervalLive: bool
    /** Scheduled intervals whose handle was overwritten. */
    var leakedIntervals: nat
    /** The timer effect's last run returned a cleanup. */
    var timerCleanup: bool
    /** `requestAnimationFrame` re-adds of the listeners still queued. */
    var pendingFrames: nat
    /** The router events the hook's handlers are subscribed to. */
    var subscribed: set<string>

    function Snapshot(): M.State
      reads this
    {
      M.State(hasRouter, phase, userTriggered, listenersActive, registered, timer, timerExpired,
              intervalLive, leakedIntervals, timerCleanup, pendingFrames, subscribed)
    }

    ghost predicate Valid()
      reads this
    {
      M.Inv(Snapshot())
    }

    /** The first render (src/Provider.tsx:17-23). */
    constructor (router: bool)
      ensures Valid() && Snapshot() == M.Init(router)
    {
      hasRouter := router;
      phase := Rendered;
      userTriggered, listenersActive, registered := false, false, {};
      timer, timerExpired := M.InitialTimer, false;
      intervalLive, leakedIntervals, timerCleanup := false, 0, false;
      pendingFrames, subscribed := 0, {};
    }

    /** src/Provider.tsx:23 */
    predicate HasInteracted()
      reads this
    {
      userTriggered || timerExpired
    }

    /** The gate handed to consumers (src/Provider.tsx:87-95). */
    function AfterInteraction<T>(callback: () -> T): (r: Option<T>)
      reads this
      ensures r.Some? <==> HasInteracted()
      ensures r.Some? ==> r.value == callback()
    {
      Gate.AfterInteraction(HasInteracted(), callback)
    }

    /** `addEventListeners` (src/Provider.tsx:28-31). */
    method AddEventListeners()
      modifies this
      ensures Snapshot() == M.AddEventListeners(old(Snapshot()))
    {
      for i := 0 to |EventNames|
        invariant Snapshot() == old(Snapshot()).(registered := registered)
        invariant registered == old(registered) + (set name | name in EventNames[..i])
      {
        assert EventNames[..i + 1] == EventNames[..i] + [EventNames[i]];
        registered := registered + {EventNames[i]};
      }
      assert EventNames[..|EventNames|] == EventNames;
      if phase != Unmounted {
        listenersActive := true;
      }
    }

    /** `removeEventListeners` (src/Provider.tsx:32-39): nothing while the
        flag is false. */
    method RemoveEventListeners()
      modifies this
      ensures Snapshot() == M.RemoveEventListeners(old(Snapshot()))
    {
      if !listenersActive {
        return;
      }
      for i := 0 to |EventNames|
        invariant Snapshot() == old(Snapshot()).(registered := registered)
        invariant registered == old(registered) - (set name | name in EventNames[..i])
      {
        assert EventNames[..i + 1] == EventNames[..i] + [EventNames[i]];
        registered := registered - {EventNames[i]};
      }
      assert EventNames[..|EventNames|] == EventNames;
      if phase != Unmounted {
        listenersActive := false;
      }
    }

    /** `startTimer` (src/Provider.tsx:41-45). */
    method StartTimer()
      modifies this
      ensures Snapshot() == M.StartTimer(old(Snapshot()))
    {
      if intervalLive {
        leakedIntervals := leakedIntervals + 1;
      }
      intervalLive := true;
    }

    /** `endTimer` (src/Provider.tsx:46-48). */
    method EndTimer()
      modifies this
      ensures Snapshot() == M.EndTimer(old(Snapshot()))
    {
      intervalLive := false;
    }

    /** The timer effect's body (src/Provider.tsx:56-64). */
    method TimerEffect()
      modifies this
      ensures Snapshot() == M.TimerEffect(old(Snapshot()))
    {
      if timer == 0 {
        timerExpired := true;
        timerCleanup := false;
      } else {
        StartTimer();
        timerCleanup := true;
      }
    }

    /** The cleanup the timer effect's last run returned, if any (src/Provider.tsx:62). */
    method TimerEffectCleanup()
      modifies this
      ensures Snapshot() == M.TimerEffectCleanup(old(Snapshot()))
    {
      if timerCleanup {
        EndTimer();
        timerCleanup := false;
      }
    }

    /** The effect at src/Provider.tsx:67-74. */
    method CleanupOnInteraction(before: M.Deps)
      modifies this
      ensures Snapshot() == M.CleanupOnInteraction(old(Snapshot()), before)
    {
      if userTriggered != before.userTriggered && userTriggered {
        RemoveEventListeners();
        EndTimer();
      }
    }

    /** The effects after a handler, in declaration order. */
    method Settle(before: M.Deps)
      modifies this
      ensures Snapshot() == M.Settle(old(Snapshot()), before)
    {
      var timerChanged := timer != before.timer;
      if timerChanged {
        TimerEffectCleanup();
        TimerEffect();
      }
      CleanupOnInteraction(before);
    }

    /** `onRouteChangeStart` (src/useTrackNextRouter.tsx:11-18). */
    method OnRouteChangeStart()
      modifies this
      ensures Snapshot() == M.RouteStartHandler(old(Snapshot()))
    {
      if listenersActive {
        RemoveEventListeners();
      }
      userTriggered := false;
    }

    /** `onRouteChangeComplete` (src/useTrackNextRouter.tsx:20-23). */
    method OnRouteChangeComplete()
      modifies this
      ensures Snapshot() == M.RouteCompleteHandler(old(Snapshot()))
    {
      pendingFrames := pendingFrames + 1;
    }

    /** The first commit: listener effect, timer effect, router subscription. */
    method Mount()
      requires Valid() && phase == Rendered
      modifies this
      ensures Valid() && Snapshot() == M.Step(old(Snapshot()), Event.Mount)
    {
      ghost var s := Snapshot();
      phase := Mounted;
      AddEventListeners();
      TimerEffect();
      if hasRouter {
        subscribed := RouteEventSet();
      }
      P.MountPreservesInv(s);
    }

    /** A window event named `name`; only a registered name reaches
        `handleInteraction` (src/Provider.tsx:24-26). */
    method UserEvent(name: string)
      requires Valid()
      modifies this
      ensures Valid() && Snapshot() == M.Step(old(Snapshot()), Event.UserEvent(name))
    {
      ghost var s := Snapshot();
      if phase == Mounted && name in registered {
        var before := M.DepsOf(Snapshot());
        userTriggered := true;
        Settle(before);
      }
      P.UserEventPreservesInv(s, name);
    }

    /** One firing of a scheduled interval: `setTimer(prev => prev - 1)`. */
    method Tick()
      requires Valid() && (intervalLive || leakedIntervals > 0)
      modifies this
      ensures Valid() && Snapshot() == M.Step(old(Snapshot()), Event.Tick)
    {
      ghost var s := Snapshot();
      if phase == Mounted {
        var before := M.DepsOf(Snapshot());
        timer := timer - M.TickStep;
        assert Snapshot() == s.(timer := s.timer - M.TickStep);
        Settle(before);
        assert Snapshot() == M.OnTick(s);
      }
      P.TickPreservesInv(s);
    }

    /** The router's `routeChangeStart`, delivered only if subscribed. */
    method RouteChangeStart()
      requires Valid()
      modifies this
      ensures Valid() && Snapshot() == M.Step(old(Snapshot()), Event.RouteChangeStart)
    {
      ghost var s := Snapshot();
      if RouteChangeStartName in subscribed {
        var before := M.DepsOf(Snapshot());
        OnRouteChangeStart();
        Settle(before);
      }
      P.RouteStartPreservesInv(s);
    }

    /** The router's `routeChangeComplete`, delivered only if subscribed. */
    method RouteChangeComplete()
      requires Valid()
      modifies this
      ensures Valid() && Snapshot() == M.Step(old(Snapshot()), Event.RouteChangeComplete)
    {
      ghost var s := Snapshot();
      if RouteChangeCompleteName in subscribed {
        var before := M.DepsOf(Snapshot());
        OnRouteChangeComplete();
        Settle(before);
      }
      P.RouteCompletePreservesInv(s);
    }

    /** The next paint runs one queued `() => addEventListeners()`, mounted or not. */
    method AnimationFrame()
      requires Valid() && pendingFrames > 0
      modifies this
      ensures Valid() && Snapshot() == M.Step(old(Snapshot()), Event.AnimationFrame)
    {
      ghost var s := Snapshot();
      var before := M.DepsOf(Snapshot());
      pendingFrames := pendingFrames - 1;
      AddEventListeners();
      Settle(before);
      P.FramePreservesInv(s);
    }

    /** Unmount: the listener, timer and router cleanups, in declaration order. */
    method Unmount()
      requires Valid() && phase == Mounted
      modifies this
      ensures Valid() && Snapshot() == M.Step(old(Snapshot()), Event.Unmount)
    {
      ghost var s := Snapshot();
      phase := Unmounted;
      RemoveEventListeners();
      TimerEffectCleanup();
      subscribed := {};
      P.UnmountPreservesInv(s);
    }
  }
}
