/** The earlier revision of the state machine (src/Provider.tsx with its
    router hook src/useTrackNextRouter.tsx), as values, built the same way as
    `DeferModel`: a counter of 10 stepped by 1 with no way to disable it, a
    `removeEventListeners` that does nothing while the flag is false, one
    effect that cleans up on interaction, and no timer handling on route
    events. */
module LegacyModel {
  import opened HostEvents

  /** The counter's start (src/Provider.tsx:20). */
  const InitialTimer: int := 10

  /** What each interval firing subtracts (src/Provider.tsx:43). */
  const TickStep: int := 1

  /** Fields as in `DeferModel.State`, without the timeout configuration. */
  datatype State = State(
    hasRouter: bool,
    phase: Phase,
    userTriggered: bool,
    listenersActive: bool,
    registered: set<string>,
    timer: int,
    timerExpired: bool,
    intervalLive: bool,
    leakedIntervals: nat,
    timerCleanup: bool,
    pendingFrames: nat,
    subscribed: set<string>)
  {
    /** src/Provider.tsx:23 */
    predicate HasInteracted() {
      userTriggered || timerExpired
    }

    predicate IntervalScheduled() {
      intervalLive || leakedIntervals > 0
    }
  }

  /** The values in the effects' dependency lists at the previous commit. */
  datatype Deps = Deps(timer: int, userTriggered: bool)

  function DepsOf(s: State): Deps {
    Deps(s.timer, s.userTriggered)
  }

  /** What no effect changes. */
  predicate EffectFrame(r: State, s: State) {
    && r.hasRouter == s.hasRouter && r.phase == s.phase
    && r.timer == s.timer && r.userTriggered == s.userTriggered
    && r.pendingFrames == s.pendingFrames && r.subscribed == s.subscribed
    && r.leakedIntervals >= s.leakedIntervals
  }

  /** The first render (src/Provider.tsx:17-23). */
  function Init(hasRouter: bool): (s: State)
    ensures s.timer == InitialTimer && !s.HasInteracted()
    ensures !s.listenersActive && s.registered == {} && !s.IntervalScheduled() && s.subscribed == {}
  {
    State(hasRouter, Rendered, false, false, {}, InitialTimer, false, false, 0, false, 0, {})
  }

  /** `addEventListeners` (src/Provider.tsx:28-31). */
  function AddEventListeners(s: State): (r: State)
    ensures r.hasRouter == s.hasRouter && r.phase == s.phase && r.timer == s.timer
  {
    s.(registered := s.registered + TrackedSet(),
       listenersActive := if s.phase == Unmounted then s.listenersActive else true)
  }

  /** `removeEventListeners` (src/Provider.tsx:32-39): returns at once while
      the flag is false. */
  function RemoveEventListeners(s: State): (r: State)
    ensures EffectFrame(r, s)
  {
    if !s.listenersActive then s
    else s.(registered := s.registered - TrackedSet(),
            listenersActive := if s.phase == Unmounted then s.listenersActive else false)
  }

  /** `startTimer` (src/Provider.tsx:41-45): no disabled check. */
  function StartTimer(s: State): (r: State)
    ensures EffectFrame(r, s)
  {
    s.(intervalLive := true,
       leakedIntervals := if s.intervalLive then s.leakedIntervals + 1 else s.leakedIntervals)
  }

  /** `endTimer` (src/Provider.tsx:46-48). */
  function EndTimer(s: State): (r: State)
    ensures EffectFrame(r, s)
  {
    s.(intervalLive := false)
  }

  /** The timer effect's body (src/Provider.tsx:56-64). */
  function TimerEffect(s: State): (r: State)
    ensures EffectFrame(r, s)
  {
    if s.timer == 0 then s.(timerExpired := true, timerCleanup := false)
    else StartTimer(s).(timerCleanup := true)
  }

  /** The cleanup the timer effect's last run returned, if any (src/Provider.tsx:62). */
  function TimerEffectCleanup(s: State): (r: State)
    ensures EffectFrame(r, s)
  {
    if s.timerCleanup then EndTimer(s).(timerCleanup := false) else s
  }

  /** The effect at src/Provider.tsx:67-74, re-run when the user flag changed. */
  function CleanupOnInteraction(s: State, before: Deps): (r: State)
    ensures EffectFrame(r, s)
  {
    if s.userTriggered != before.userTriggered && s.userTriggered then EndTimer(RemoveEventListeners(s)) else s
  }

  /** The effects after a handler, in declaration order (src/Provider.tsx:56, 67). */
  function Settle(s: State, before: Deps): (r: State)
    ensures EffectFrame(r, s)
  {
    var timerChanged := s.timer != before.timer;
    var s1 := if timerChanged then TimerEffectCleanup(s) else s;
    var s2 := if timerChanged then TimerEffect(s1) else s1;
    CleanupOnInteraction(s2, before)
  }

  /** The subscription effect (src/useTrackNextRouter.tsx:25-37). */
  function Subscribe(s: State): State {
    if s.hasRouter then s.(subscribed := RouteEventSet()) else s
  }

  /** `onRouteChangeStart` (src/useTrackNextRouter.tsx:11-18). */
  function RouteStartHandler(s: State): State {
    var cleaned := if s.listenersActive then RemoveEventListeners(s) else s;
    cleaned.(userTriggered := false)
  }

  /** `onRouteChangeComplete` (src/useTrackNextRouter.tsx:20-23). */
  function RouteCompleteHandler(s: State): State {
    s.(pendingFrames := s.pendingFrames + 1)
  }

  /** First commit: listeners added (src/Provider.tsx:50-54), countdown
      started (56-64), router subscribed. */
  function OnMount(s: State): State {
    if s.phase != Rendered then s
    else Subscribe(TimerEffect(AddEventListeners(s.(phase := Mounted))))
  }

  function OnUserEvent(s: State, name: string): State {
    if s.phase == Mounted && name in s.registered then Settle(s.(userTriggered := true), DepsOf(s))
    else s
  }

  function OnTick(s: State): State {
    if s.phase == Mounted && s.IntervalScheduled() then Settle(s.(timer := s.timer - TickStep), DepsOf(s))
    else s
  }

  function OnRouteChangeStart(s: State): State {
    if RouteChangeStartName in s.subscribed then Settle(RouteStartHandler(s), DepsOf(s)) else s
  }

  function OnRouteChangeComplete(s: State): State {
    if RouteChangeCompleteName in s.subscribed then Settle(RouteCompleteHandler(s), DepsOf(s)) else s
  }

  function OnAnimationFrame(s: State): State {
    if s.pendingFrames > 0 then Settle(AddEventListeners(s.(pendingFrames := s.pendingFrames - 1)), DepsOf(s)) else s
  }

  /** Unmount: the listener cleanup (src/Provider.tsx:53), the timer cleanup
      if one was left (62), the router unsubscription (src/useTrackNextRouter.tsx:33-36). */
  function OnUnmount(s: State): State {
    if s.phase != Mounted then s
    else TimerEffectCleanup(RemoveEventListeners(s.(phase := Unmounted))).(subscribed := {})
  }

  function Step(s: State, e: Event): (r: State)
    ensures r.hasRouter == s.hasRouter
  {
    match e
    case Mount => OnMount(s)
    case UserEvent(name) => OnUserEvent(s, name)
    case Tick => OnTick(s)
    case RouteChangeStart => OnRouteChangeStart(s)
    case RouteChangeComplete => OnRouteChangeComplete(s)
    case AnimationFrame => OnAnimationFrame(s)
    case Unmount => OnUnmount(s)
  }

  function Run(s: State, events: seq<Event>): State
    decreases |events|
  {
    if events == [] then s else Run(Step(s, events[0]), events[1..])
  }

  function Ticks(n: nat): seq<Event> {
    if n == 0 then [] else [Tick] + Ticks(n - 1)
  }

  /** The facts that hold in every state reachable from `Init`. */
  ghost predicate Inv(s: State) {
    && (s.phase == Rendered ==>
          && s.registered == {} && !s.listenersActive && !s.userTriggered && !s.timerExpired
          && !s.intervalLive && !s.timerCleanup && s.pendingFrames == 0 && s.timer == InitialTimer)
    // no interval is ever lost
    && s.leakedIntervals == 0
    // the counter runs from 10 down to 0 and stops there
    && 0 <= s.timer <= InitialTimer
    && (s.timerExpired ==> s.timer == 0)
    && (s.intervalLive ==> s.phase == Mounted && s.timerCleanup && !s.userTriggered)
    && (s.phase == Mounted ==> (s.timerCleanup <==> s.timer != 0))
    && (s.phase == Mounted ==> s.registered == (if s.listenersActive then TrackedSet() else {}))
    && s.subscribed == (if s.phase == Mounted && s.hasRouter then RouteEventSet() else {})
  }
}
