/** The interaction/timeout state machine of the current revision
    (src/context/Provider.tsx with the hooks under src/effects/), as values.

    Each host event is one function on `State`: the handler the source runs,
    followed by `Settle`, the effects React re-runs in declaration order because
    a value in their dependency list changed. The class in `DeferProvider` is
    proved to follow these functions step by step; the lemmas in
    `DeferProperties` state what the functions promise. */
module DeferModel {
  import opened Wrappers
  import opened HostEvents

  /** The timeout used when the provider is given none (src/context/Provider.tsx:16). */
  const DefaultTimeout: int := 10000

  /** What each interval firing subtracts from the counter (src/effects/useTrackTimer.ts:23). */
  const TickMillis: int := 1000

  /** The provider's state. `timeout`, `disabled` and `hasRouter` are fixed at
      the first render. `registered` is the set of window event names the
      interaction handler is currently added under. `intervalLive` says the
      interval held in `intervalTimer.current` is scheduled; `leakedIntervals`
      counts intervals still scheduled whose handle was overwritten, which
      nothing can clear. `timerCleanup` says the timer effect's last run
      returned a cleanup. `pendingFrames` counts the `requestAnimationFrame`
      re-adds of the listeners still queued. `subscribed` holds the router events
      this provider's handlers are on. */
  datatype State = State(
    timeout: int,
    disabled: bool,
    hasRouter: bool,
    phase: Phase,
    userTriggered: bool,
    listenersActive: bool,
    registered: set<string>,
    timer: int,
    timerExpired: bool,
    intervalLive: bool,
    leakedIntervals: nat,
    timerCleanup: bool,
    pendingFrames: nat,
    subscribed: set<string>)
  {
    /** src/context/Provider.tsx:23 */
    predicate HasInteracted() {
      userTriggered || timerExpired
    }

    /** Some interval is still scheduled, so a `Tick` can arrive. */
    predicate IntervalScheduled() {
      intervalLive || leakedIntervals > 0
    }
  }

  /** The values in the effects' dependency lists at the previous commit. */
  datatype Deps = Deps(timer: int, userTriggered: bool, listenersActive: bool, timerExpired: bool)

  /** The parts of the state fixed at the first render. */
  predicate SameConfiguration(a: State, b: State) {
    a.timeout == b.timeout && a.disabled == b.disabled && a.hasRouter == b.hasRouter
  }

  /** What no effect changes: the configuration, the phase, the counter, the
      user flag, the queued frame and the router subscription; leaked
      intervals are never cleared. */
  predicate EffectFrame(r: State, s: State) {
    && SameConfiguration(r, s) && r.phase == s.phase
    && r.timer == s.timer && r.userTriggered == s.userTriggered
    && r.pendingFrames == s.pendingFrames && r.subscribed == s.subscribed
    && r.leakedIntervals >= s.leakedIntervals
  }

  function DepsOf(s: State): Deps {
    Deps(s.timer, s.userTriggered, s.listenersActive, s.timerExpired)
  }

  /** The timeout after the default is applied (src/context/Provider.tsx:16). */
  function EffectiveTimeout(timeout: Option<int>): int {
    timeout.GetOr(DefaultTimeout)
  }

  /** The first render (src/context/Provider.tsx:16-23): both flags false, the
      counter at the timeout, the timer disabled exactly when the timeout is 0. */
  function Init(timeout: Option<int>, hasRouter: bool): (s: State)
    ensures timeout.None? ==> s.timer == DefaultTimeout
    ensures timeout.Some? ==> s.timer == timeout.value
    ensures s.disabled <==> s.timer == 0
    ensures !s.HasInteracted() && !s.listenersActive && s.registered == {}
    ensures !s.IntervalScheduled() && s.subscribed == {}
  {
    var t := EffectiveTimeout(timeout);
    State(t, t == 0, hasRouter, Rendered, false, false, {}, t, false, false, 0, false, 0, {})
  }

  // ----- src/effects/useTrackUserEvents.ts -----

  /** `addEventListeners` (lines 21-24). The window registrations always
      happen; the state update is dropped once unmounted. */
  function AddEventListeners(s: State): State {
    s.(registered := s.registered + TrackedSet(),
       listenersActive := if s.phase == Unmounted then s.listenersActive else true)
  }

  /** `removeEventListeners` (lines 25-28): unconditional, whatever the flag says. */
  function RemoveEventListeners(s: State): (r: State)
    ensures EffectFrame(r, s)
  {
    s.(registered := s.registered - TrackedSet(),
       listenersActive := if s.phase == Unmounted then s.listenersActive else false)
  }

  /** The effect at lines 30-34, re-run when the active flag or the user flag changed. */
  function RemoveListenersOnInteraction(s: State, before: Deps): (r: State)
    ensures EffectFrame(r, s)
  {
    var changed := s.listenersActive != before.listenersActive || s.userTriggered != before.userTriggered;
    if changed && s.listenersActive && s.userTriggered then RemoveEventListeners(s) else s
  }

  // ----- src/effects/useTrackTimer.ts -----

  /** `startTimer` (lines 16-25): overwrites the interval handle; a handle that
      was still scheduled is lost and keeps firing. */
  function StartTimer(s: State): (r: State)
    ensures EffectFrame(r, s)
  {
    if s.disabled then s
    else s.(intervalLive := true,
            leakedIntervals := if s.intervalLive then s.leakedIntervals + 1 else s.leakedIntervals)
  }

  /** `endTimer` (lines 26-32): clears the interval the handle holds. */
  function EndTimer(s: State): (r: State)
    ensures EffectFrame(r, s)
  {
    if s.disabled then s else s.(intervalLive := false)
  }

  /** The timer effect's body (lines 34-46); `timerCleanup` records whether it
      returned `() => endTimer()`. */
  function TimerEffect(s: State): (r: State)
    ensures EffectFrame(r, s)
  {
    if s.disabled then s.(timerCleanup := false)
    else if s.timer == 0 then s.(timerExpired := true, timerCleanup := false)
    else StartTimer(s).(timerCleanup := true)
  }

  /** Runs the cleanup the timer effect returned last time, if any. */
  function TimerEffectCleanup(s: State): (r: State)
    ensures EffectFrame(r, s)
  {
    if s.timerCleanup then EndTimer(s).(timerCleanup := false) else s
  }

  // ----- src/context/Provider.tsx -----

  /** The effect at lines 40-45, re-run when the user flag or the counter changed. */
  function EndTimerOnInteraction(s: State, before: Deps): (r: State)
    ensures EffectFrame(r, s)
  {
    var changed := s.userTriggered != before.userTriggered || s.timer != before.timer;
    if changed && s.userTriggered then EndTimer(s) else s
  }

  /** The effect at lines 48-53, re-run when the expiry flag changed. */
  function RemoveListenersOnExpiry(s: State, before: Deps): (r: State)
    ensures EffectFrame(r, s)
  {
    if s.timerExpired != before.timerExpired && s.timerExpired then RemoveEventListeners(s) else s
  }

  /** The effects React runs after a handler changed the state from `before`:
      cleanups of the effects about to re-run, then the bodies in the order the
      hooks are declared (src/context/Provider.tsx:24, 31, 40, 48). The expiry
      effect sees the flag the timer effect set, one render later. The router
      subscription is re-made when the active flag changes, to the same two
      events, so it is not re-run here. */
  function Settle(s: State, before: Deps): (r: State)
    ensures EffectFrame(r, s)
  {
    var timerChanged := s.timer != before.timer;
    var s1 := if timerChanged then TimerEffectCleanup(s) else s;
    var s2 := RemoveListenersOnInteraction(s1, before);
    var s3 := if timerChanged then TimerEffect(s2) else s2;
    var s4 := EndTimerOnInteraction(s3, before);
    RemoveListenersOnExpiry(s4, before)
  }

  // ----- src/effects/useTrackNextRouter.ts -----

  /** The subscription effect (lines 38-50): nothing without a router. */
  function Subscribe(s: State): State {
    if s.hasRouter then s.(subscribed := RouteEventSet()) else s
  }

  /** `onRouteChangeStart` (lines 21-30). */
  function RouteStartHandler(s: State): State {
    var cleaned := if s.listenersActive then EndTimer(RemoveEventListeners(s)) else s;
    cleaned.(userTriggered := false)
  }

  /** `onRouteChangeComplete` (lines 32-36): queue the re-add for the next
      frame, start the timer now. */
  function RouteCompleteHandler(s: State): State {
    StartTimer(s.(pendingFrames := s.pendingFrames + 1))
  }

  // ----- the host events -----

  /** First commit: every effect runs once. The listener effect adds the
      listeners, the timer effect starts the countdown, the router effect
      subscribes; the others find their flags false. */
  function OnMount(s: State): State {
    if s.phase != Rendered then s
    else Subscribe(TimerEffect(AddEventListeners(s.(phase := Mounted))))
  }

  /** A window event: only a registered name reaches `handleInteraction`
      (src/effects/useTrackUserEvents.ts:17-19), which sets the user flag. */
  function OnUserEvent(s: State, name: string): State {
    if s.phase == Mounted && name in s.registered then Settle(s.(userTriggered := true), DepsOf(s))
    else s
  }

  /** One firing of any scheduled interval (src/effects/useTrackTimer.ts:22-24). */
  function OnTick(s: State): State {
    if s.phase == Mounted && s.IntervalScheduled() then Settle(s.(timer := s.timer - TickMillis), DepsOf(s))
    else s
  }

  function OnRouteChangeStart(s: State): State {
    if RouteChangeStartName in s.subscribed then Settle(RouteStartHandler(s), DepsOf(s)) else s
  }

  function OnRouteChangeComplete(s: State): State {
    if RouteChangeCompleteName in s.subscribed then Settle(RouteCompleteHandler(s), DepsOf(s)) else s
  }

  /** The queued frame callback (src/effects/useTrackNextRouter.ts:34). It is
      never cancelled, so it also runs after unmount. */
  function OnAnimationFrame(s: State): State {
    if s.pendingFrames > 0 then Settle(AddEventListeners(s.(pendingFrames := s.pendingFrames - 1)), DepsOf(s)) else s
  }

  /** Unmount runs the cleanups in declaration order: the listener effect's
      (src/effects/useTrackUserEvents.ts:39), the timer effect's if it left one
      (src/effects/useTrackTimer.ts:44) and the router unsubscription
      (src/effects/useTrackNextRouter.ts:46-49). */
  function OnUnmount(s: State): State {
    if s.phase != Mounted then s
    else TimerEffectCleanup(RemoveEventListeners(s.(phase := Unmounted))).(subscribed := {})
  }

  function Step(s: State, e: Event): (r: State)
    ensures SameConfiguration(r, s)
    ensures r.leakedIntervals >= s.leakedIntervals
  {
    match e
    case Mount => OnMount(s)
    case UserEvent(name) => OnUserEvent(s, name)
    case Tick => OnTick(s)
    case RouteChangeStart => OnRouteChangeStart(s)
    case RouteChangeComplete => OnRouteChangeComplete(s)
    case AnimationFrame => OnAnimationFrame(s)
    case Unmount => OnUnmount(s)
  }

  /** The state after delivering `events` in order. */
  function Run(s: State, events: seq<Event>): State
    decreases |events|
  {
    if events == [] then s else Run(Step(s, events[0]), events[1..])
  }

  /** `n` interval firings in a row. */
  function Ticks(n: nat): seq<Event> {
    if n == 0 then [] else [Tick] + Ticks(n - 1)
  }

  /** The facts that hold in every state reachable from `Init`. */
  ghost predicate Inv(s: State) {
    && s.disabled == (s.timeout == 0)
    // the timer is disabled for good
    && (s.disabled ==> !s.intervalLive && s.leakedIntervals == 0 && !s.timerExpired && !s.timerCleanup)
    // the counter only moves by whole ticks, downward from the timeout
    && s.timer <= s.timeout
    && (s.timeout - s.timer) % TickMillis == 0
    && (s.timerExpired ==> s.timer <= 0 && s.timer % TickMillis == 0 && s.timeout > 0)
    // nothing has happened before the first commit
    && (s.phase == Rendered ==>
          && s.registered == {} && !s.listenersActive && !s.userTriggered && !s.timerExpired
          && !s.intervalLive && s.leakedIntervals == 0 && !s.timerCleanup && s.pendingFrames == 0
          && s.timer == s.timeout)
    // while mounted, the flag tells whether the listeners are on the window
    && (s.phase == Mounted ==> s.registered == (if s.listenersActive then TrackedSet() else {}))
    && (s.phase == Mounted ==> !(s.listenersActive && s.userTriggered))
    // the timer effect leaves a cleanup exactly when it started an interval
    && (s.phase == Mounted && !s.disabled ==> (s.timerCleanup <==> s.timer != 0))
    && s.subscribed == (if s.phase == Mounted && s.hasRouter then RouteEventSet() else {})
  }
}
