# defer-until-user-interaction, modelled in Dafny

The library gives a React tree one signal, `hasInteracted`, and one gate,
`afterInteraction(f)`, so that costly work (analytics, chat widgets, ads) can
wait until the visitor has clicked, touched or scrolled, or until a countdown
has run out. Its one piece of real logic is the `Provider`'s state machine:
two flags (`hasUserTriggeredEvent`, `hasTimerExpired`), a flag saying whether
the window listeners are on, a counter stepped by an interval, and, when a
Next.js router is passed, a reset on route change start and a re-arm on route
change complete, with the listeners re-added one animation frame later.

Both revisions in the repository are modelled:

- the current one: src/context/Provider.tsx with the hooks
  src/effects/useTrackUserEvents.ts, src/effects/useTrackTimer.ts and
  src/effects/useTrackNextRouter.ts (a configurable timeout in milliseconds,
  10000 by default, 0 to disable, stepped by 1000);
- the earlier one: src/Provider.tsx with src/useTrackNextRouter.tsx (a counter
  of 10 stepped by 1, a `removeEventListeners` guarded by the flag, one
  cleanup-on-interaction effect, no timer handling on route events).

Each revision is modelled three times over:

- `DeferModel` / `LegacyModel`: the state as a datatype, one function per host
  event (mount, a window event by name, an interval firing, the two router
  events, an animation frame, unmount), and `Inv`, the facts that hold in
  every reachable state;
- `DeferProperties` / `LegacyProperties`: lemmas about those functions, most
  by induction over a sequence of events;
- `DeferProvider.DeferState` / `LegacyProvider.LegacyDeferState`: a class
  whose fields are the provider's state, refs and host registrations, with
  one method per hook function (`addEventListeners` loops over the three
  names as the source's `forEach` does) and one per host event. Every method
  is proved to produce exactly the state the model function gives, and the
  event methods to keep `Inv`.

`HostEvents` holds the tracked names and the event alphabet both revisions
share; `Gate` is the `afterInteraction` gate; `Wrappers` holds `Option`.

How a host event becomes one step: the handler runs, then every effect whose
dependency values changed since the previous commit re-runs, in the order
the hooks are declared, each first running the cleanup its previous run
returned. The callbacks passed between hooks are treated as stable, which
they are in the current revision (`useCallback` over stable setters and
refs). After unmount, state updates are dropped (React ignores them), while
window registrations and intervals are not.

The code is modelled as written. Three consequences are worth knowing:

- The provider's doc comment promises to "reset the value when the route
  changes" (src/context/Provider.tsx:14), but route change start clears only
  the user flag (src/effects/useTrackNextRouter.ts:29). The expiry flag and
  the counter are untouched, so after the countdown has expired
  `hasInteracted` stays true through a navigation
  (`DeferProperties.HasInteractedOnlyResetByRouteStart`).
- The `requestAnimationFrame` at src/effects/useTrackNextRouter.ts:34 is never
  cancelled, and no cleanup refers to it, so a frame that fires after unmount
  re-adds the listeners (`DeferProperties.FrameAfterUnmountReaddsListeners`).
- The timer effect's expiry branch returns no cleanup
  (src/effects/useTrackTimer.ts:39-40) and `startTimer` overwrites
  `intervalTimer.current` without clearing it (line 22). After expiry, a
  navigation restarts the interval at 0, the counter goes negative and can
  never again equal 0, and one interval is left that nothing clears
  (`DeferProperties.ExpiredNavigationLeaksInterval`). Two navigations before
  the deferred frame leak one interval as well
  (`DeferProperties.DoubleNavigationLeaksInterval`). The model counts such
  intervals in `leakedIntervals`. The earlier revision never leaks one
  (`LegacyProperties.NeverLeaksIntervals`).

## Model

| member | source | states |
|---|---|---|
| HostEvents.TrackedSetIsExactlyThree | src/effects/useTrackUserEvents.ts:4 | the tracked names are exactly click, touchstart and scroll, three of them |
| Gate.AfterInteraction | src/context/Provider.tsx:67-75 | the gate returns a value exactly when `hasInteracted` holds, and that value is the callback's result |
| DeferModel.Init | src/context/Provider.tsx:16-23 | the timeout defaults to 10000, the counter starts at the timeout, the timer is disabled exactly when it is 0, both flags start false, nothing is registered or scheduled |
| DeferModel.Step | src/context/Provider.tsx:19 | no event changes the timeout, the disabled flag or the router; no event clears a leaked interval |
| DeferProperties.InitSatisfiesInv | src/context/Provider.tsx:16-23 | the first render satisfies the reachable-state invariant |
| DeferProperties.MountPreservesInv | src/effects/useTrackUserEvents.ts:36-40 | mount keeps the invariant |
| DeferProperties.UserEventPreservesInv | src/effects/useTrackUserEvents.ts:17-34 | a window event keeps the invariant |
| DeferProperties.TickPreservesInv | src/effects/useTrackTimer.ts:22-46 | an interval firing keeps the invariant |
| DeferProperties.RouteStartPreservesInv | src/effects/useTrackNextRouter.ts:21-30 | route change start keeps the invariant |
| DeferProperties.RouteCompletePreservesInv | src/effects/useTrackNextRouter.ts:32-36 | route change complete keeps the invariant |
| DeferProperties.FramePreservesInv | src/effects/useTrackNextRouter.ts:34 | the deferred re-add keeps the invariant |
| DeferProperties.UnmountPreservesInv | src/effects/useTrackUserEvents.ts:36-40 | unmount keeps the invariant |
| DeferProperties.StepPreservesInv | src/context/Provider.tsx:24-64 | every host event keeps the invariant |
| DeferProperties.RunPreservesInv | src/context/Provider.tsx:24-64 | any sequence of host events keeps the invariant |
| DeferProperties.RunKeepsConfiguration | src/context/Provider.tsx:19 | the timeout, the disabled flag captured once, and the router never change |
| DeferProperties.ReachableStatesSatisfyInv | src/context/Provider.tsx:19-23 | every reachable state satisfies the invariant (listeners never on while the user flag is set, counter a whole number of ticks below the timeout, expiry only at a counter of 0) and is disabled exactly when the timeout is 0 |
| DeferProperties.DisabledTimerNeverExpires | src/effects/useTrackTimer.ts:34-37 | with timeout 0 no interval is ever scheduled, the expiry flag is never set, and `hasInteracted` equals the user flag |
| DeferProperties.NoWindowEventKeepsUserClear | src/effects/useTrackUserEvents.ts:17-19 | without a window event a clear user flag stays clear, whatever else arrives |
| DeferProperties.DisabledNeedsAWindowEvent | src/effects/useTrackTimer.ts:34-37 | with timeout 0 and no window event, `hasInteracted` stays false and `afterInteraction` returns nothing |
| DeferProperties.DisabledTimerHelpersDoNothing | src/effects/useTrackTimer.ts:16-37 | with the timer disabled `startTimer` and `endTimer` change nothing and the timer effect leaves no cleanup |
| DeferProperties.ExpiryNeedsWholeTicks | src/effects/useTrackTimer.ts:22-40 | the expiry flag can be set only when the timeout is positive and a multiple of 1000 |
| DeferProperties.CountdownFrom | src/effects/useTrackTimer.ts:34-46 | a running countdown m ticks from 0 is still running after fewer than m ticks and expires at exactly the m-th, with the interval gone and the listeners removed |
| DeferProperties.MountedCountdownExpires | src/effects/useTrackTimer.ts:34-46 | with a timeout of k whole ticks and no user event, `hasInteracted` becomes true at exactly the k-th tick after mount |
| DeferProperties.GateFollowsCountdown | src/context/Provider.tsx:67-75 | with a timeout of k whole ticks and no user event, `afterInteraction` returns nothing for the first k - 1 ticks after mount and the callback's result at the k-th |
| DeferProperties.DefaultTimeoutExpiresAfterTenTicks | src/context/Provider.tsx:16-21 | with no timeout given, `hasInteracted` is false after 9 ticks and true after 10 |
| DeferProperties.TickStep | src/effects/useTrackTimer.ts:22-46 | a firing lowers the counter by exactly 1000; at 0 the expiry flag is set, the listeners removed and no interval started; otherwise a fresh interval runs unless the user flag is set; it leaks an interval exactly when the counter was already 0 |
| DeferProperties.OnlyTicksMoveCountdown | src/effects/useTrackTimer.ts:22-24 | no event other than a firing changes the counter or the expiry flag |
| DeferProperties.UserEventStep | src/effects/useTrackUserEvents.ts:17-34 | a window event reaches the handler exactly when it is tracked and the listeners are on; it then sets the user flag, removes the listeners and stops the interval; otherwise nothing changes |
| DeferProperties.UserEventIdempotent | src/effects/useTrackUserEvents.ts:17-19 | delivering the same window event twice is the same as once |
| DeferProperties.InteractionFreezesCountdown | src/context/Provider.tsx:39-45 | once the user flag is set and no interval runs, no event but a route event moves the counter, sets the expiry flag or clears the user flag |
| DeferProperties.ClickStopsTimer | src/context/Provider.tsx:39-45 | a click after mount makes `hasInteracted` true and stops the countdown at the timeout for every later non-route event |
| DeferProperties.GateOpensOnClick | src/context/Provider.tsx:67-75 | after a click following mount, `afterInteraction` returns the callback's result for every later non-route event |
| DeferProperties.HasInteractedOnlyResetByRouteStart | src/effects/useTrackNextRouter.ts:21-30 | `hasInteracted` never falls back except on route change start, after which it equals the expiry flag |
| DeferProperties.NoRouterIgnoresRouteEvents | src/effects/useTrackNextRouter.ts:38-41 | without a router nothing is subscribed and route events change nothing |
| DeferProperties.MountStep | src/effects/useTrackNextRouter.ts:38-50 | mount adds the three listeners, subscribes exactly the two handlers when a router is given, and starts the interval exactly when the timer is enabled |
| DeferProperties.RouteStartStep | src/effects/useTrackNextRouter.ts:21-30 | route change start clears the user flag; with listeners on it removes them and stops the interval, with listeners off it leaves the interval; the expiry flag and the counter are untouched |
| DeferProperties.RouteCompleteStep | src/effects/useTrackNextRouter.ts:32-36 | route change complete queues one frame re-add and starts the interval at once from the current counter, leaving the listeners as they are |
| DeferProperties.FrameStep | src/effects/useTrackNextRouter.ts:34 | the queued frame consumes one re-add; with the user flag clear the three listeners are on afterwards, with it set the interaction effect takes them off again in the same commit; the flags, the counter and the interval are untouched |
| DeferProperties.NavigationRestoresTracking | src/effects/useTrackNextRouter.ts:21-36 | start, complete and the next frame leave the user flag clear, the listeners on and the counter unchanged, and a click afterwards makes `hasInteracted` true |
| DeferProperties.UnmountStep | src/effects/useTrackUserEvents.ts:36-40 | unmount removes the listeners, unsubscribes the router handlers and clears the interval the timer effect left a cleanup for |
| DeferProperties.FrameAfterUnmountReaddsListeners | src/effects/useTrackNextRouter.ts:34 | a frame still queued at unmount re-adds the three listeners afterwards |
| DeferProperties.ExpiredNavigationLeaksInterval | src/effects/useTrackTimer.ts:39-44 | after expiry and a navigation, the next firing leaves an interval that survives unmount |
| DeferProperties.DoubleNavigationLeaksInterval | src/effects/useTrackNextRouter.ts:23-35 | two navigations before the frame leave one interval whose handle was overwritten |
| DeferProvider.DeferState.constructor | src/context/Provider.tsx:16-22 | the object's state is the model's first render and satisfies the invariant |
| DeferProvider.DeferState.AfterInteraction | src/context/Provider.tsx:67-75 | the gate returns the callback's result exactly when one of the two flags is set |
| DeferProvider.DeferState.AddEventListeners | src/effects/useTrackUserEvents.ts:21-24 | the loop registers all three names and sets the active flag (unless unmounted) |
| DeferProvider.DeferState.RemoveEventListeners | src/effects/useTrackUserEvents.ts:25-28 | the loop unregisters all three names without checking the flag, and clears the flag (unless unmounted) |
| DeferProvider.DeferState.HandleInteraction | src/effects/useTrackUserEvents.ts:17-19 | the handler sets the user flag while mounted |
| DeferProvider.DeferState.RemoveListenersOnInteraction | src/effects/useTrackUserEvents.ts:30-34 | when the active or user flag changed and both are set, the listeners are removed |
| DeferProvider.DeferState.StartTimer | src/effects/useTrackTimer.ts:16-25 | unless disabled, an interval is scheduled, and one still scheduled is leaked |
| DeferProvider.DeferState.EndTimer | src/effects/useTrackTimer.ts:26-32 | unless disabled, the current interval is cleared |
| DeferProvider.DeferState.TimerEffect | src/effects/useTrackTimer.ts:34-46 | disabled: nothing; counter 0: the expiry flag is set and no cleanup returned; otherwise an interval starts and a cleanup is returned |
| DeferProvider.DeferState.TimerEffectCleanup | src/effects/useTrackTimer.ts:44 | the cleanup left by the last run clears the interval |
| DeferProvider.DeferState.EndTimerOnInteraction | src/context/Provider.tsx:40-45 | when the user flag or the counter changed and the user flag is set, the interval is cleared |
| DeferProvider.DeferState.RemoveListenersOnExpiry | src/context/Provider.tsx:48-53 | when the expiry flag becomes set, the listeners are removed |
| DeferProvider.DeferState.Settle | src/context/Provider.tsx:24-64 | the effects re-run in declaration order, each only when its dependency values changed |
| DeferProvider.DeferState.OnRouteChangeStart | src/effects/useTrackNextRouter.ts:21-30 | with listeners on, they are removed and the interval cleared; the user flag is cleared either way |
| DeferProvider.DeferState.OnRouteChangeComplete | src/effects/useTrackNextRouter.ts:32-36 | one frame re-add is queued and the interval is started at once |
| DeferProvider.DeferState.Mount | src/effects/useTrackUserEvents.ts:36-40 | mount is the model's mount step and keeps the invariant |
| DeferProvider.DeferState.UserEvent | src/effects/useTrackUserEvents.ts:17-19 | a window event is the model's step for it and keeps the invariant |
| DeferProvider.DeferState.Tick | src/effects/useTrackTimer.ts:22-24 | a firing is the model's tick and keeps the invariant |
| DeferProvider.DeferState.RouteChangeStart | src/effects/useTrackNextRouter.ts:43 | route change start is the model's step and keeps the invariant |
| DeferProvider.DeferState.RouteChangeComplete | src/effects/useTrackNextRouter.ts:44 | route change complete is the model's step and keeps the invariant |
| DeferProvider.DeferState.AnimationFrame | src/effects/useTrackNextRouter.ts:34 | the frame is the model's step and keeps the invariant |
| DeferProvider.DeferState.Unmount | src/effects/useTrackNextRouter.ts:46-49 | unmount is the model's step and keeps the invariant |
| LegacyModel.Init | src/Provider.tsx:17-23 | the counter starts at 10, both flags false, nothing registered, scheduled or subscribed |
| LegacyModel.Step | src/Provider.tsx:17 | no event changes whether a router was given |
| LegacyProperties.InitSatisfiesInv | src/Provider.tsx:17-23 | the first render satisfies the invariant |
| LegacyProperties.MountPreservesInv | src/Provider.tsx:50-64 | mount keeps the invariant |
| LegacyProperties.UserEventPreservesInv | src/Provider.tsx:24-26 | a window event keeps the invariant |
| LegacyProperties.TickPreservesInv | src/Provider.tsx:41-64 | a firing keeps the invariant |
| LegacyProperties.RouteStartPreservesInv | src/useTrackNextRouter.tsx:11-18 | route change start keeps the invariant |
| LegacyProperties.RouteCompletePreservesInv | src/useTrackNextRouter.tsx:20-23 | route change complete keeps the invariant |
| LegacyProperties.FramePreservesInv | src/useTrackNextRouter.tsx:22 | the deferred re-add keeps the invariant |
| LegacyProperties.UnmountPreservesInv | src/Provider.tsx:53 | unmount keeps the invariant |
| LegacyProperties.StepPreservesInv | src/Provider.tsx:50-74 | every host event keeps the invariant |
| LegacyProperties.RunPreservesInv | src/Provider.tsx:50-74 | any sequence of host events keeps the invariant |
| LegacyProperties.NeverLeaksIntervals | src/Provider.tsx:41-64 | no interval handle is ever overwritten while scheduled, the counter stays within 0..10, and nothing is scheduled after unmount |
| LegacyProperties.CountdownFrom | src/Provider.tsx:56-64 | a countdown at m is still running after fewer than m ticks and expires at exactly the m-th, leaving the listeners as they were |
| LegacyProperties.MountedCountdownExpires | src/Provider.tsx:20-64 | without interaction every mount expires at exactly the tenth tick, with the listeners still on |
| LegacyProperties.GateOpensAtTenthTick | src/Provider.tsx:87-95 | without interaction, `afterInteraction` returns nothing for the first nine ticks after mount and the callback's result at the tenth |
| LegacyProperties.OnTickStep | src/Provider.tsx:41-64 | a firing lowers the counter by exactly 1; the expiry flag is set exactly at 0, where no interval is started |
| LegacyProperties.RemoveIsGuarded | src/Provider.tsx:32-35 | `removeEventListeners` changes nothing while the flag is false |
| LegacyProperties.MountStep | src/Provider.tsx:28-31 | mount registers click, touchstart and scroll, sets the flag, starts the countdown at 10 and subscribes both handlers when a router is given |
| LegacyProperties.UserEventStep | src/Provider.tsx:67-74 | a tracked event while listening sets the user flag; if the flag was clear the listeners are removed and the interval cleared; if it was already set nothing changes |
| LegacyProperties.UserEventIdempotent | src/Provider.tsx:24-26 | delivering the same window event twice is the same as once |
| LegacyProperties.StoppedCountdownStaysStopped | src/Provider.tsx:56-64 | once no interval runs after mount, no event moves the counter, sets the expiry flag or schedules an interval |
| LegacyProperties.ClickStopsCountdownForGood | src/Provider.tsx:67-74 | a click after mount makes `hasInteracted` true and the counter stays at 10 and never expires, navigations included |
| LegacyProperties.HasInteractedOnlyResetByRouteStart | src/useTrackNextRouter.tsx:11-18 | `hasInteracted` never falls back except on route change start, after which it equals the expiry flag |
| LegacyProperties.NoRouterIgnoresRouteEvents | src/useTrackNextRouter.tsx:26-28 | without a router nothing is subscribed and route events change nothing |
| LegacyProperties.RouteStartStep | src/useTrackNextRouter.tsx:11-18 | route change start leaves the listeners off and the user flag clear, and touches neither the counter, the interval nor the expiry flag |
| LegacyProperties.RouteCompleteStep | src/useTrackNextRouter.tsx:20-23 | route change complete only queues one frame re-add |
| LegacyProperties.FrameStep | src/useTrackNextRouter.tsx:22 | the queued frame re-adds the three listeners and touches no timer |
| LegacyProperties.NavigationRestoresTracking | src/useTrackNextRouter.tsx:11-23 | start, complete and the next frame leave the user flag clear and the listeners on, and a click afterwards makes `hasInteracted` true |
| LegacyProperties.SecondFrameKeepsListenersAfterInteraction | src/Provider.tsx:67-74 | with two queued frames, a click between them is followed by listeners re-added with the user flag set, which no effect removes |
| LegacyProperties.UnmountStep | src/Provider.tsx:53 | unmount removes the listeners, unsubscribes and leaves no interval |
| LegacyProperties.FrameAfterUnmountReaddsListeners | src/useTrackNextRouter.tsx:22 | a frame still queued at unmount re-adds the three listeners afterwards |
| LegacyProvider.LegacyDeferState.constructor | src/Provider.tsx:17-23 | the object's state is the model's first render and satisfies the invariant |
| LegacyProvider.LegacyDeferState.AfterInteraction | src/Provider.tsx:87-95 | the gate returns the callback's result exactly when one of the two flags is set |
| LegacyProvider.LegacyDeferState.AddEventListeners | src/Provider.tsx:28-31 | the loop registers all three names and sets the flag (unless unmounted) |
| LegacyProvider.LegacyDeferState.RemoveEventListeners | src/Provider.tsx:32-39 | nothing while the flag is false; otherwise the loop unregisters all three names and clears the flag |
| LegacyProvider.LegacyDeferState.StartTimer | src/Provider.tsx:41-45 | an interval is scheduled, and one still scheduled is leaked |
| LegacyProvider.LegacyDeferState.EndTimer | src/Provider.tsx:46-48 | the current interval is cleared |
| LegacyProvider.LegacyDeferState.TimerEffect | src/Provider.tsx:56-64 | counter 0: the expiry flag is set, no cleanup; otherwise an interval starts and a cleanup is returned |
| LegacyProvider.LegacyDeferState.TimerEffectCleanup | src/Provider.tsx:62 | the cleanup left by the last run clears the interval |
| LegacyProvider.LegacyDeferState.CleanupOnInteraction | src/Provider.tsx:67-74 | when the user flag becomes set, the listeners are removed and the interval cleared |
| LegacyProvider.LegacyDeferState.Settle | src/Provider.tsx:56-74 | the effects re-run in declaration order, each only when its dependency values changed |
| LegacyProvider.LegacyDeferState.OnRouteChangeStart | src/useTrackNextRouter.tsx:11-18 | with listeners on they are removed; the user flag is cleared either way |
| LegacyProvider.LegacyDeferState.OnRouteChangeComplete | src/useTrackNextRouter.tsx:20-23 | one frame re-add is queued |
| LegacyProvider.LegacyDeferState.Mount | src/Provider.tsx:50-64 | mount is the model's mount step and keeps the invariant |
| LegacyProvider.LegacyDeferState.UserEvent | src/Provider.tsx:24-26 | a window event is the model's step for it and keeps the invariant |
| LegacyProvider.LegacyDeferState.Tick | src/Provider.tsx:42-44 | a firing is the model's tick and keeps the invariant |
| LegacyProvider.LegacyDeferState.RouteChangeStart | src/useTrackNextRouter.tsx:30 | route change start is the model's step and keeps the invariant |
| LegacyProvider.LegacyDeferState.RouteChangeComplete | src/useTrackNextRouter.tsx:31 | route change complete is the model's step and keeps the invariant |
| LegacyProvider.LegacyDeferState.AnimationFrame | src/useTrackNextRouter.tsx:22 | the frame is the model's step and keeps the invariant |
| LegacyProvider.LegacyDeferState.Unmount | src/Provider.tsx:53 | unmount is the model's step and keeps the invariant |

## Left out

- React's rendering, batching and scheduling: each host event is one step, the handler and then the effects whose dependency values changed, in declaration order. Effects that depend only on callbacks run at mount and unmount.
- Callback identity in the earlier revision. The model treats every callback as stable and registrations as names, but in the code:
  - `handleInteraction` (src/Provider.tsx:24-26) is a new function on every render, so the `removeEventListener` calls at line 37 are given a different function than the one added at line 29 and unregister nothing;
  - `removeEventListeners` is re-created whenever the active flag changes (its dependency list at line 39), and it sits in the dependency lists of the listener effect (line 54), the cleanup-on-interaction effect (line 74) and the router hook's handlers. After a click, the effect at 50-54 and the effect at 67-74 would then re-run on every such change and keep setting the flag true and false on alternate commits.
  - LegacyProperties.UserEventStep and LegacyProperties.SecondFrameKeepsListenersAfterInteraction hold only under this stable-callback reading: with the real identities the listeners are never actually removed from the window, and the active flag would oscillate rather than settle.
- The earlier revision's call at src/Provider.tsx:77-84 passes one object to src/useTrackNextRouter.tsx, whose parameters are positional; as written the router parameter would receive nothing and no route event would be subscribed. The model takes the hook's handlers from their own definitions with the router supplied.
- Wall-clock time: `setInterval` at 1000 ms and `requestAnimationFrame` are the host events `Tick` and `AnimationFrame`; the model keeps whether an interval is scheduled and how many frame re-adds are queued, not durations.
- DOM event dispatch: registered listeners are a set of event names (adding an identical listener twice keeps one registration), and a window event reaches the handler only while its name is registered and the provider is mounted.
- The `next/router` event emitter: only the two route events, delivered while subscribed.
- src/context/hook.ts, src/useDeferUntilInteraction.tsx and src/Context.tsx (`useContext`/`createContext` wrappers), src/types.ts (type declarations), and the tests and build configuration are not part of this model.
- Gate.AfterInteraction: JavaScript's `undefined` is `None`; the callback is a pure Dafny function, so whether it is called (as opposed to what it returns) is not observable in the model.
- The counter is an unbounded integer; JavaScript numbers are exact at these magnitudes.
- DeferProperties.InteractionFreezesCountdown: excludes route events, because the code restarts the interval on route change complete from the counter's current value.
- DeferProvider.DeferState.Tick: requires an interval to be scheduled (the host fires only those); the leaked ones are counted, not told apart.
