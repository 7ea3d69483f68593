/** What the provider receives from its host: the window's input events, the
    interval and animation-frame callbacks it scheduled, the router's two
    navigation events, and React's mount and unmount. Shared by both revisions. */
module HostEvents {

  /** The window events taken as evidence of interaction, in registration order
      (src/effects/useTrackUserEvents.ts:4, and src/Provider.tsx:8 in the earlier revision). */
  const EventNames: seq<string> := ["click", "touchstart", "scroll"]

  /** The names the interaction handler is registered under while listening. */
  function TrackedSet(): set<string> {
    set name | name in EventNames
  }

  /** The router events the provider subscribes to. */
  const RouteChangeStartName: string := "routeChangeStart"
  const RouteChangeCompleteName: string := "routeChangeComplete"

  function RouteEventSet(): set<string> {
    {RouteChangeStartName, RouteChangeCompleteName}
  }

  /** Where the provider is in its life: rendered once but no effect run yet,
      mounted (effects live), or unmounted (state updates are dropped). */
  datatype Phase = Rendered | Mounted | Unmounted

  /** One event delivered by the host. `UserEvent(name)` is a window event of
      any name; only registered names reach the handler. `Tick` is one firing
      of a scheduled 1000 ms interval, `AnimationFrame` the next paint. */
  datatype Event =
    | Mount
    | UserEvent(name: string)
    | Tick
    | RouteChangeStart
    | RouteChangeComplete
    | AnimationFrame
    | Unmount

  /** The tracked names are exactly click, touchstart and scroll. */
  lemma TrackedSetIsExactlyThree()
    ensures TrackedSet() == {"click", "touchstart", "scroll"}
    ensures |TrackedSet()| == 3
  {
    assert TrackedSet() == {"click", "touchstart", "scroll"};
  }
}
