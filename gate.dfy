/** The `afterInteraction` gate exposed to consumers: it invokes its callback
    only once the page has been interacted with. */
module Gate {
  import opened Wrappers

  /** Calls `callback` and returns its result when `hasInteracted` holds;
      otherwise returns `None` (JavaScript `undefined`) without using the callback. */
  function AfterInteraction<T>(hasInteracted: bool, callback: () -> T): (r: Option<T>)
    ensures r.Some? <==> hasInteracted
    ensures r.Some? ==> r.value == callback()
  {
    if hasInteracted then Some(callback()) else None
  }
}
