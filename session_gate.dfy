/**
 * `SessionGate`: what a page shows while its session is being set up. An error wins over
 * loading, loading over the page itself.
 */
module SessionGate {
  import opened Wrappers

  /** The rendered view; `N` stands for a React node. */
  datatype GateView<N> = ErrorView(message: string) | Fallback(node: N) | DefaultLoading | Content(node: N)

  const DefaultLoadingText: string := "Setting up your session..."

  /**
   * The view for the gate's props. The error view is chosen exactly when the error is a
   * non-empty string (an empty one counts as none), whatever `loading` says; the loading
   * views exactly when there is no such error and the session is loading, the caller's
   * fallback when it gave one; the children exactly when neither.
   */
  function Gate<N>(loading: bool, error: Option<string>, children: N, loadingFallback: Option<N>): (v: GateView<N>)
    ensures v.ErrorView? <==> Truthy(error)
    ensures v.ErrorView? ==> v.message == error.value
    ensures v.Fallback? <==> !Truthy(error) && loading && loadingFallback.Some?
    ensures v.Fallback? ==> v.node == loadingFallback.value
    ensures v.DefaultLoading? <==> !Truthy(error) && loading && loadingFallback.None?
    ensures v.Content? <==> !Truthy(error) && !loading
    ensures v.Content? ==> v.node == children
  {
    if Truthy(error) then ErrorView(error.value)
    else if loading then (if loadingFallback.Some? then Fallback(loadingFallback.value) else DefaultLoading)
    else Content(children)
  }
}
