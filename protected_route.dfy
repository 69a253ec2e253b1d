/** The layout around every page that needs a session. */
module ProtectedRoute {
  import opened Wrappers
  import opened Views

  const SIGN_IN_PATH := "/auth/signin"

  /** `ProtectedLayout` rendered at `location`. */
  function ProtectedLayout(isLoading: bool, isAuthenticated: bool, location: string): (v: View)
    ensures isLoading ==> v == Spinner
    ensures !isLoading && !isAuthenticated ==> v == Redirect(SIGN_IN_PATH, true, Some(location))
    ensures !isLoading && isAuthenticated ==> v == OutletWithChat
  {
    if isLoading then Spinner
    else if !isAuthenticated then Redirect(SIGN_IN_PATH, true, Some(location))
    else OutletWithChat
  }

  /** The layout renders exactly one of its three outcomes, and the page with the
      chat widget exactly when the session is loaded and authenticated. */
  lemma ProtectedOutcomesExclusive(isLoading: bool, isAuthenticated: bool, location: string)
    ensures var v := ProtectedLayout(isLoading, isAuthenticated, location);
      (v.Spinner? || v.Redirect? || v.OutletWithChat?)
      && (v.OutletWithChat? <==> !isLoading && isAuthenticated)
      && (v.Spinner? <==> isLoading)
  {
  }
}
