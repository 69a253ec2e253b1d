/** The wrapper around the sign-in and sign-up pages. */
module GuestRoute {
  import opened Wrappers
  import opened Views
  import ProtectedRoute

  const DASHBOARD_PATH := "/dashboard"

  /** `GuestRoute` around some children. */
  function GuestRoute(isLoading: bool, isAuthenticated: bool): (v: View)
    ensures isLoading ==> v == Spinner
    ensures !isLoading && isAuthenticated ==> v == Redirect(DASHBOARD_PATH, true, None)
    ensures !isLoading && !isAuthenticated ==> v == Children
  {
    if isLoading then Spinner
    else if isAuthenticated then Redirect(DASHBOARD_PATH, true, None)
    else Children
  }

  /** Once the session is loaded, exactly one of the two guards lets its content
      through: the guest pages without a session, the protected pages with one;
      while loading, both show the spinner. */
  lemma GuardsAreComplementary(isLoading: bool, isAuthenticated: bool, location: string)
    ensures !isLoading ==>
      (GuestRoute(isLoading, isAuthenticated).Children? <==> !ProtectedRoute.ProtectedLayout(isLoading, isAuthenticated, location).OutletWithChat?)
    ensures isLoading ==>
      GuestRoute(isLoading, isAuthenticated) == Spinner && ProtectedRoute.ProtectedLayout(isLoading, isAuthenticated, location) == Spinner
  {
  }
}
