/** The route guard of src/Components/ProtectedRoute.tsx. */
module ProtectedRoute {
  import App

  /** What the guard returns: its children unchanged, or a `<Navigate>`. */
  datatype Outcome<T> = Children(element: T) | Navigate(to: string, replace: bool)

  function Guard<T>(isLoggedIn: bool, children: T): (r: Outcome<T>)
    ensures isLoggedIn ==> r == Children(children)
    ensures !isLoggedIn ==> r == Navigate(App.LoginPath, true)
  {
    if !isLoggedIn then Navigate(App.LoginPath, true) else Children(children)
  }

  /** Whether the guard lets the children through depends on the flag alone. */
  lemma GuardIgnoresChildren<T>(isLoggedIn: bool, a: T, b: T)
    ensures Guard(isLoggedIn, a).Children? == Guard(isLoggedIn, b).Children?
    ensures !isLoggedIn ==> Guard(isLoggedIn, a) == Guard(isLoggedIn, b)
  {
  }

  /**
   * The guard and the logged-out catch-all route of the app send the user to
   * the same path; only the guard replaces the history entry.
   */
  lemma GuardAgreesWithAppFallback<T>(path: string, children: T)
    requires path != App.LoginPath && path != App.RegisterPath
    ensures App.Route(false, path) == App.Navigate(Guard(false, children).to, false)
    ensures Guard(false, children).replace
  {
  }
}
