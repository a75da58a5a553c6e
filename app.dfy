/**
 * The top-level component: the logged-in flag and the sidebar flag, and the
 * routes it offers in each of the two states (src/App.tsx).
 */
module App {

  /** The pages the router can render. */
  datatype View = LoginView | RegisterView | HomeView | ProfileView

  /** What a route element produces: a page, or a `<Navigate>` to another path. */
  datatype Element = Show(view: View) | Navigate(to: string, replace: bool)

  const LoginPath := "/login"
  const RegisterPath := "/register"
  const HomePath := "/home"
  const ProfilePath := "/profile"

  /** The element the `<Routes>` block selects for the current path. */
  function Route(isLoggedIn: bool, path: string): (r: Element)
    ensures r == Show(LoginView) <==> !isLoggedIn && path == LoginPath
    ensures r == Show(RegisterView) <==> !isLoggedIn && path == RegisterPath
    ensures r == Show(HomeView) <==> isLoggedIn && path == HomePath
    ensures r == Show(ProfileView) <==> isLoggedIn && path == ProfilePath
    ensures r.Navigate? ==> !r.replace && r.to == if isLoggedIn then HomePath else LoginPath
  {
    if !isLoggedIn then
      if path == LoginPath then Show(LoginView)
      else if path == RegisterPath then Show(RegisterView)
      else Navigate(LoginPath, false)
    else
      if path == HomePath then Show(HomeView)
      else if path == ProfilePath then Show(ProfileView)
      else Navigate(HomePath, false)
  }

  /** Following a redirect never leads to a second redirect. */
  lemma RedirectSettles(isLoggedIn: bool, path: string)
    ensures var r := Route(isLoggedIn, path);
            r.Navigate? ==> Route(isLoggedIn, r.to).Show?
  {
  }

  /** The logged-out pages are exactly Login and Register; the logged-in ones exactly Home and Profile. */
  lemma RenderedPagesPerState(isLoggedIn: bool, path: string)
    ensures var r := Route(isLoggedIn, path);
            r.Show? ==> (r.view in {LoginView, RegisterView} <==> !isLoggedIn)
  {
  }

  /** What the component renders: the header and sidebar, and the routed content. */
  datatype Screen = Screen(header: bool, sidebar: bool, sidebarOpen: bool, content: Element)

  function Render(isLoggedIn: bool, open: bool, path: string): (s: Screen)
    ensures s.header == isLoggedIn && s.sidebar == isLoggedIn
    ensures s.sidebarOpen == (isLoggedIn && open)
    ensures s.content == Route(isLoggedIn, path)
  {
    if isLoggedIn then Screen(true, true, open, Route(true, path))
    else Screen(false, false, false, Route(false, path))
  }

  /** The state of src/App.tsx: `open` is the sidebar, `isLoggedIn` the session flag. */
  class Shell {
    var open: bool
    var isLoggedIn: bool

    constructor ()
      ensures !open && !isLoggedIn
    {
      open := false;
      isLoggedIn := false;
    }

    /** `handleLogin`: the flag becomes true whatever it was. */
    method HandleLogin()
      modifies this
      ensures isLoggedIn && open == old(open)
    {
      isLoggedIn := true;
    }

    /** `handleLogout`: the flag becomes false whatever it was. */
    method HandleLogout()
      modifies this
      ensures !isLoggedIn && open == old(open)
    {
      isLoggedIn := false;
    }

    /** `setOpen`, the setter handed to Header and Sidebar. */
    method SetOpen(value: bool)
      modifies this
      ensures open == value && isLoggedIn == old(isLoggedIn)
    {
      open := value;
    }

    /** A click anywhere in the main content area, which exists only in the logged-in layout, closes the sidebar. */
    method ClickMainContent()
      requires isLoggedIn
      modifies this
      ensures !open && isLoggedIn == old(isLoggedIn)
    {
      open := false;
    }

    function CurrentScreen(path: string): Screen
      reads this
    {
      Render(isLoggedIn, open, path)
    }
  }

  /** The first render of a fresh app: no header, no sidebar, and the logged-out routes. */
  method FirstRender(path: string) returns (s: Screen)
    ensures !s.header && !s.sidebar
    ensures !s.content.Show? ==> s.content == Navigate(LoginPath, false)
    ensures s.content.Show? <==> path in {LoginPath, RegisterPath}
  {
    var app := new Shell();
    s := app.CurrentScreen(path);
  }
}
