/**
 * The sidebar (src/Components/Sidebar.tsx): five navigation links that close
 * it, and a Logout entry that closes it, clears the session keys from storage
 * and tells the app the user has logged out.
 */
module Sidebar {
  import opened Storage
  import App

  /** The keys the logout handler removes; `username` is not among them. */
  const SessionKeys: set<string> := {"token", "userEmail", "userId", "avatarUrl"}

  /** The store after logout: the session keys removed, everything else as it was. */
  function AfterLogout(items: map<string, string>): (r: map<string, string>)
    ensures r.Keys == items.Keys - SessionKeys
    ensures forall k :: k in r ==> r[k] == items[k]
  {
    items - SessionKeys
  }

  /** Logging out a second time finds nothing more to remove. */
  lemma LogoutIdempotent(items: map<string, string>)
    ensures AfterLogout(AfterLogout(items)) == AfterLogout(items)
  {
  }

  /** A key outside the session keys, such as `username`, keeps its value. */
  lemma LogoutKeepsOtherKeys(items: map<string, string>, key: string)
    requires key in items && key !in SessionKeys
    ensures key in AfterLogout(items) && AfterLogout(items)[key] == items[key]
  {
  }

  datatype Link = Link(text: string, to: string)

  /** The navigation links, in display order. */
  const Links: seq<Link> := [
    Link("Home", "/home"),
    Link("Profile", "/profile"),
    Link("Write", "/write"),
    Link("My Posts", "/myposts"),
    Link("Bookmark", "/bookmarks")
  ]

  /**
   * Of the sidebar's targets only Home and Profile are routes of the logged-in
   * app; Write, My Posts and Bookmark land on the catch-all and redirect to Home.
   */
  lemma LinkTargetsAsRouted(i: nat)
    requires i < |Links|
    ensures App.Route(true, Links[i].to).Show? <==> i < 2
    ensures i >= 2 ==> App.Route(true, Links[i].to) == App.Navigate(App.HomePath, false)
  {
  }

  /** `handleLogout`: remove the four session keys one after another, then call `onLogout`. */
  method HandleLogout(store: Store, app: App.Shell)
    modifies store, app
    ensures store.items == AfterLogout(old(store.items))
    ensures !app.isLoggedIn && app.open == old(app.open)
  {
    store.RemoveItem("token");
    store.RemoveItem("userEmail");
    store.RemoveItem("userId");
    store.RemoveItem("avatarUrl");
    app.HandleLogout();
  }

  /** A navigation link: close the sidebar and go to the link's target. */
  method ClickLink(app: App.Shell, link: Link) returns (navigateTo: string)
    requires link in Links
    requires app.isLoggedIn
    modifies app
    ensures !app.open && app.isLoggedIn == old(app.isLoggedIn)
    ensures navigateTo == link.to
  {
    app.SetOpen(false);
    navigateTo := link.to;
  }

  /** The Logout entry: close the sidebar, then log out. */
  method ClickLogout(store: Store, app: App.Shell)
    requires app.isLoggedIn
    modifies store, app
    ensures !app.open && !app.isLoggedIn
    ensures store.items == AfterLogout(old(store.items))
  {
    app.SetOpen(false);
    HandleLogout(store, app);
  }
}
