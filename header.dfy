/**
 * The header (src/Components/Header.tsx): the avatar it shows, refreshed on
 * the "avatarUpdated" event, and the burger button that toggles the sidebar.
 */
module Header {
  import opened Common
  import opened Storage
  import App

  const DefaultAvatar := "https://cdn.pixabay.com/photo/2015/10/05/22/37/blank-profile-picture-973460_1280.png"

  /** The avatar on mount: the stored `avatarUrl` when truthy, else the default picture. */
  function InitialAvatar(stored: Option<string>): (r: string)
    ensures r != ""
    ensures Present(stored) ==> r == stored.value
    ensures !Present(stored) ==> r == DefaultAvatar
  {
    OrElse(stored, DefaultAvatar)
  }

  /** The avatar after the event: replaced only by a truthy stored value. */
  function RefreshedAvatar(current: string, stored: Option<string>): (r: string)
    ensures Present(stored) ==> r == stored.value
    ensures !Present(stored) ==> r == current
  {
    if Present(stored) then stored.value else current
  }

  /**
   * A refresh that finds a value shows what a freshly mounted header would;
   * one that finds none keeps the current avatar instead of the default.
   */
  lemma RefreshAgreesWithMount(current: string, stored: Option<string>)
    ensures Present(stored) ==> RefreshedAvatar(current, stored) == InitialAvatar(stored)
    ensures !Present(stored) ==> RefreshedAvatar(current, stored) == current
  {
  }

  /** Refreshing twice from the same storage is the same as refreshing once. */
  lemma RefreshIdempotent(current: string, stored: Option<string>)
    ensures RefreshedAvatar(RefreshedAvatar(current, stored), stored) == RefreshedAvatar(current, stored)
  {
  }

  class HeaderBar {
    var avatarUrl: string

    /** The header never points its image at an empty URL. */
    ghost predicate Valid()
      reads this
    {
      avatarUrl != ""
    }

    constructor (store: Store)
      ensures Valid()
      ensures avatarUrl == InitialAvatar(store.GetItem("avatarUrl"))
    {
      avatarUrl := InitialAvatar(store.GetItem("avatarUrl"));
    }

    /** `handleAvatarUpdate`: re-read `avatarUrl` from storage and adopt it when truthy. */
    method HandleAvatarUpdate(store: Store)
      requires Valid()
      modifies this
      ensures Valid()
      ensures avatarUrl == RefreshedAvatar(old(avatarUrl), store.GetItem("avatarUrl"))
    {
      var newAvatar := store.GetItem("avatarUrl");
      if Present(newAvatar) {
        avatarUrl := newAvatar.value;
      }
    }

    /** The burger button: `setOpen(!open)`, so a second click restores the sidebar. */
    method ClickBurger(app: App.Shell)
      requires app.isLoggedIn
      modifies app
      ensures app.open == !old(app.open) && app.isLoggedIn == old(app.isLoggedIn)
    {
      app.SetOpen(!app.open);
    }
  }
}
