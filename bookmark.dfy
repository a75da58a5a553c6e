/**
 * The bookmarks page (src/Bookmark.tsx): a fetch guarded by the stored user
 * id, two accepted response shapes, and a four-way render priority.
 */
module Bookmark {
  import opened Common
  import opened Gateway
  import opened Storage

  datatype Author = Author(username: Option<string>, avatarUrl: Option<string>)

  /** A bookmarked post; `images` holds the image URLs in order. */
  datatype BookmarkPost = BookmarkPost(
    id: string,
    title: string,
    subtitle: Option<string>,
    slug: string,
    createdAt: string,
    author: Option<Author>,
    images: Option<seq<string>>)

  /** The two shapes the endpoint answers with: the usual envelope, or a bare array. */
  datatype Body = Wrapped(envelope: Envelope<seq<BookmarkPost>>) | BareArray(posts: seq<BookmarkPost>)

  const NotLoggedIn := "User not logged in"
  const FetchFailed := "Failed to fetch bookmarks"

  /** `data.success ? data.data : data` when either test passes; nothing otherwise. */
  function Normalize(body: Body): (r: Option<seq<BookmarkPost>>)
    ensures body.BareArray? ==> r == Some(body.posts)
    ensures body.Wrapped? ==> (r.Some? <==> body.envelope.Success?)
    ensures body.Wrapped? && r.Some? ==> r.value == body.envelope.data
  {
    match body
    case Wrapped(envelope) => if envelope.Success? then Some(envelope.data) else None
    case BareArray(posts) => Some(posts)
  }

  /** Both accepted shapes give the same list for the same posts. */
  lemma ShapesAgree(posts: seq<BookmarkPost>)
    ensures Normalize(Wrapped(Success(posts))) == Normalize(BareArray(posts)) == Some(posts)
  {
  }

  /** What one fetch attempt stores: the list, or an error. */
  datatype FetchEffect = SetBookmarks(posts: seq<BookmarkPost>) | SetError(error: string)

  function EffectOf(outcome: FetchOutcome<Body>): (e: FetchEffect)
    ensures e.SetBookmarks? <==> outcome.Completed? && Normalize(outcome.body).Some?
    ensures e.SetBookmarks? ==> e.posts == Normalize(outcome.body).value
    ensures outcome.Completed? && Normalize(outcome.body).None? ==> e == SetError(FetchFailed)
    ensures outcome.Threw? ==> e == SetError(outcome.error.Describe())
  {
    match outcome
    case Completed(_, _, body) =>
      (match Normalize(body)
       case Some(posts) => SetBookmarks(posts)
       case None => SetError(FetchFailed))
    case Threw(err) => SetError(err.Describe())
  }

  // ---------------------------------------------------------------------------
  // Rendering

  const ImagePlaceholder := "https://placehold.co/200x120"

  /** One card of the grid: where a click goes, the image, the title and the author. */
  datatype Card = Card(link: string, image: string, title: string, username: string)

  function CardOf(post: BookmarkPost): (c: Card)
    ensures c.link == "/posts/" + post.slug
    ensures c.image == FirstImageOr(post.images, ImagePlaceholder)
    ensures c.title == post.title
    ensures c.username == (if post.author.Some? && Present(post.author.value.username)
                           then post.author.value.username.value else "Anonymous")
  {
    var author := post.author.GetOr(Author(None, None));
    Card("/posts/" + post.slug, FirstImageOr(post.images, ImagePlaceholder), post.title, OrElse(author.username, "Anonymous"))
  }

  /** `bookmarks.map(...)`: one card per bookmark, in order. */
  function Cards(posts: seq<BookmarkPost>): (cs: seq<Card>)
    ensures |cs| == |posts|
    ensures forall i :: 0 <= i < |posts| ==> cs[i] == CardOf(posts[i])
  {
    if posts == [] then [] else [CardOf(posts[0])] + Cards(posts[1..])
  }

  datatype Screen = Loading | ErrorText(message: string) | Empty | Grid(cards: seq<Card>)

  /** Loading first, then a truthy error, then an empty list, then the grid. */
  function ScreenOf(loading: bool, error: Option<string>, bookmarks: seq<BookmarkPost>): (s: Screen)
    ensures s == Loading <==> loading
    ensures s.ErrorText? <==> !loading && Present(error)
    ensures s.ErrorText? ==> s.message == error.value
    ensures s == Empty <==> !loading && !Present(error) && bookmarks == []
    ensures s.Grid? <==> !loading && !Present(error) && bookmarks != []
    ensures s.Grid? ==> s.cards == Cards(bookmarks)
  {
    if loading then Loading
    else if Present(error) then ErrorText(error.value)
    else if bookmarks == [] then Empty
    else Grid(Cards(bookmarks))
  }

  class BookmarkPage {
    var bookmarks: seq<BookmarkPost>
    var loading: bool
    var error: Option<string>
    const userId: Option<string>

    constructor (store: Store)
      ensures bookmarks == [] && loading && error == None
      ensures userId == store.GetItem("userId")
    {
      bookmarks, loading, error := [], true, None;
      userId := store.GetItem("userId");
    }

    /**
     * `fetchBookmarks` with the outcome of its request. Without a truthy user
     * id it sets the error and returns at once — before the `try`, so the
     * `finally` that ends loading does not run.
     */
    method FetchBookmarks(outcome: FetchOutcome<Body>) returns (requested: bool)
      modifies this
      ensures requested <==> Present(userId)
      ensures !requested ==> error == Some(NotLoggedIn) && loading == old(loading) && bookmarks == old(bookmarks)
      ensures requested ==> !loading
      ensures requested && EffectOf(outcome).SetBookmarks? ==>
                bookmarks == EffectOf(outcome).posts && error == old(error)
      ensures requested && EffectOf(outcome).SetError? ==>
                error == Some(EffectOf(outcome).error) && bookmarks == old(bookmarks)
    {
      if !Present(userId) {
        error := Some(NotLoggedIn);
        return false;
      }
      requested := true;
      loading := true;
      var effect := EffectOf(outcome);
      match effect {
        case SetBookmarks(posts) => bookmarks := posts;
        case SetError(message) => error := Some(message);
      }
      loading := false;
    }

    function Render(): Screen
      reads this
    {
      ScreenOf(loading, error, bookmarks)
    }
  }

  /**
   * Without a stored user id the page keeps showing "Loading bookmarks...":
   * the error is set but loading, true from the start, is never reset.
   */
  method MountWithoutUser(store: Store, outcome: FetchOutcome<Body>) returns (s: Screen)
    requires !Present(store.GetItem("userId"))
    ensures s == Loading
  {
    var page := new BookmarkPage(store);
    var requested := page.FetchBookmarks(outcome);
    assert page.error == Some(NotLoggedIn);
    s := page.Render();
  }

  /** With a stored user id a mounted page always leaves the loading state. */
  method MountWithUser(store: Store, outcome: FetchOutcome<Body>) returns (s: Screen)
    requires Present(store.GetItem("userId"))
    ensures s != Loading
    ensures EffectOf(outcome).SetError? ==> s == (if EffectOf(outcome).error != "" then ErrorText(EffectOf(outcome).error)
                                               else Empty)
    ensures EffectOf(outcome).SetBookmarks? ==> s == ScreenOf(false, None, EffectOf(outcome).posts)
  {
    var page := new BookmarkPage(store);
    var requested := page.FetchBookmarks(outcome);
    s := page.Render();
  }
}
