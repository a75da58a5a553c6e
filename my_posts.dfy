/**
 * The "My Posts" page (src/Myposts.tsx): a guarded fetch of the user's posts,
 * the mapping of each post to a card, and the sections the page shows.
 */
module MyPosts {
  import opened Common
  import opened Gateway
  import opened Storage
  import PostCard

  datatype Author = Author(username: Option<string>, avatarUrl: Option<string>)

  /** A post as the server sends it; `images` holds the image URLs in order. */
  datatype MyPost = MyPost(
    id: string,
    slug: Option<string>,
    title: string,
    subtitle: Option<string>,
    author: Option<Author>,
    images: Option<seq<string>>,
    likesCount: Option<int>,
    category: string,
    createdAt: string)

  // ---------------------------------------------------------------------------
  // Mapping a post to a card

  const AvatarPlaceholder := "https://placehold.co/30x30"
  const ImagePlaceholder := "https://placehold.co/120x120"
  const DefaultUsername := "You"

  /** The props `transformPostForCard` builds for a card. */
  datatype CardProps = CardProps(
    id: string,
    slug: string,
    title: string,
    description: string,
    username: string,
    userProfile: string,
    image: string,
    likes: int,
    isLiked: bool,
    isFavorited: bool,
    isBookmarked: bool,
    createdAt: string)

  function TransformPostForCard(post: MyPost): (c: CardProps)
    ensures c.id == post.id && c.title == post.title && c.createdAt == post.createdAt
    ensures c.slug == (if Present(post.slug) then post.slug.value else post.id)
    ensures c.description == (if Present(post.subtitle) then post.subtitle.value else "")
    ensures c.username == (if post.author.Some? && Present(post.author.value.username)
                           then post.author.value.username.value else DefaultUsername)
    ensures c.userProfile == (if post.author.Some? && Present(post.author.value.avatarUrl)
                              then post.author.value.avatarUrl.value else AvatarPlaceholder)
    ensures c.image == FirstImageOr(post.images, ImagePlaceholder)
    ensures c.likes == (if post.likesCount.Some? then post.likesCount.value else 0)
    ensures !c.isLiked && !c.isFavorited && !c.isBookmarked
  {
    var author := post.author.GetOr(Author(None, None));
    CardProps(
      post.id,
      OrElse(post.slug, post.id),
      post.title,
      OrElse(post.subtitle, ""),
      OrElse(author.username, DefaultUsername),
      OrElse(author.avatarUrl, AvatarPlaceholder),
      FirstImageOr(post.images, ImagePlaceholder),
      post.likesCount.GetOr(0),
      false, false, false,
      post.createdAt)
  }

  /** The `post` prop a card receives from these props. */
  function AsCardPost(c: CardProps): PostCard.CardPost {
    PostCard.CardPost(c.id, c.title, c.description, Some(c.userProfile), c.username, Some(c.image),
                      Some(c.likes), Some(c.isLiked), Some(c.isFavorited), Some(c.isBookmarked))
  }

  /** A card built from one of the user's posts starts unliked, unfavourited, unbookmarked, with the post's count. */
  lemma CardStartsNeutral(post: MyPost)
    ensures PostCard.InitialState(AsCardPost(TransformPostForCard(post)))
            == PostCard.CardState(false, post.likesCount.GetOr(0), false, false)
  {
  }

  /** A card always has a link slug when the post has an id, and never an empty image or avatar. */
  lemma CardFieldsNonEmpty(post: MyPost)
    requires post.id != ""
    ensures var c := TransformPostForCard(post);
            c.slug != "" && c.image != "" && c.userProfile != "" && c.username != ""
  {
  }

  /** `posts.map(transformPostForCard)`. */
  function Cards(posts: seq<MyPost>): (cs: seq<CardProps>)
    ensures |cs| == |posts|
    ensures forall i :: 0 <= i < |posts| ==> cs[i] == TransformPostForCard(posts[i])
  {
    if posts == [] then [] else [TransformPostForCard(posts[0])] + Cards(posts[1..])
  }

  // ---------------------------------------------------------------------------
  // Fetching

  const MustLogIn := "You must be logged in to see your posts."
  const LoadFailed := "Failed to load posts"
  const UnknownError := "An error occurred"

  datatype LoadResult = Loaded(posts: seq<MyPost>) | LoadError(message: string)

  /**
   * The outcome of the request as the `try` block sees it: a non-2xx
   * response throws an HTTP error, `success: false` throws its message or
   * the fallback, and the `catch` keeps the message of an `Error` only.
   */
  function ResultOf(outcome: FetchOutcome<Envelope<seq<MyPost>>>): (r: LoadResult)
    ensures r.Loaded? <==> outcome.Completed? && outcome.ok && outcome.body.Success?
    ensures r.Loaded? ==> r.posts == outcome.body.data
    ensures outcome.Completed? && !outcome.ok ==> r == LoadError("HTTP error! status: " + NatToString(outcome.status))
    ensures outcome.Completed? && outcome.ok && outcome.body.Failure? ==> r == LoadError(OrElse(outcome.body.message, LoadFailed))
    ensures outcome.Threw? && outcome.error.ErrorValue? ==> r == LoadError(outcome.error.message)
    ensures outcome.Threw? && outcome.error.OtherValue? ==> r == LoadError(UnknownError)
  {
    match outcome
    case Completed(ok, status, body) =>
      if !ok then LoadError("HTTP error! status: " + NatToString(status))
      else (match body
            case Success(data) => Loaded(data)
            case Failure(message) => LoadError(OrElse(message, LoadFailed)))
    case Threw(err) =>
      if err.ErrorValue? then LoadError(err.message) else LoadError(UnknownError)
  }

  /** Any response the server answers with a failure reports a non-empty message. */
  lemma ResponseErrorsNonEmpty(outcome: FetchOutcome<Envelope<seq<MyPost>>>)
    requires outcome.Completed? && ResultOf(outcome).LoadError?
    ensures ResultOf(outcome).message != ""
  {
  }

  /** The HTTP error names the status: the digits after the prefix read back as the status code. */
  lemma {:induction false} HttpErrorNamesStatus(status: nat, body: Envelope<seq<MyPost>>)
    ensures var r := ResultOf(Completed(false, status, body));
            r.LoadError? && r.message[..20] == "HTTP error! status: " &&
            DecimalValue(r.message[20..]) == status
  {
    var r := ResultOf(Completed(false, status, body));
    assert r.message[20..] == NatToString(status);
    NatToStringValue(status);
  }

  // ---------------------------------------------------------------------------
  // Rendering

  /** The sections of the page; several may show at once. */
  datatype Sections = Sections(loadingNote: bool, errorBox: Option<string>, emptyNote: bool, cards: seq<CardProps>)

  function SectionsOf(loading: bool, error: Option<string>, posts: seq<MyPost>): (s: Sections)
    ensures s.loadingNote == loading
    ensures s.errorBox == (if Present(error) then error else None)
    ensures s.emptyNote <==> !loading && !Present(error) && posts == []
    ensures s.cards == (if !loading && !Present(error) then Cards(posts) else [])
  {
    var quiet := !loading && !Present(error);
    Sections(loading, if Present(error) then error else None, quiet && posts == [], if quiet then Cards(posts) else [])
  }

  /** The card list is shown exactly when neither the loading note, the error, nor the empty note is. */
  lemma CardsExcludeNotes(loading: bool, error: Option<string>, posts: seq<MyPost>)
    ensures var s := SectionsOf(loading, error, posts);
            |s.cards| > 0 <==> !s.loadingNote && s.errorBox.None? && !s.emptyNote
  {
  }

  class MyPostsPage {
    var posts: seq<MyPost>
    var loading: bool
    var error: Option<string>
    const userId: Option<string>
    const token: Option<string>

    constructor (store: Store)
      ensures posts == [] && loading && error == None
      ensures userId == store.GetItem("userId") && token == store.GetItem("token")
    {
      posts, loading, error := [], true, None;
      userId := store.GetItem("userId");
      token := store.GetItem("token");
    }

    /**
     * `fetchMyPosts` with the outcome of its request. Without a truthy user id
     * and token nothing is requested; otherwise the error is cleared, the
     * outcome applied, and loading ends in every case.
     */
    method FetchMyPosts(outcome: FetchOutcome<Envelope<seq<MyPost>>>) returns (requested: bool)
      modifies this
      ensures requested <==> Present(userId) && Present(token)
      ensures !loading
      ensures !requested ==> error == Some(MustLogIn) && posts == old(posts)
      ensures requested && ResultOf(outcome).Loaded? ==> posts == ResultOf(outcome).posts && error == None
      ensures requested && ResultOf(outcome).LoadError? ==> error == Some(ResultOf(outcome).message) && posts == old(posts)
    {
      if !Present(userId) || !Present(token) {
        error := Some(MustLogIn);
        loading := false;
        return false;
      }
      requested := true;
      loading := true;
      error := None;
      var result := ResultOf(outcome);
      match result {
        case Loaded(data) => posts := data;
        case LoadError(message) => error := Some(message);
      }
      loading := false;
    }

    function Render(): Sections
      reads this
    {
      SectionsOf(loading, error, posts)
    }
  }

  /** Without a stored user id or token the page shows the login error at once, and no loading note. */
  method MountWithoutLogin(store: Store, outcome: FetchOutcome<Envelope<seq<MyPost>>>) returns (s: Sections)
    requires !Present(store.GetItem("userId")) || !Present(store.GetItem("token"))
    ensures s == Sections(false, Some(MustLogIn), false, [])
  {
    var page := new MyPostsPage(store);
    var requested := page.FetchMyPosts(outcome);
    s := page.Render();
  }
}
