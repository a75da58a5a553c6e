/**
 * A post card (src/Components/PostCard.tsx): three optimistic toggles, each
 * overwriting its own state and firing a request whose failure is only logged.
 */
module PostCard {
  import opened Common

  /** The `post` prop; optional fields are `undefined` when absent. */
  datatype CardPost = CardPost(
    id: string,
    title: string,
    description: string,
    userProfile: Option<string>,
    username: string,
    image: Option<string>,
    likes: Option<int>,
    isLiked: Option<bool>,
    isFavorited: Option<bool>,
    isBookmarked: Option<bool>)

  /** The card's own state. */
  datatype CardState = CardState(liked: bool, likesCount: int, favorited: bool, bookmarked: bool)

  /** The state on mount: each flag from the post, default false; the count from `likes`, default 0. */
  function InitialState(post: CardPost): (s: CardState)
    ensures s.liked <==> post.isLiked == Some(true)
    ensures s.favorited <==> post.isFavorited == Some(true)
    ensures s.bookmarked <==> post.isBookmarked == Some(true)
    ensures s.likesCount == if post.likes.Some? then post.likes.value else 0
  {
    CardState(post.isLiked.GetOr(false), post.likes.GetOr(0), post.isFavorited.GetOr(false), post.isBookmarked.GetOr(false))
  }

  /** `handleLike`: the flag flips and the count follows it by one; nothing else moves. */
  function AfterLike(s: CardState): (r: CardState)
    ensures r.liked != s.liked
    ensures r.likesCount == s.likesCount + (if r.liked then 1 else -1)
    ensures r.favorited == s.favorited && r.bookmarked == s.bookmarked
  {
    s.(liked := !s.liked, likesCount := if s.liked then s.likesCount - 1 else s.likesCount + 1)
  }

  /** `handleFavorite`: only `favorited` flips. */
  function AfterFavorite(s: CardState): (r: CardState)
    ensures r.favorited != s.favorited
    ensures r.(favorited := s.favorited) == s
  {
    s.(favorited := !s.favorited)
  }

  /** `handleBookmark`: only `bookmarked` flips. */
  function AfterBookmark(s: CardState): (r: CardState)
    ensures r.bookmarked != s.bookmarked
    ensures r.(bookmarked := s.bookmarked) == s
  {
    s.(bookmarked := !s.bookmarked)
  }

  /** Two like clicks restore the flag and the count. */
  lemma LikeTwiceRestores(s: CardState)
    ensures AfterLike(AfterLike(s)) == s
  {
  }

  lemma FavoriteTwiceRestores(s: CardState)
    ensures AfterFavorite(AfterFavorite(s)) == s
  {
  }

  lemma BookmarkTwiceRestores(s: CardState)
    ensures AfterBookmark(AfterBookmark(s)) == s
  {
  }

  /** The three toggles touch disjoint state, so their order does not matter. */
  lemma TogglesCommute(s: CardState)
    ensures AfterLike(AfterFavorite(s)) == AfterFavorite(AfterLike(s))
    ensures AfterLike(AfterBookmark(s)) == AfterBookmark(AfterLike(s))
    ensures AfterFavorite(AfterBookmark(s)) == AfterBookmark(AfterFavorite(s))
  {
  }

  /** Which toggle endpoint a request goes to. */
  datatype Toggle = LikeToggle | FavoriteToggle | BookmarkToggle

  /** A toggle request: the post, the toggle, and the boolean in its body. */
  datatype ToggleRequest = ToggleRequest(postId: string, toggle: Toggle, value: bool)

  class Card {
    const post: CardPost
    var liked: bool
    var likesCount: int
    var favorited: bool
    var bookmarked: bool

    function State(): CardState
      reads this
    {
      CardState(liked, likesCount, favorited, bookmarked)
    }

    constructor (post: CardPost)
      ensures this.post == post
      ensures State() == InitialState(post)
    {
      this.post := post;
      liked := post.isLiked.GetOr(false);
      likesCount := post.likes.GetOr(0);
      favorited := post.isFavorited.GetOr(false);
      bookmarked := post.isBookmarked.GetOr(false);
    }

    /**
     * `handleLike`: the body carries `!liked` of the click, which is the new
     * flag. Nothing awaits the request, so its failure cannot revert the state.
     */
    method HandleLike() returns (request: ToggleRequest)
      modifies this
      ensures State() == AfterLike(old(State()))
      ensures request == ToggleRequest(post.id, LikeToggle, liked)
    {
      var was := liked;
      liked := !was;
      likesCount := if was then likesCount - 1 else likesCount + 1;
      request := ToggleRequest(post.id, LikeToggle, !was);
    }

    method HandleFavorite() returns (request: ToggleRequest)
      modifies this
      ensures State() == AfterFavorite(old(State()))
      ensures request == ToggleRequest(post.id, FavoriteToggle, favorited)
    {
      var was := favorited;
      favorited := !was;
      request := ToggleRequest(post.id, FavoriteToggle, !was);
    }

    method HandleBookmark() returns (request: ToggleRequest)
      modifies this
      ensures State() == AfterBookmark(old(State()))
      ensures request == ToggleRequest(post.id, BookmarkToggle, bookmarked)
    {
      var was := bookmarked;
      bookmarked := !was;
      request := ToggleRequest(post.id, BookmarkToggle, !was);
    }
  }
}
