/**
 * The post detail page (src/PostDetail.tsx): fetching the post, local like,
 * bookmark and cart toggles, the cart menu with its shop classification, and
 * the pairing of images with text blocks.
 */
module PostDetail {
  import opened Common
  import opened Gateway
  import PostCard

  /** A content block; `text` is `block.data?.text`. */
  datatype Block = Block(text: Option<string>)

  datatype ProductLink = ProductLink(name: string, url: string)

  datatype Author = Author(username: Option<string>, avatarUrl: Option<string>)

  /** The post as the server sends it; `images` holds the image URLs in order. */
  datatype Post = Post(
    id: string,
    title: string,
    subtitle: Option<string>,
    author: Option<Author>,
    createdAt: string,
    images: Option<seq<string>>,
    blocks: Option<seq<Block>>,
    productLinks: Option<seq<ProductLink>>)

  // ---------------------------------------------------------------------------
  // Shop classification of a product link

  datatype Platform = Shopee | Lazada | Apple | Shop {
    function Name(): string {
      match this
      case Shopee => "Shopee"
      case Lazada => "Lazada"
      case Apple => "Apple"
      case Shop => "Shop"
    }

    function Logo(): string {
      match this
      case Shopee => "https://upload.wikimedia.org/wikipedia/commons/0/0e/Shopee_logo.svg"
      case Lazada => "https://upload.wikimedia.org/wikipedia/commons/3/3a/Lazada_%282019%29.svg"
      case Apple => "https://upload.wikimedia.org/wikipedia/commons/f/fa/Apple_logo_black.svg"
      case Shop => "https://cdn-icons-png.flaticon.com/512/126/126122.png"
    }
  }

  /** Each platform shows its own name and logo: no two platforms share either. */
  lemma PlatformsDistinct(p: Platform, q: Platform)
    ensures p.Name() == q.Name() <==> p == q
    ensures p.Logo() == q.Logo() <==> p == q
  {
  }

  /** The lower-cased URL is tested for "shopee", then "lazada", then "apple"; the first hit wins. */
  function Classify(url: string): (p: Platform)
    ensures p == Shopee <==> Includes(Lower(url), "shopee")
    ensures p == Lazada <==> !Includes(Lower(url), "shopee") && Includes(Lower(url), "lazada")
    ensures p == Apple <==> !Includes(Lower(url), "shopee") && !Includes(Lower(url), "lazada")
                            && Includes(Lower(url), "apple")
  {
    var lowerUrl := Lower(url);
    if Includes(lowerUrl, "shopee") then Shopee
    else if Includes(lowerUrl, "lazada") then Lazada
    else if Includes(lowerUrl, "apple") then Apple
    else Shop
  }

  /** The classification ignores the letter case of the URL. */
  lemma ClassifyIgnoresCase(url: string)
    ensures Classify(Lower(url)) == Classify(url)
  {
    LowerIdempotent(url);
  }

  /** A URL that contains "Shopee" in any letter case is a Shopee link. */
  lemma ShopeeInAnyCase(url: string, brand: string)
    requires Includes(url, brand) && Lower(brand) == "shopee"
    ensures Classify(url) == Shopee
  {
    IncludesLower(url, brand);
  }

  /** A URL with "lazada" in any case and no "shopee" in any case is a Lazada link. */
  lemma LazadaInAnyCase(url: string, brand: string)
    requires Includes(url, brand) && Lower(brand) == "lazada"
    requires !Includes(Lower(url), "shopee")
    ensures Classify(url) == Lazada
  {
    IncludesLower(url, brand);
  }

  /** One entry of the cart menu. */
  datatype CartEntry = CartEntry(href: string, logo: string, name: string)

  function Entry(link: ProductLink): (e: CartEntry)
    ensures e.href == link.url
    ensures e.name == Classify(link.url).Name() && e.logo == Classify(link.url).Logo()
  {
    var p := Classify(link.url);
    CartEntry(link.url, p.Logo(), p.Name())
  }

  /** `productLinks.map(...)`: one entry per link, in order. */
  function CartEntries(links: seq<ProductLink>): (es: seq<CartEntry>)
    ensures |es| == |links|
    ensures forall i :: 0 <= i < |links| ==> es[i] == Entry(links[i])
  {
    if links == [] then [] else [Entry(links[0])] + CartEntries(links[1..])
  }

  /** The menu is rendered only while open and when at least one link exists. */
  function CartMenu(showCartLinks: bool, links: Option<seq<ProductLink>>): (m: Option<seq<CartEntry>>)
    ensures m.Some? <==> showCartLinks && links.Some? && |links.value| > 0
    ensures m.Some? ==> m.value == CartEntries(links.value)
  {
    if showCartLinks && links.Some? && |links.value| > 0 then Some(CartEntries(links.value)) else None
  }

  // ---------------------------------------------------------------------------
  // Images and their text blocks

  /** An image and, when block i exists, the paragraph under it. */
  datatype Figure = Figure(imageUrl: string, caption: Option<string>)

  /** The caption under image i: block i's text, "" when the block has none, nothing when there is no block i. */
  function Caption(blocks: Option<seq<Block>>, i: nat): (c: Option<string>)
    ensures c.Some? <==> blocks.Some? && i < |blocks.value|
    ensures c.Some? ==> c.value == OrElse(blocks.value[i].text, "")
  {
    if blocks.Some? && i < |blocks.value| then Some(OrElse(blocks.value[i].text, "")) else None
  }

  /** `images.map((img, idx) => ...)`: image i with block i's caption; extra blocks are never shown. */
  function Figures(images: seq<string>, blocks: Option<seq<Block>>): (fs: seq<Figure>)
    ensures |fs| == |images|
    ensures forall i :: 0 <= i < |images| ==> fs[i] == Figure(images[i], Caption(blocks, i))
  {
    FiguresFrom(images, blocks, 0)
  }

  function FiguresFrom(images: seq<string>, blocks: Option<seq<Block>>, start: nat): (fs: seq<Figure>)
    ensures |fs| == |images|
    ensures forall i :: 0 <= i < |images| ==> fs[i] == Figure(images[i], Caption(blocks, start + i))
  {
    if images == [] then [] else [Figure(images[0], Caption(blocks, start))] + FiguresFrom(images[1..], blocks, start + 1)
  }

  /** The number of captions shown is the smaller of the image and block counts. */
  lemma {:induction false} CaptionCount(images: seq<string>, blocks: seq<Block>)
    ensures CountCaptions(Figures(images, Some(blocks))) == if |images| < |blocks| then |images| else |blocks|
  {
    var fs := Figures(images, Some(blocks));
    CountCaptionsPrefix(fs, if |images| < |blocks| then |images| else |blocks|);
  }

  function CountCaptions(fs: seq<Figure>): nat {
    if fs == [] then 0 else (if fs[0].caption.Some? then 1 else 0) + CountCaptions(fs[1..])
  }

  /** When exactly the first k figures carry a caption, k captions are shown. */
  lemma {:induction false} CountCaptionsPrefix(fs: seq<Figure>, k: nat)
    requires k <= |fs|
    requires forall i :: 0 <= i < |fs| ==> (fs[i].caption.Some? <==> i < k)
    ensures CountCaptions(fs) == k
  {
    if fs != [] {
      CountCaptionsPrefix(fs[1..], if k == 0 then 0 else k - 1);
    }
  }

  // ---------------------------------------------------------------------------
  // Local toggles

  /** The local interaction state: the like flag and counter, the bookmark flag, the cart menu flag. */
  datatype Interaction = Interaction(liked: bool, likes: int, bookmarked: bool, showCartLinks: bool)

  /** The counter starts at the fixed value 61, the flags false. */
  const InitialInteraction := Interaction(false, 61, false, false)

  function AfterLike(s: Interaction): (r: Interaction)
    ensures r.liked != s.liked
    ensures r.likes == s.likes + (if r.liked then 1 else -1)
    ensures r.(liked := s.liked, likes := s.likes) == s
  {
    s.(liked := !s.liked, likes := if s.liked then s.likes - 1 else s.likes + 1)
  }

  function AfterBookmark(s: Interaction): (r: Interaction)
    ensures r.bookmarked != s.bookmarked
    ensures r.(bookmarked := s.bookmarked) == s
  {
    s.(bookmarked := !s.bookmarked)
  }

  function AfterCart(s: Interaction): (r: Interaction)
    ensures r.showCartLinks != s.showCartLinks
    ensures r.(showCartLinks := s.showCartLinks) == s
  {
    s.(showCartLinks := !s.showCartLinks)
  }

  lemma LikeTwiceRestores(s: Interaction)
    ensures AfterLike(AfterLike(s)) == s
  {
  }

  /** The detail page's like button follows the same rule as a post card's. */
  lemma LikeRuleMatchesCard(s: Interaction, favorited: bool)
    ensures var c := PostCard.AfterLike(PostCard.CardState(s.liked, s.likes, favorited, s.bookmarked));
            c.liked == AfterLike(s).liked && c.likesCount == AfterLike(s).likes
  {
  }

  // ---------------------------------------------------------------------------
  // Fetching and rendering

  const FetchFailed := "Failed to fetch post"

  /** What `fetchPost` does with its outcome: store the post, or store an error. */
  datatype FetchEffect = SetPost(post: Option<Post>) | SetError(error: string)

  /** `result.success` keeps the data; a failure body gives its message or the fallback; a throw its description. */
  function FetchEffectOf(outcome: FetchOutcome<Envelope<Option<Post>>>): (e: FetchEffect)
    ensures e.SetPost? <==> outcome.Completed? && outcome.body.Success?
    ensures e.SetPost? ==> e.post == outcome.body.data
    ensures outcome.Completed? && outcome.body.Failure? ==> e == SetError(OrElse(outcome.body.message, FetchFailed))
    ensures outcome.Threw? ==> e == SetError(outcome.error.Describe())
  {
    match outcome
    case Completed(_, _, body) =>
      (match body
       case Success(data) => SetPost(data)
       case Failure(message) => SetError(OrElse(message, FetchFailed)))
    case Threw(err) => SetError(err.Describe())
  }

  /** A failure body never yields an empty error; the HTTP status plays no part. */
  lemma FailureBodyError(ok: bool, status: nat, message: Option<string>)
    ensures var e := FetchEffectOf(Completed(ok, status, Failure(message)));
            e.SetError? && e.error != "" && e == FetchEffectOf(Completed(!ok, 0, Failure(message)))
  {
  }

  /** The content view of a loaded post. */
  datatype DetailView = DetailView(
    title: string,
    subtitle: Option<string>,
    avatar: string,
    username: string,
    likes: int,
    liked: bool,
    bookmarked: bool,
    cartMenu: Option<seq<CartEntry>>,
    figures: seq<Figure>)

  /** The page shows one of four things, tested in this order. */
  datatype Screen = Loading | ErrorText(message: string) | NotFound | Content(view: DetailView)

  function ContentOf(post: Post, ui: Interaction): (v: DetailView)
    ensures v.title == post.title
    ensures v.subtitle.Some? <==> Present(post.subtitle)
    ensures v.subtitle.Some? ==> v.subtitle == post.subtitle
    ensures v.username == (if post.author.Some? then OrElse(post.author.value.username, "Anonymous") else "Anonymous")
    ensures v.avatar == (if post.author.Some? then OrElse(post.author.value.avatarUrl, "https://placehold.co/40x40")
                         else "https://placehold.co/40x40")
    ensures v.likes == ui.likes && v.liked == ui.liked && v.bookmarked == ui.bookmarked
    ensures v.cartMenu == CartMenu(ui.showCartLinks, post.productLinks)
    ensures v.figures == if post.images.Some? then Figures(post.images.value, post.blocks) else []
  {
    var author := post.author.GetOr(Author(None, None));
    DetailView(
      post.title,
      if Present(post.subtitle) then post.subtitle else None,
      OrElse(author.avatarUrl, "https://placehold.co/40x40"),
      OrElse(author.username, "Anonymous"),
      ui.likes, ui.liked, ui.bookmarked,
      CartMenu(ui.showCartLinks, post.productLinks),
      if post.images.Some? then Figures(post.images.value, post.blocks) else [])
  }

  /** Loading first, then a truthy error, then a missing post, then the content. */
  function ScreenOf(loading: bool, error: Option<string>, post: Option<Post>, ui: Interaction): (s: Screen)
    ensures s == Loading <==> loading
    ensures s.ErrorText? <==> !loading && Present(error)
    ensures s.ErrorText? ==> s.message == error.value
    ensures s == NotFound <==> !loading && !Present(error) && post.None?
    ensures s.Content? <==> !loading && !Present(error) && post.Some?
    ensures s.Content? ==> s.view == ContentOf(post.value, ui)
  {
    if loading then Loading
    else if Present(error) then ErrorText(error.value)
    else if post.None? then NotFound
    else Content(ContentOf(post.value, ui))
  }

  class DetailPage {
    var post: Option<Post>
    var loading: bool
    var error: Option<string>
    var liked: bool
    var likes: int
    var bookmarked: bool
    var showCartLinks: bool

    function Ui(): Interaction
      reads this
    {
      Interaction(liked, likes, bookmarked, showCartLinks)
    }

    constructor ()
      ensures post == None && loading && error == None
      ensures Ui() == InitialInteraction
    {
      post, loading, error := None, true, None;
      liked, likes, bookmarked, showCartLinks := false, 61, false, false;
    }

    /**
     * `fetchPost` with the outcome of its request. The error is not cleared
     * before the attempt and the post is not cleared on failure; loading is
     * false afterwards whatever happened.
     */
    method FetchPost(outcome: FetchOutcome<Envelope<Option<Post>>>)
      modifies this
      ensures !loading
      ensures Ui() == old(Ui())
      ensures FetchEffectOf(outcome).SetPost? ==> post == FetchEffectOf(outcome).post && error == old(error)
      ensures FetchEffectOf(outcome).SetError? ==> error == Some(FetchEffectOf(outcome).error) && post == old(post)
    {
      loading := true;
      var effect := FetchEffectOf(outcome);
      match effect {
        case SetPost(p) => post := p;
        case SetError(e) => error := Some(e);
      }
      loading := false;
    }

    method ClickLike()
      modifies this
      ensures Ui() == AfterLike(old(Ui()))
      ensures post == old(post) && loading == old(loading) && error == old(error)
    {
      var was := liked;
      liked := !was;
      likes := if was then likes - 1 else likes + 1;
    }

    method ClickBookmark()
      modifies this
      ensures Ui() == AfterBookmark(old(Ui()))
      ensures post == old(post) && loading == old(loading) && error == old(error)
    {
      bookmarked := !bookmarked;
    }

    method ClickCart()
      modifies this
      ensures Ui() == AfterCart(old(Ui()))
      ensures post == old(post) && loading == old(loading) && error == old(error)
    {
      showCartLinks := !showCartLinks;
    }

    function Render(): Screen
      reads this
    {
      ScreenOf(loading, error, post, Ui())
    }
  }

  /**
   * Once a fetch has failed, a later successful fetch on the same page still
   * shows the earlier error: `fetchPost` never clears it.
   */
  method ErrorOutlivesSuccess(failure: FetchOutcome<Envelope<Option<Post>>>, success: FetchOutcome<Envelope<Option<Post>>>)
    returns (s: Screen)
    requires FetchEffectOf(failure).SetError? && FetchEffectOf(failure).error != ""
    requires FetchEffectOf(success).SetPost? && FetchEffectOf(success).post.Some?
    ensures s == ErrorText(FetchEffectOf(failure).error)
  {
    var page := new DetailPage();
    page.FetchPost(failure);
    page.FetchPost(success);
    s := page.Render();
  }

  /**
   * A `success` body whose `data` is null or missing stores no post, so a
   * fresh page ends on "Post not found.".
   */
  method SuccessWithoutDataNotFound(outcome: FetchOutcome<Envelope<Option<Post>>>) returns (s: Screen)
    requires outcome.Completed? && outcome.body == Success(None)
    ensures s == NotFound
  {
    var page := new DetailPage();
    page.FetchPost(outcome);
    s := page.Render();
  }
}
