# ItemInsight client: a Dafny model of its event handlers

ItemInsight is a React web client for a social site of product posts. This
project models the logic inside its components: the session flag and the
routes it selects, the route guard, logout clearing the persistent store, the
header avatar refresh, the change-password and registration forms, the
optimistic like / favourite / bookmark toggles, the handling of server results
on the post-detail, my-posts and bookmarks pages, the mapping of posts to cards,
shop classification of product links, the pairing of images with text blocks,
and the tab selector of the home page.

Structure:

- `common.dfy` (`Common`): `Option`, JavaScript truthiness of optional strings
  (`Present`, `OrElse` for `v || fallback`), `Lower` for `toLowerCase`,
  `Includes` for `includes`, and the decimal rendering of a number.
- `gateway.dfy` (`Gateway`, `Storage`): network outcomes, which every handler
  takes as an input (`fetch` completed with status and body, or threw; axios
  resolved, rejected with a response, or rejected without one), and
  `localStorage` as a class over a `map<string, string>`.
- One file per component. Components whose handlers overwrite state are
  classes whose fields are the component's `useState` variables. Each method
  is a handler, and its `ensures` ties the new fields to pure functions of the
  old ones. Those functions, and the lemmas about them, state the properties.
- Clicks on the main content, the burger button, a sidebar link and the
  sidebar's Logout entry require the logged-in flag, since those elements are
  rendered only in the logged-in layout of `App` (src/App.tsx:27-43).

Behaviour the model keeps exactly as the code has it:

- Bookmarks: without a stored `userId` the handler sets the error and returns
  before its `try`. `loading` is never reset, so the page keeps showing
  "Loading bookmarks..." and never the error (`Bookmark.MountWithoutUser`).
  The My Posts page resets `loading` in the same case and shows its error
  (`MyPosts.MountWithoutLogin`).
- Post detail: `fetchPost` never clears an earlier error, so after a failed
  fetch a later successful one still shows the error
  (`PostDetail.ErrorOutlivesSuccess`). The like counter starts at the fixed
  value 61.
- Register: a rejection whose body has no `message` shows "❌ undefined",
  and one whose `message` is `null` shows "❌ null", because a template
  literal prints those values that way (`Register.MissingAndNullMessages`).
  The change-password form's `||` treats both like an empty message.
- App: nothing in these components ever calls `handleLogin`. `Login` takes no
  props and `Register` ignores the `onRegister` it is given, so in this code
  the logged-in layout is never reached and only `/login` and `/register`
  render. The model keeps `App.Shell.HandleLogin` available as the handler.
- App: logged in, only `/home` and `/profile` are routes. The sidebar's
  Write, My Posts and Bookmark links therefore redirect to `/home`
  (`Sidebar.LinkTargetsAsRouted`).

## Model

| member | source | states |
|---|---|---|
| `App.Route` | src/App.tsx:17-40 | Logged out, exactly `/login` renders Login and `/register` renders Register, and every other path redirects to `/login`. Logged in, exactly `/home` renders Home and `/profile` renders Profile, and every other path redirects to `/home`. No redirect replaces the history entry. |
| `App.RedirectSettles` | src/App.tsx:22-39 | Following a fallback redirect always reaches a rendered page, never a second redirect. |
| `App.RenderedPagesPerState` | src/App.tsx:17-40 | Login and Register render exactly when logged out; Home and Profile exactly when logged in. |
| `App.Render` | src/App.tsx:17-43 | Header and Sidebar are rendered iff logged in; the content is the route for the path. |
| `App.Shell.constructor` | src/App.tsx:11-12 | The app starts logged out with the sidebar closed. |
| `App.Shell.HandleLogin` | src/App.tsx:14 | The flag becomes true whatever it was (so a second call changes nothing); the sidebar is untouched. |
| `App.Shell.HandleLogout` | src/App.tsx:15 | The flag becomes false whatever it was; the sidebar is untouched. |
| `App.Shell.SetOpen` | src/App.tsx:11 | The sidebar setter handed to Header and Sidebar sets `open` and nothing else. |
| `App.Shell.ClickMainContent` | src/App.tsx:33 | A click on the main content closes the sidebar and leaves the session flag. |
| `App.FirstRender` | src/App.tsx:11-24 | A fresh app shows no header or sidebar; it renders a page exactly for `/login` and `/register` and otherwise redirects to `/login`. |
| `ProtectedRoute.Guard` | src/Components/ProtectedRoute.tsx:9-16 | Logged in, the children are returned unchanged; logged out, the result is a redirect to `/login` that replaces the history entry. |
| `ProtectedRoute.GuardIgnoresChildren` | src/Components/ProtectedRoute.tsx:9-16 | Whether the children pass depends on the flag alone; logged out, the result is the same for any children. |
| `ProtectedRoute.GuardAgreesWithAppFallback` | src/Components/ProtectedRoute.tsx:11-12 | The guard and the app's logged-out catch-all route redirect to the same path; only the guard uses `replace`. |
| `Sidebar.AfterLogout` | src/Components/Sidebar.tsx:21-27 | Logout removes exactly token, userEmail, userId and avatarUrl; every other key keeps its value. |
| `Sidebar.LogoutIdempotent` | src/Components/Sidebar.tsx:21-27 | Logging out twice leaves the same store as logging out once. |
| `Sidebar.LogoutKeepsOtherKeys` | src/Components/Sidebar.tsx:22-25 | A key outside the four, such as `username`, survives logout with its value. |
| `Sidebar.LinkTargetsAsRouted` | src/Components/Sidebar.tsx:32-50 | Of the five link targets, only Home and Profile are routes of the logged-in app; the other three redirect to `/home`. |
| `Sidebar.HandleLogout` | src/Components/Sidebar.tsx:21-27 | The store loses the four session keys and the app's flag becomes false (`onLogout`). The sidebar flag is not changed. |
| `Sidebar.ClickLink` | src/Components/Sidebar.tsx:32-50 | A link click closes the sidebar, keeps the session flag and navigates to the link's target. |
| `Sidebar.ClickLogout` | src/Components/Sidebar.tsx:53-62 | The Logout entry closes the sidebar, clears the session keys and logs out. |
| `Header.InitialAvatar` | src/Components/Header.tsx:14-17 | The initial avatar is the stored avatarUrl when it is present and non-empty. Otherwise it is the fixed default picture. It is never empty. |
| `Header.RefreshedAvatar` | src/Components/Header.tsx:21-26 | On "avatarUpdated" the avatar becomes the stored value when it is present and non-empty. Otherwise the avatar stays as it was. |
| `Header.RefreshAgreesWithMount` | src/Components/Header.tsx:14-26 | A refresh that finds a value shows what a newly mounted header would show. A refresh that finds none keeps the current avatar rather than the default. |
| `Header.RefreshIdempotent` | src/Components/Header.tsx:21-26 | Two refreshes from the same storage equal one. |
| `Header.HeaderBar.constructor` | src/Components/Header.tsx:14-17 | The header's avatar state starts as the initial avatar of the store. |
| `Header.HeaderBar.HandleAvatarUpdate` | src/Components/Header.tsx:21-26 | The avatar state becomes the refreshed avatar of the current store and stays non-empty. |
| `Header.HeaderBar.ClickBurger` | src/Components/Header.tsx:40 | The burger click flips `open`, so two clicks restore it. |
| `ChangePassword.Validate` | src/ChangePassword.tsx:22-41 | A request carrying `{currentPassword, newPassword}` for the user goes out iff the userId is truthy, new = confirm and the length is at least 6. The checks give the login, then mismatch, then length error in that order. |
| `ChangePassword.FirstFailureWins` | src/ChangePassword.tsx:22-35 | Only the first failing check's message is shown. No user hides a mismatch and a short password. For any logged-in user, a mismatch is reported whatever the length. |
| `ChangePassword.FailureMessage` | src/ChangePassword.tsx:52-54 | A failed request shows the server's message when it is truthy. Otherwise it shows the generic "❌ Failed to change password": for a response whose message is missing, `null` or empty, and for no response at all. |
| `ChangePassword.FalsyMessagesAlike` | src/ChangePassword.tsx:53 | A missing, a `null` and an empty server message all give the generic failure text. |
| `ChangePassword.ChangePasswordForm.constructor` | src/ChangePassword.tsx:8-14 | All fields and messages start empty; the userId is read from the store. |
| `ChangePassword.ChangePasswordForm.EditCurrent` | src/ChangePassword.tsx:83 | Typing sets the current-password field only. |
| `ChangePassword.ChangePasswordForm.EditNew` | src/ChangePassword.tsx:100 | Typing sets the new-password field only. |
| `ChangePassword.ChangePasswordForm.EditConfirm` | src/ChangePassword.tsx:117 | Typing sets the confirm field only. |
| `ChangePassword.ChangePasswordForm.Submit` | src/ChangePassword.tsx:17-55 | Both messages are cleared first. A failed check sets its error and sends nothing. On success the message is set, the three fields become "" and the form navigates to `/profile`. On failure the error is set and the fields keep their values. |
| `Register.TemplateText` | src/Components/Register.tsx:34 | Inside the template literal a missing server message prints as "undefined", a `null` one as "null", and a string as itself. |
| `Register.Settled` | src/Components/Register.tsx:27-38 | Success gives "✅ Registered successfully!" and navigation to `/login`. A rejection with a response gives "❌ " followed by the server's message. No response gives "❌ Cannot connect to server". Only success navigates. |
| `Register.RejectionShownVerbatim` | src/Components/Register.tsx:33-34 | The server's rejection message follows the cross mark unchanged. |
| `Register.MissingAndNullMessages` | src/Components/Register.tsx:34 | A rejection with no `message` shows "❌ undefined"; one with `message: null` shows "❌ null". |
| `Register.RegisterForm.constructor` | src/Components/Register.tsx:8-12 | All fields and the message start empty. |
| `Register.RegisterForm.EditUsername` | src/Components/Register.tsx:54 | Typing sets the username field only. |
| `Register.RegisterForm.EditEmail` | src/Components/Register.tsx:62 | Typing sets the email field only. |
| `Register.RegisterForm.EditPassword` | src/Components/Register.tsx:72 | Typing sets the password field only. |
| `Register.RegisterForm.EditConfirm` | src/Components/Register.tsx:81 | Typing sets the confirm field only. |
| `Register.RegisterForm.HandleRegister` | src/Components/Register.tsx:14-39 | A request goes out iff password = confirm, with body exactly `{username, email, password}` as entered. Otherwise the message is "❌ Passwords do not match!". After a request the message and navigation follow the outcome. |
| `PostCard.InitialState` | src/Components/PostCard.tsx:31-34 | liked, favorited and bookmarked come from the post and default to false; likesCount comes from `likes` and defaults to 0. |
| `PostCard.AfterLike` | src/Components/PostCard.tsx:41-42 | liked flips. The count moves +1 when the card becomes liked and -1 when it becomes unliked. favorited and bookmarked stay as they were. |
| `PostCard.AfterFavorite` | src/Components/PostCard.tsx:54 | Only favorited flips; the count is untouched. |
| `PostCard.AfterBookmark` | src/Components/PostCard.tsx:66 | Only bookmarked flips; the count is untouched. |
| `PostCard.LikeTwiceRestores` | src/Components/PostCard.tsx:41-42 | Two like clicks restore liked and likesCount. |
| `PostCard.FavoriteTwiceRestores` | src/Components/PostCard.tsx:54 | Two favourite clicks restore the state. |
| `PostCard.BookmarkTwiceRestores` | src/Components/PostCard.tsx:66 | Two bookmark clicks restore the state. |
| `PostCard.TogglesCommute` | src/Components/PostCard.tsx:40-75 | The three toggles touch disjoint state, so any two commute. |
| `PostCard.Card.constructor` | src/Components/PostCard.tsx:31-34 | The card's state starts as the initial state of its post. |
| `PostCard.Card.HandleLike` | src/Components/PostCard.tsx:40-51 | The state becomes the liked state, and the request body carries the new flag (the negation of the old one). The state depends on nothing the request returns, so a failure reverts nothing. |
| `PostCard.Card.HandleFavorite` | src/Components/PostCard.tsx:53-63 | The same for favorited. |
| `PostCard.Card.HandleBookmark` | src/Components/PostCard.tsx:65-75 | The same for bookmarked. |
| `Common.OrElse` | src/Components/Header.tsx:15 | JavaScript's logical-or fallback on an optional string gives `v` when it is present and non-empty (truthy), and the fallback for null or "". |
| `Common.IncludesAtIndex` | src/PostDetail.tsx:145 | `includes` holds exactly when the needle occurs at some index `i`, i.e. the slice of `s` at `i` of the needle's length equals the needle. |
| `Gateway.JsonText.AsOption` | src/ChangePassword.tsx:53 | A body's `message` field read as an optional string: a string field gives that string, a missing or `null` field gives nothing. |
| `Gateway.Thrown.Describe` | src/PostDetail.tsx:60-61 | A caught `Error` is described by its message, any other thrown value by its string form. |
| `Common.Lower` | src/PostDetail.tsx:141 | Lower-casing keeps the length and maps each character to its lower-case form. |
| `Common.IncludesLower` | src/PostDetail.tsx:145 | A substring occurrence survives lower-casing both strings. |
| `Common.NatToString` | src/Myposts.tsx:63 | A status code prints as a non-empty string of decimal digits, with a leading zero only for 0. |
| `Common.NatToStringValue` | src/Myposts.tsx:63 | The printed digits read back as the number: the decimal value of the rendering of `n` is `n`. |
| `MyPosts.HttpErrorNamesStatus` | src/Myposts.tsx:60-63 | A non-2xx response gives an error that starts "HTTP error! status: ", and the digits after that prefix spell the response's status code. |
| `Common.FirstImageOr` | src/Myposts.tsx:89 | The first image's URL when it is present and non-empty, otherwise the placeholder. |
| `PostDetail.PlatformsDistinct` | src/PostDetail.tsx:146-156 | The four platforms show four different names (Shopee, Lazada, Apple, Shop) and four different logo URLs; `Platform.Name` and `Platform.Logo` hold the constants. |
| `PostDetail.Classify` | src/PostDetail.tsx:141-157 | The URL is lower-cased and checked for "shopee", then "lazada", then "apple", otherwise it is a "Shop" link. The first match wins. |
| `PostDetail.ClassifyIgnoresCase` | src/PostDetail.tsx:141 | Classification gives the same result for a URL and its lower-cased form. |
| `PostDetail.ShopeeInAnyCase` | src/PostDetail.tsx:141-147 | A URL containing "shopee" in any letter case is a Shopee link, whatever else it contains. |
| `PostDetail.LazadaInAnyCase` | src/PostDetail.tsx:148-150 | A URL containing "lazada" in any case, and no "shopee", is a Lazada link. |
| `PostDetail.Entry` | src/PostDetail.tsx:159-173 | A menu entry links to the product URL and shows its platform's logo and name. |
| `PostDetail.CartEntries` | src/PostDetail.tsx:140-175 | One entry per product link, in order. |
| `PostDetail.CartMenu` | src/PostDetail.tsx:138 | The cart menu is shown iff it is open and productLinks is present and non-empty. |
| `PostDetail.Caption` | src/PostDetail.tsx:203-205 | Image i gets a paragraph iff block i exists. The paragraph holds the block's text, or "" when the block has none. |
| `PostDetail.Figures` | src/PostDetail.tsx:200-207 | One figure per image, in order, each with the caption of the block at the same index. |
| `PostDetail.CaptionCount` | src/PostDetail.tsx:200-207 | The number of paragraphs shown is the smaller of the image and block counts, so blocks beyond the images are never shown. |
| `PostDetail.AfterLike` | src/PostDetail.tsx:114-117 | liked flips and likes moves by +1 or -1 according to the previous flag; nothing else changes. |
| `PostDetail.AfterBookmark` | src/PostDetail.tsx:183 | Only bookmarked flips. |
| `PostDetail.AfterCart` | src/PostDetail.tsx:133 | Only showCartLinks flips. |
| `PostDetail.LikeTwiceRestores` | src/PostDetail.tsx:114-117 | A double like toggle is the identity. |
| `PostDetail.LikeRuleMatchesCard` | src/PostDetail.tsx:114-117 | The detail page's like rule gives the same flag and count as a post card's. |
| `PostDetail.FetchEffectOf` | src/PostDetail.tsx:52-64 | A `success` body stores its `data` as the post, including a null or missing `data`, which stores no post. A failure body sets the server message or "Failed to fetch post". A throw sets its message or its string form. |
| `PostDetail.FailureBodyError` | src/PostDetail.tsx:56-58 | A failure body always gives a non-empty error, whatever the HTTP status. |
| `PostDetail.ContentOf` | src/PostDetail.tsx:97-102 | The content shows the title, and the post's own subtitle exactly when that subtitle is truthy. Author name and avatar fall back to "Anonymous" and the placeholder. It also shows the like and bookmark state, the cart menu and the image figures. |
| `PostDetail.ScreenOf` | src/PostDetail.tsx:91-93 | Render priority: loading, then a truthy error, then not-found, then the content. |
| `PostDetail.ErrorOutlivesSuccess` | src/PostDetail.tsx:52-64 | On a fresh page, a fetch that fails with a non-empty error followed by one that succeeds with a post renders the first fetch's error, not the post. |
| `PostDetail.SuccessWithoutDataNotFound` | src/PostDetail.tsx:57 | On a fresh page, a `success` body with null or missing `data` stores no post, so the page renders "Post not found.". |
| `PostDetail.DetailPage.constructor` | src/PostDetail.tsx:38-48 | No post, loading, no error, not liked with 61 likes, not bookmarked, cart closed. |
| `PostDetail.DetailPage.FetchPost` | src/PostDetail.tsx:52-65 | The fetch effect is applied: the post is set to the body's `data` with the error kept, or the error is set with the post kept. loading is false afterwards and the toggles are unchanged. |
| `PostDetail.DetailPage.ClickLike` | src/PostDetail.tsx:114-117 | The toggles become the liked state; the post and fetch state are unchanged. |
| `PostDetail.DetailPage.ClickBookmark` | src/PostDetail.tsx:183 | Only the bookmark flag flips. |
| `PostDetail.DetailPage.ClickCart` | src/PostDetail.tsx:133 | Only the cart flag flips. |
| `MyPosts.TransformPostForCard` | src/Myposts.tsx:82-95 | id = _id, slug = slug or _id, description = subtitle or "". username defaults to "You", and avatar and image fall back to placeholders, the image being the first image's URL. likes = likesCount or 0, and all three flags are false. |
| `MyPosts.CardStartsNeutral` | src/Myposts.tsx:90-93 | A card built from a transformed post starts unliked, unfavourited and unbookmarked, with the post's like count. |
| `MyPosts.CardFieldsNonEmpty` | src/Myposts.tsx:83-89 | For a post with an id, the card's slug, image, avatar and username are never empty. |
| `MyPosts.Cards` | src/Myposts.tsx:153-155 | One card per post, in order. |
| `MyPosts.ResultOf` | src/Myposts.tsx:60-76 | A non-2xx response gives "HTTP error! status: N". `success:false` gives its message or "Failed to load posts". `success` gives the data. A thrown Error gives its message, any other thrown value "An error occurred". |
| `MyPosts.ResponseErrorsNonEmpty` | src/Myposts.tsx:60-73 | An error derived from a response is never empty. |
| `MyPosts.SectionsOf` | src/Myposts.tsx:122-157 | The loading note shows iff loading and the error box iff the error is truthy. The empty note and the card list show only when neither does, chosen by whether posts is empty. |
| `MyPosts.CardsExcludeNotes` | src/Myposts.tsx:143-157 | Cards are shown exactly when no note and no error is. |
| `MyPosts.MyPostsPage.constructor` | src/Myposts.tsx:23-30 | No posts, loading, no error; userId and token read from the store. |
| `MyPosts.MyPostsPage.FetchMyPosts` | src/Myposts.tsx:37-80 | A request happens iff userId and token are truthy; otherwise the "must be logged in" error is set and posts are unchanged. A request clears the error, then replaces posts on success or sets the error and keeps posts. loading is false after every attempt. |
| `MyPosts.MountWithoutLogin` | src/Myposts.tsx:38-42 | Without a stored user id or token the page shows the login error at once, with no loading note and no cards. |
| `Bookmark.Normalize` | src/Bookmark.tsx:36-38 | A `success` envelope gives `data.data`; a bare array gives the array itself; any other shape gives nothing. |
| `Bookmark.ShapesAgree` | src/Bookmark.tsx:36-38 | The envelope and the bare array give the same list for the same posts. |
| `Bookmark.EffectOf` | src/Bookmark.tsx:35-44 | An accepted shape sets the list. Any other shape gives "Failed to fetch bookmarks". A throw gives its message or its string form. |
| `Bookmark.CardOf` | src/Bookmark.tsx:60-86 | A card links to `/posts/<slug>`. It shows the first image or a placeholder, the title, and the username or "Anonymous". |
| `Bookmark.Cards` | src/Bookmark.tsx:60-86 | One card per bookmark, in order. |
| `Bookmark.ScreenOf` | src/Bookmark.tsx:52-89 | Render priority: loading, then a truthy error, then empty, then the grid of cards. |
| `Bookmark.BookmarkPage.constructor` | src/Bookmark.tsx:22-27 | No bookmarks, loading, no error; userId read from the store. |
| `Bookmark.BookmarkPage.FetchBookmarks` | src/Bookmark.tsx:30-48 | A missing userId sets "User not logged in" and returns, leaving loading and the list. Otherwise the effect is applied (list set, or error set with the list kept) and loading is false. |
| `Bookmark.MountWithoutUser` | src/Bookmark.tsx:31 | Without a stored userId a freshly mounted page stays on "Loading bookmarks...". |
| `Bookmark.MountWithUser` | src/Bookmark.tsx:30-54 | With a stored userId the page leaves the loading state. It shows the fetch's error (when truthy), or else the empty note or the grid. |
| `Home.Paragraphs` | src/Home.tsx:41-43 | At most one paragraph shows, exactly one when the active tab is one of the three, and it is that tab's paragraph. |
| `Home.LookOf` | src/Home.tsx:14-35 | A tab is bold, black, underlined and of class "tab active" iff it is the active tab. |
| `Home.TabBar` | src/Home.tsx:11-37 | One look per tab, in the order of the three tabs. |
| `Home.ExactlyOneHighlighted` | src/Home.tsx:17-18 | With a valid active tab, only the active tab is drawn bold. |
| `Home.HomePage.constructor` | src/Home.tsx:4 | activeTab starts as "For you". |
| `Home.HomePage.ClickTab` | src/Home.tsx:15 | Clicking a tab makes it active, so activeTab is always one of the three tabs. |
| `Home.HomePage.Shown` | src/Home.tsx:41-43 | Exactly one paragraph is shown: the active tab's. |
| `Storage.Store.GetItem` | src/Components/Header.tsx:15 | `getItem` returns the stored value, or null when the key is absent. |
| `Storage.Store.RemoveItem` | src/Components/Sidebar.tsx:22 | `removeItem` drops that key and keeps every other entry. |

## Left out

- HTTP: the requests themselves, URLs, headers, environment variables and JSON parsing are not modelled. Each handler takes the outcome of its request as a parameter, and a body that fails to parse is a thrown error.
- Asynchrony: each handler runs to completion in one step. The `loading = true` phase while a request is in flight and edits made before a response arrives are not represented.
- Timers and animation: the delayed navigations (1 s after a password change, 1.5 s after registering) are returned as the navigation target. The 300 ms animation flags of the post card and framer-motion are left out.
- Browser I/O: the registration of the "avatarUpdated" listener (the event is the `HandleAvatarUpdate` call), the click-outside handler that closes the cart menu, and the clipboard share are not modelled.
- Date formatting with `Intl.DateTimeFormat` on the post-detail and bookmark pages depends on locale and clock, and is left out. So are the comment counter (a constant 61 that no handler changes) and all other styling: CSS, and inline styles beyond the home tabs' look and the sidebar's open state.
- `MyPosts.ResultOf`: a `success` body is assumed to carry a `data` array. With null or missing `data` the source stores undefined and the page fails at `posts.length` (src/Myposts.tsx:70, 143). That crash is not modelled.
- `Bookmark.Normalize`: a `success` envelope is assumed to carry a `data` array. Without it the source stores undefined and the page fails at `bookmarks.length` (src/Bookmark.tsx:38, 54); that crash is not modelled.
- `App.Route`: compares paths exactly. The router's case-insensitive and trailing-slash matching is not modelled.
- `Common.Lower`: maps only the ASCII letters A-Z. Full Unicode lower-casing of `toLowerCase` is not modelled.
- `ChangePassword.Validate`: counts the length in characters, whereas `length` counts UTF-16 code units. The two differ for characters outside the Basic Multilingual Plane.
- `ChangePassword.ChangePasswordForm.Submit`: the browser's `required` check, which blocks submitting the form with an empty field, is not modelled.
- `Register.RegisterForm.HandleRegister`: a rejection whose response has no body would throw inside the `catch` block. That case is not modelled; a response is assumed to have a body.
- `Sidebar.HandleLogout`: removes the keys, then calls `onLogout`. The app's flag does not depend on the store, so the order shows only in the method body and not in its contract.
- The post card's markup (avatar and image placeholders), the header's search box, and the Profile, Login and Write pages are not part of this model. `App.jsx`, `Routes.tsx` and `main.tsx` are not part of it either: they are static markup, route tables or the entry point.
