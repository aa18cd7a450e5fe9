# jchatapp screen logic in Dafny

This project models the list and record transformations inside the jchatapp mobile chat
client's screens. These are the pieces of the app that compute something rather than lay
out views:

- **AddUserToList**: the selected-users set keyed by `pk`, toggled by tapping a user and
  shrunk by its close button. Also the search box, whose `GET /searchUser` outcome (found,
  404, other error) decides the offered users, the "No user found." notice and the spinner.
- **EditUserList**: the case-insensitive username filter over the screen's local user
  list. Also the local update after `POST /deleteuserfromlist`.
- **NewMessage**: the follower list loaded once on mount, and the effect that re-filters
  it whenever the query or the followers change.
- **Timeline**: the timeline is assembled as new posts, one "You're All Caught Up" marker,
  then old posts. Each entry gets its list key and is dispatched to a render kind. A video
  post plays only when it is visible and the screen has focus.
- **Renderer**: image and video messages are clamped to 200 units wide, keeping their
  aspect ratio. Also the URL and media type the media viewer opens for a shared post, and
  the preview URL and caption of a shared post.
- **ChatSettings**: the member list built from the `userMap`/`userProfiles` maps, and
  the rename-group modal (open, type, cancel, back gesture, save).

Shared pieces:
- `Seqs.Keep` is `Array.prototype.filter`.
- `Ascii` holds `toLowerCase` restricted to ASCII, and `String.prototype.includes`.
- `Users` holds the user record with the two list operations every screen uses: the
  username filter and removal by `pk`.

Each network call is replaced by a parameter that carries its outcome. Every operation is
a pure function or method from the old screen state (and that outcome) to the new state. A `None`
result stands for a JavaScript expression that throws a TypeError.

## Model

| member | source | states |
|---|---|---|
| Seqs.Keep | AddUsertoList.js:83 | `filter` keeps exactly the elements that pass the predicate: each kept element is from the input and passes, and each passing element of the input is kept |
| Seqs.KeepIsSubsequence | EditUserListScreen.js:14-16 | a filtered list is a subsequence of its input, so the relative order is preserved |
| Seqs.KeepCount | AddUsertoList.js:83 | every occurrence of a passing value survives and every occurrence of a failing one is dropped |
| Seqs.KeepShorter | AddUsertoList.js:83 | filtering out at least one element gives a strictly shorter list |
| Seqs.KeepAll | EditUserListScreen.js:15 | when every element passes, `filter` returns the list unchanged |
| Seqs.KeepAppend | AddUsertoList.js:83-85 | filtering distributes over concatenation |
| Seqs.KeepCongruent | NewMessageScreen.js:27-29 | two predicates that agree on the list's elements select the same sublist |
| Seqs.KeepCommute | EditUserListScreen.js:14-29 | two filters give the same result in either order |
| Ascii.IncludesIffOccurs | EditUserListScreen.js:15 | `includes` is true exactly when the query occurs at some position of the string |
| Ascii.LowerOfUpper | NewMessageScreen.js:28 | lower-casing an upper-cased string gives the lower-cased original (ASCII) |
| Users.FilterByUsername | EditUserListScreen.js:14-16 | the username filter gives a subsequence of the users; a user is kept iff its lower-cased username contains the lower-cased query; kept users keep every occurrence |
| Users.RemovePk | EditUserListScreen.js:28 | removing a `pk` leaves no entry with it and keeps every other entry, in order and with its multiplicity; an absent `pk` leaves the list unchanged; distinct keys stay distinct |
| Users.DistinctAfterKeep | AddUsertoList.js:83 | filtering a list with distinct `pk`s keeps them distinct |
| Users.FilterEmptyQuery | EditUserListScreen.js:15 | an empty query keeps the whole list |
| Users.FilterDependsOnLowerQuery | NewMessageScreen.js:28 | queries with the same lower-case form select the same users |
| Users.FilterCaseInsensitive | EditUserListScreen.js:15 | a query, its upper-case form and its lower-case form select the same users |
| Users.FilterAfterRemove | EditUserListScreen.js:14-29 | removing a `pk` and then filtering by username equals filtering and then removing |
| AddUserToList.Toggle | AddUsertoList.js:80-88 | a tapped user's selected state is negated. An unselected user is appended at the end, so the length grows by one. A selected user's `pk` disappears while the others stay in order. Distinct `pk`s stay distinct |
| AddUserToList.RemoveSelected | AddUsertoList.js:90-92 | the close button drops exactly the entries with that `pk`, keeps the rest in order, and changes nothing when the `pk` is absent |
| AddUserToList.ToggleTwiceRestores | AddUsertoList.js:82-85 | tapping an unselected user twice gives back the original selection |
| AddUserToList.ToggleTwiceMovesToEnd | AddUsertoList.js:82-85 | tapping a selected user twice removes its `pk` and appends the user at the end |
| AddUserToList.SearchUsers | AddUsertoList.js:42-66 | an empty query sends no request, offers `users` and clears the notice. A found user is offered alone. A 404 offers nothing and raises the notice. Any other failure keeps the offered list and notice and raises the alert. Loading is off after each completed request. The selection never changes |
| AddUserToList.ChangeText | AddUsertoList.js:149-152 | typing records the text, clears the "No user found." notice and changes nothing else |
| AddUserToList.Shown | AddUsertoList.js:167-178 | the spinner shows iff a search is loading; the "No user found." notice shows iff nothing is loading and the notice flag is set; otherwise the offered users are listed |
| AddUserToList.InitValid | AddUsertoList.js:9-15 | the initial state meets the screen invariant |
| AddUserToList.StepPreservesValid | AddUsertoList.js:42-152 | typing, searching, tapping and removing keep the invariant: `users` stays empty, nothing is loading between events, the notice implies an empty result, and selected `pk`s are distinct |
| AddUserToList.NoticeAfterTypedSearch | AddUsertoList.js:43-64 | after typing a query and completing its search, the notice shows iff the query is non-empty and the answer was 404. A found user is listed alone. An empty query lists nothing, since `users` is never filled |
| EditUserList.Open | EditUserListScreen.js:10-16 | the screen opens on a local copy of the given list and, with the empty query, shows all of it |
| EditUserList.FilteredUserList | EditUserListScreen.js:14-16 | the shown users form a subsequence of the local list, a user is shown iff its username contains the query, ignoring case, and every copy of a shown user is kept |
| EditUserList.SetQuery | EditUserListScreen.js:92 | typing changes the query and not the local list |
| EditUserList.DeleteUserFromList | EditUserListScreen.js:18-36 | an ok response removes exactly the users with that `pk`, keeping the rest in order. A non-ok response or a thrown error leaves the screen unchanged |
| EditUserList.DeleteThenFilter | EditUserListScreen.js:14-29 | after a successful delete, the shown list is the previously shown list without that `pk` |
| NewMessage.LoadFollowers | NewMessageScreen.js:11-23 | a successful load sets both `followers` and `filteredFollowers` to the response; a failure changes nothing |
| NewMessage.FilterEffect | NewMessageScreen.js:25-31 | the effect keeps a subsequence of the followers, a follower is kept iff its username contains the query, ignoring case, and every copy of a kept follower is kept |
| NewMessage.ChangeQuery | NewMessageScreen.js:64 | typing sets the query and leaves the followers alone |
| NewMessage.InitSettled | NewMessageScreen.js:7-9 | the initial state already shows the filtered follower list |
| NewMessage.MountSettles | NewMessageScreen.js:11-31 | after the mount load and the effect it triggers, the shown list is the filtered follower list |
| NewMessage.ChangeQuerySettles | NewMessageScreen.js:25-31 | after typing, the shown list is the followers filtered by the new query |
| NewMessage.MountFreshShowsAll | NewMessageScreen.js:15-16 | on a fresh screen, the loaded followers are all shown, both before and after the effect re-runs |
| NewMessage.ChangeQueryCaseInsensitive | NewMessageScreen.js:28 | the upper- and lower-case forms of a query show the same followers |
| NewMessage.EmptyQueryShowsAll | NewMessageScreen.js:28 | clearing the query shows every follower |
| Timeline.Key | TimelineDisplay.js:82 | an entry's key is its non-empty `organic_tracking_token`, and otherwise its `id` |
| Timeline.PrepareTimelineData | TimelineDisplay.js:60-63 | the timeline has length new + old + 1. The marker `allCaughtUp` is at index `newPosts.length`, the new posts come before it, and the old posts come after it |
| Timeline.RenderItem | TimelineDisplay.js:38-58 | each entry maps to exactly one render kind: the banner iff it is the marker, otherwise photo, video, carousel or placeholder by `media_type` 1, 2, 8 or other. A video plays iff its key is visible and the screen is focused |
| Timeline.VisibleKeys | TimelineDisplay.js:34-36 | the visible keys are exactly the keys of the viewable entries |
| Timeline.ViewableVideoPlaysWhenFocused | TimelineDisplay.js:34-47 | a viewable video post plays exactly when the screen is focused |
| Timeline.OneCaughtUpBanner | TimelineDisplay.js:38-63 | when no post carries `type: 'marker'`, the assembled timeline draws the banner exactly once, at index `newPosts.length` |
| Renderer.ImageMessageSize | Renderer.js:19-23 | the drawn width never exceeds 200, and is exactly 200 for wider media. Media at most 200 wide keep their size. The aspect ratio is preserved and a positive height never grows |
| Renderer.VideoMessageSize | Renderer.js:33-37 | a video message is drawn at the same size as an image message with the same dimensions |
| Renderer.ScaleIdempotent | Renderer.js:20-23 | scaling an already scaled size changes nothing |
| Renderer.FirstUrl | Renderer.js:54 | reading `[0].url` succeeds iff the list is present and non-empty, and gives its first URL |
| Renderer.OpenMediaViewer | Renderer.js:52-58 | the type is image iff `product_type` is `"clip"`. A `"clips"` post opens its first video, and only when the display URL can also be read. Any other post opens its display URL |
| Renderer.ClipsIgnoreImages | Renderer.js:54-58 | a `"clips"` post opens the same video whatever its image candidates, as long as reading them does not throw |
| Renderer.MediaSharePreviewAsWritten | Renderer.js:62-85 | the preview URL is the display URL of the first carousel element or of the post. The carousel branch fails whenever the caption is null |
| Renderer.MediaSharePreview | Renderer.js:62-85 | with the carousel caption guarded: a preview exists iff the shown media has a URL, and its caption is the caption text or `''` |
| Renderer.PreviewsAgreeExceptCaptionlessCarousel | Renderer.js:62-85 | the two previews agree on every post except a carousel with a null caption |
| Renderer.CaptionlessCarouselThrows | Renderer.js:66 | a one-image carousel with a null caption makes the preview as written fail, while the guarded one shows that image with `''` |
| ChatSettings.BuildMembers | ChatSettings.js:17-21 | there is one member per key of `userMap` and the `userId`s are distinct. Each `name` is `userMap[userId]`. Each `avatar` is `userProfiles[userId]`, absent when there is no profile |
| ChatSettings.MemberListsAgree | ChatSettings.js:17-21 | any two member lists for the same maps hold the same rows, so key order is the only freedom |
| ChatSettings.OpenModal | ChatSettings.js:37 | "Change" opens the modal and keeps the name typed so far |
| ChatSettings.EditName | ChatSettings.js:82 | typing sets the pending name and leaves visibility alone |
| ChatSettings.HandleCancel | ChatSettings.js:12-15 | cancel closes the modal and clears the pending name, back to the initial modal state |
| ChatSettings.RequestClose | ChatSettings.js:67 | the back gesture closes the modal but keeps the pending name |
| ChatSettings.ReopenAfterClose | ChatSettings.js:12-15 | reopening after the back gesture shows the earlier name; reopening after cancel shows an empty field |
| ChatSettings.Save | ChatSettings.js:86-89 | Save sends the pending name for this thread, then closes the modal and clears the name at once, back to the initial modal state; the rename call is not awaited, so its result cannot affect the modal |

## Left out

- HTTP calls are not modelled as calls: `axios`/`fetch` become outcome parameters (found / empty body / HTTP status / no response, ok / not ok / thrown, fetched / failed). Logging and the alert's text are not modelled; the alert is a flag.
- `addUsertoList`, `createChat` and `fetchChatMessages` (AddUsertoList.js:17-28, 68-78, 94-107) only post or fetch and navigate. They compute nothing over the screen state.
- The 500 ms debounce timer before a search (AddUsertoList.js:30-40) is time-driven and not modelled. A search is an explicit event.
- AddUserToList.SearchUsers: the call is modelled as one atomic step, so the spinner state during the request (`isLoading` true) is not an observable state. Stale closures are not modelled either: a search that completes after the query has changed again.
- EditUserList.DeleteUserFromList: the update uses the list current at the delete, not a list captured earlier by the handler's closure.
- Users.FilterByUsername: `toLowerCase` is modelled for ASCII letters only. Other Unicode case mappings are left out.
- Renderer.ImageMessageSize: uses exact real arithmetic. JavaScript's floating-point rounding of `200 / width` and the products is not covered.
- Renderer.OpenMediaViewer: only string values of `product_type` are modelled, so JavaScript's loose `==` reduces to string equality. An `image_versions2` object without a `candidates` field is not representable.
- ChatSettings.BuildMembers: `Object.keys` lists integer-like keys in ascending order, then the other keys in insertion order; the model leaves the order open. ChatSettings.MemberListsAgree shows the order is the only thing left open.
- Media playback, navigation and layout are not modelled: the `Video` component, `navigation.navigate`, styles and the caught-up banner's text. This includes `RenderItemType2`'s play/pause effect, which only forwards the focus flag.
- `handlePressFollower` (NewMessageScreen.js:33-35) has an empty body.

## Findings

| source | as written | input that shows it | evidently intended | confidence | as-written member | corrected member |
|---|---|---|---|---|---|---|
| Renderer.js:66 | the carousel branch reads `post.caption.text` without checking `post.caption`, so a carousel without a caption throws a TypeError while rendering | a shared post with `carousel_media` = one image and `caption` = null | show the first element with caption `''`, as the single-media branch does at line 85 | medium, not executed | Renderer.MediaSharePreviewAsWritten (exhibited by Renderer.CaptionlessCarouselThrows) | Renderer.MediaSharePreview |
