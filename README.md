# Vlogify client-side store, session and pages in Dafny

This project models the client-side core of the Vlogify vlogging web application. All state lives in the browser:

- **Shared collections.** Module-level arrays of users, posts and moderation reports, seeded from a mock data set. Every page reads and mutates them in place.
- **Auth session.** An auth provider holds the logged-in user and mirrors it to the browser's key-value store.
- **Persistence service.** It seeds and reads the collections under fixed keys.
- **Pages.** Each page keeps local React state: a feed, a profile, a post page with likes, comments and reports, create and edit forms, a profile editor, an admin dashboard, and two AI-backed place searches.

## Modules

- `Types`: the records `User`, `Comment`, `Post` and `Report`. It also holds the enumerations for role, report kind and report status, with their wire spellings and parsers.
- `MockData`: the seed data set. The seed dates are relative to the load time `now`.
- `Storage`: the persistence service. It works over a map from keys to stored values, and the class `LocalStorage` stands for the browser store.
- `AppStore`: the class `Store`. It holds the shared `users`, `posts` and `reports`, the session user `currentUser`, and the browser store.
- `AuthContext`: the session state machine:
  - `RestoreSession`;
  - `Login`;
  - `Logout`;
  - `Register`;
  - `UpdateUser`, which uses the partial-record merge `Merge`.
- `SeqUtil` and `Text`: the JavaScript array and string idioms the pages use, with the edge cases the pages meet (strings are sequences of Unicode scalar values, see "## Left out"):
  - `findIndex`, `find`, `splice(i, 1)` and `filter`;
  - `trim()` emptiness;
  - `substring`, `split`/`join`;
  - `slice` with index clamping.
- `Pagination`: the page arithmetic shared by the feed and the dashboard, and the page selector component. The selector's `for` loop is a method with loop invariants.
- `Home`, `Profile`, `PostDetail`, `CreatePost`, `EditPost`, `EditProfile`, `AdminDashboard`, `ReportModal`, `Discover` and `ImageDiscover`: one module per page or component.
  - Each page's local state is a class.
  - Each event handler is a method that modifies that state and the shared `Store`.
  - The view logic is a set of functions with contracts.
- `PostForm`: the form state and handlers that the create and edit pages duplicate.
- `Gateway`: the shapes of what the AI service returns.

## Abstractions

- **Ids and times.** `Date.now()` becomes a parameter `stamp` (the decimal text of the clock), so an id is its prefix followed by `stamp`. ISO timestamps become integer milliseconds.
- **JSON.** Encoding is the identity: a stored item holds the value that was saved, or `Malformed` for text that does not parse.
- **Confirmations.** `window.confirm` is taken as accepted.
- **AI calls.** Each awaited call is an input `Outcome`: a returned value, a thrown `Error` with its message, or another thrown value. Each async handler is modelled in three parts:
  - a first method that runs up to the `await`;
  - a second method that runs after it;
  - a method that runs both as one step.
- **Browser callbacks.** The file reader's result and the geolocation callbacks become parameters.

## Behaviour of the code worth knowing

- **Write-backs.** The persistence service offers `saveUsers`, `savePosts` and `saveReports`, but no page calls them. Pages mutate the shared arrays directly, and only the auth provider writes to the browser store (the session key).
- **Failed login.** A failed login does not log anybody out: it leaves whatever session there was, and `AuthContext.Login` states exactly that.
- **Page clamp.** The dashboard's clamp does not keep the page at 1 or more by itself. When the last post is deleted, `totalPages` is 0 and the page is left as it was (`AdminDashboard.ClampLaws`).

## Model

| member | source | states |
|---|---|---|
| Types.ParseRole | types.ts:6 | a role is exactly one of the two spellings "user" and "admin", and parsing inverts the spelling |
| Types.ParseKind | types.ts:34 | a report kind is exactly "post" or "comment" |
| Types.ParseStatus | types.ts:40 | a report status is exactly "pending" or "resolved" |
| Types.WireNamesRoundTrip | types.ts:32-41 | every role, kind and status survives a trip through its wire spelling |
| Text.Prefix | pages/AdminDashboard.tsx:99 | `substring(0, n)` has length min(n, length) and is a prefix of the text |
| Text.Split | pages/Discover.tsx:84 | splitting on a character always yields at least one piece |
| Text.JoinSplit | pages/Discover.tsx:84 | joining the pieces of a split with the separator gives back the text |
| Text.SplitPiecesFree | pages/Discover.tsx:84 | no piece of a split contains the separator |
| Text.SliceIndex | pages/Home.tsx:27 | a relative `slice` index resolves into 0..length, and an in-range index is kept |
| Text.Slice | pages/Home.tsx:27 | `slice` never fails; in range it is the subsequence, and from the length onward it is empty |
| SeqUtil.FirstIndex | pages/AdminDashboard.tsx:22 | `findIndex` gives the first index with the key, or -1 exactly when no entry has it |
| SeqUtil.Find | pages/PostDetail.tsx:26 | `find` gives the entry at the first index with the key, or nothing exactly when none has it |
| SeqUtil.RemoveAt | pages/AdminDashboard.tsx:23 | `splice(i, 1)` drops exactly entry i, keeps the others in order, and shrinks the multiset by that entry |
| SeqUtil.RemoveFirst | pages/PostDetail.tsx:65-68 | the guarded splice removes the first match, and changes nothing without a match |
| SeqUtil.RemoveAll | pages/AdminDashboard.tsx:20 | `filter` by key inequality keeps exactly the entries with another key |
| SeqUtil.RemoveAllNoMatch | pages/AdminDashboard.tsx:20 | filtering a list with no match is the identity |
| SeqUtil.RemoveAllKeepsOrder | pages/AdminDashboard.tsx:20 | the survivors of a filter keep their relative order |
| SeqUtil.RemoveFirstIsRemoveAll | pages/AdminDashboard.tsx:20-23 | with unique keys, the splice of the shared list and the filter of a page's copy agree |
| SeqUtil.RemoveFirstLeavesNone | pages/AdminDashboard.tsx:22-23 | with unique keys, no entry with the key is left after the splice |
| SeqUtil.FirstIndexSameKeys | pages/EditPost.tsx:78-80 | lookups by key depend only on the keys, so field replacements do not move them |
| MockData.SeedUsersDistinct | data/mockData.ts:3-32 | the four seed users have pairwise distinct ids and emails |
| MockData.SeedAdmins | data/mockData.ts:9-30 | exactly user_1 and user_4 are seeded as admins |
| MockData.SeedLikes | data/mockData.ts:56-76 | every seeded like is a seed user id, with no duplicates within a post |
| MockData.SeedComments | data/mockData.ts:34-57 | the seed comments are on post_1 only and are written by seed users |
| MockData.SeedPostsNewestFirst | data/mockData.ts:58-78 | the seed posts are listed strictly newest first |
| MockData.SeedAuthorsAndReports | data/mockData.ts:49-82 | seed posts are authored by seed users, and the reports start empty |
| AppStore.Store.constructor | data/mockData.ts:3-82 | the shared state starts as the seed data set, with nobody logged in |
| Storage.Read | services/storageService.ts:11-24 | a read gives the stored value, or nothing exactly when the key is absent or does not parse |
| Storage.ReadDefaultsToEmpty | services/storageService.ts:62-82 | each getter yields the empty collection when its item reads as absent |
| Storage.SaveThenGet | services/storageService.ts:62-86 | a saved collection reads back unchanged, whatever was stored before |
| Storage.SeedIfAbsent | services/storageService.ts:40-43 | one guarded seed step writes only an absent key, and afterwards the key reads as present |
| Storage.InitializeSeedsOnlyAbsent | services/storageService.ts:40-53 | initialization seeds exactly the absent collections and leaves every other key alone |
| Storage.InitializeIdempotent | services/storageService.ts:40-53 | a second initialization, with any seeds, changes nothing |
| Storage.LocalStorage.SaveToStorage | services/storageService.ts:27-34 | a save replaces the whole item, and a failing write leaves the store unchanged |
| Storage.LocalStorage.SaveUsers | services/storageService.ts:66-68 | after a successful save, `getUsers` returns the saved list |
| Storage.LocalStorage.SavePosts | services/storageService.ts:75-77 | after a successful save, `getPosts` returns the saved list |
| Storage.LocalStorage.SaveReports | services/storageService.ts:84-86 | after a successful save, `getReports` returns the saved list |
| Storage.LocalStorage.InitializeData | services/storageService.ts:37-59 | the three guarded writes leave the store as `Initialized` describes, or unchanged when writes fail |
| Storage.LocalStorage.SetItem | context/AuthContext.tsx:31 | a bare `setItem` overwrites the one key |
| Storage.LocalStorage.RemoveItem | context/AuthContext.tsx:39 | `removeItem` drops the one key |
| AuthContext.MergeLaws | context/AuthContext.tsx:64 | the spread merge keeps every field the patch leaves out, takes every field it carries, and is idempotent |
| AuthContext.RegisterKeepsEmailsDistinct | context/AuthContext.tsx:44-56 | a registration that passed the duplicate check keeps emails unique |
| AuthContext.RegisterThenLogin | context/AuthContext.tsx:28-56 | after registering, logging in with that email finds the new user |
| AuthContext.RestoreSession | context/AuthContext.tsx:19-24 | on mount, the stored session user is adopted when one is stored |
| AuthContext.Login | context/AuthContext.tsx:26-35 | succeeds exactly when some user has the email, whatever the password; on success the session is the first such user and is stored, otherwise nothing changes |
| AuthContext.Logout | context/AuthContext.tsx:37-40 | always Anonymous afterwards, with the stored session removed |
| AuthContext.Register | context/AuthContext.tsx:42-60 | a taken email changes nothing and returns nothing; otherwise one plain user with the name-keyed avatar is appended, logged in, stored and returned |
| AuthContext.UpdateUser | context/AuthContext.tsx:62-72 | no-op when Anonymous; otherwise the merged user becomes the session, is stored, and replaces the first list entry with the old id (the list is unchanged if there is none) |
| Pagination.TotalPages | pages/Home.tsx:28 | `Math.ceil(n / size)`: zero exactly for no items, enough pages to hold every item, and no page to spare |
| Pagination.PageContents | pages/Home.tsx:25-27 | page p shows the items from (p-1)·size up to p·size, cut at the end of the list |
| Pagination.OutOfRangePagesEmpty | pages/Home.tsx:25-27 | page 0 and every page past the last show nothing, without failing |
| Pagination.PageCovers | pages/Home.tsx:25-27 | a page covers a position exactly when it is that position's page |
| Pagination.EachItemOnOnePage | pages/Home.tsx:25-28 | every item lies on exactly one page, among 1..totalPages, at offset k mod size |
| Pagination.FifteenItemsBySix | pages/Home.tsx:25-28 | fifteen posts, six to a page, make pages of 6, 6 and 3, and page 4 is empty |
| Pagination.PageNumbers | components/Pagination.tsx:10-13 | the loop lists exactly 1..totalPages in ascending order |
| Pagination.Render | components/Pagination.tsx:15-45 | hidden exactly when there is at most one page; otherwise Previous is disabled on page 1, Next on the last page, and exactly the current page's button is highlighted |
| Pagination.ClicksStayInRange | components/Pagination.tsx:22-45 | from a page in range, every enabled click emits a page in range |
| Pagination.OnClick | components/Pagination.tsx:22-45 | a hidden selector emits nothing; Previous emits the page before the current one and is inert exactly on page 1, Next emits the page after it and is inert exactly on the last page; a number emits its page exactly when it is in range |
| Pagination.ArrowsUndoEachOther | components/Pagination.tsx:22-45 | Previous then Next, or Next then Previous, comes back to the page it started from |
| Home.Insert | pages/Home.tsx:18 | insertion adds one post, keeps the others, and keeps a newest-first list newest first |
| Home.SortNewestFirst | pages/Home.tsx:18 | the sort is newest first and a permutation of its input |
| Home.SortKeepsOrderedInput | pages/Home.tsx:18 | a list that is already newest first is left as it is |
| Home.NewestPostLeads | pages/Home.tsx:18 | a post at least as new as every other one comes first |
| Home.SeedFeedUnchanged | pages/Home.tsx:18 | the seed posts (`MockPosts`) do not move when the feed loads |
| Home.HomePage.constructor | pages/Home.tsx:11-13 | the feed starts empty, loading, on page 1 |
| Home.HomePage.Load | pages/Home.tsx:15-22 | the shared array is sorted in place, the page shows it, and the screen is the sorted feed at the current page; nothing else changes |
| Home.HomePage.ChangePage | pages/Home.tsx:47 | the selector sets the page number only |
| Home.HomePage.Screen | pages/Home.tsx:30-52 | the spinner exactly while loading; then the empty message exactly for no posts, and for a page in range one to six cards |
| Home.FeedShape | pages/Home.tsx:25-52 | an empty list shows only the message; otherwise the page count covers all posts and a page in range shows 1 to 6 cards |
| Profile.AuthoredBy | pages/Profile.tsx:19 | the filter keeps exactly the user's posts, and only posts of the list |
| Profile.ProfilePosts | pages/Profile.tsx:19-20 | the profile lists exactly the user's posts, newest first |
| Profile.Screen | pages/Profile.tsx:26-28 | the spinner exactly when nobody is logged in, else the user's list |
| Profile.CountIsAuthoredPosts | pages/Profile.tsx:43 | the "Posts" counter is the number of the user's posts |
| Profile.NewPostCounts | pages/Profile.tsx:43 | a prepended post counts for its author and nobody else |
| Profile.ProfileIgnoresOrder | pages/Profile.tsx:19-20 | sorting the shared list, as the feed does, changes nobody's profile |
| Profile.AuthoredPermutation | pages/Profile.tsx:19 | permuted inputs give permuted filter results |
| Profile.AuthoredCount | pages/Profile.tsx:19 | the filter keeps every copy of a matching post and none of the others |
| AdminDashboard.Flip | pages/AdminDashboard.tsx:45 | the toggle always switches to the other role |
| AdminDashboard.ToggleChangesOnlyTarget | pages/AdminDashboard.tsx:42-50 | toggling changes only the role of the users with that id, and an absent id changes nothing |
| AdminDashboard.ToggleTwice | pages/AdminDashboard.tsx:45-49 | with unique ids, toggling twice gives back the list |
| AdminDashboard.ResolveLaws | pages/AdminDashboard.tsx:62-67 | resolving marks the reports with that id resolved, changes nothing else, and resolving twice is resolving once (for the copy and the shared list) |
| AdminDashboard.ResolveCopiesAgree | pages/AdminDashboard.tsx:62-67 | with unique report ids, the copy's map and the shared list's assignment agree |
| AdminDashboard.PendingCount | pages/AdminDashboard.tsx:122 | the header count is at most the number of reports, and zero exactly when all are resolved |
| AdminDashboard.PendingCountOfNewReport | pages/AdminDashboard.tsx:122 | a newly filed report raises the count by one |
| AdminDashboard.ResolveLowersPending | pages/AdminDashboard.tsx:122 | resolving never raises the count, and lowers it when a pending report has that id |
| AdminDashboard.ResolvedOffersNoActions | pages/AdminDashboard.tsx:154 | a resolved report no longer offers actions |
| AdminDashboard.CanManage | pages/AdminDashboard.tsx:235-243 | the role and delete buttons are disabled exactly on the row whose id is the session admin's, and never without a session; `OnlyOwnRowIsLocked` says what this protects |
| AdminDashboard.OnlyOwnRowIsLocked | pages/AdminDashboard.tsx:233-243 | over a list with unique ids, the admin's own record is the only locked row, and deleting or toggling any manageable row keeps that record in the list, unchanged |
| AdminDashboard.ContentPreview | pages/AdminDashboard.tsx:86-107 | a found post previews as `Post: "<title>"` linking to `/post/<id>`, a missing one as "Deleted Post" with link "#"; a comment report links to `/post/<postId>` exactly when its post exists (else "#"), and reads "Deleted Comment" exactly when the post or the comment is missing |
| AdminDashboard.CommentPreviewQuotesPrefix | pages/AdminDashboard.tsx:99 | a found comment previews as `Comment: "` followed by its first min(30, length) characters and `..."` |
| AdminDashboard.PreviewLinksToPostRoute | pages/AdminDashboard.tsx:90-104 | every preview link other than "#" is the path of the post detail route, for the reported post or the commented post |
| AdminDashboard.DeletedPostPreview | pages/AdminDashboard.tsx:88-91 | after the post is spliced out (ids unique), its report previews as "Deleted Post" |
| AdminDashboard.DeletedCommentPreview | pages/AdminDashboard.tsx:75-79 | after the comment branch, the report previews as "Deleted Comment" linking to its post, and no other post changed |
| AdminDashboard.ClampLaws | pages/AdminDashboard.tsx:26-29 | the clamp brings a page past the end to the last page, keeps a page in range, and keeps the page when nothing is left |
| AdminDashboard.Dashboard.constructor | pages/AdminDashboard.tsx:13-16 | the dashboard copies the shared lists and starts on page 1 |
| AdminDashboard.Dashboard.VisiblePosts | pages/AdminDashboard.tsx:110-112 | the table rows are posts of the page's copy, at most five on any page numbered from 1 |
| AdminDashboard.Dashboard.VisibleRowsNeverEmpty | pages/AdminDashboard.tsx:110-113 | while the page number is kept in range, the table shows five posts from (page-1)·5, fewer only at the end, and at least one while any post remains |
| AdminDashboard.Dashboard.Navigate | pages/AdminDashboard.tsx:201-205 | the selector under the posts table moves to the emitted page and keeps the page in range |
| AdminDashboard.Dashboard.DeletePost | pages/AdminDashboard.tsx:18-31 | the copy loses every post with the id, the shared list the first, the page is clamped, and nothing else changes |
| AdminDashboard.Dashboard.DeleteUser | pages/AdminDashboard.tsx:33-39 | the copy loses every user with the id, the shared list the first, and posts and reports are untouched |
| AdminDashboard.Dashboard.ToggleUserRole | pages/AdminDashboard.tsx:41-57 | the new role comes from the copy; the copy is mapped and the first shared record with the id gets the role; an unknown id changes nothing |
| AdminDashboard.Dashboard.ResolveReport | pages/AdminDashboard.tsx:59-68 | the copy's reports with the id and the first shared one become resolved, and nothing else changes |
| AdminDashboard.Dashboard.DeleteContentAndResolve | pages/AdminDashboard.tsx:70-84 | a post report deletes the post, a comment report removes only that comment from its post, and the report is resolved either way |
| ReportModal.Heading | components/ReportModal.tsx:13-25 | a closed dialog renders nothing, and an open one is headed "Report ..." |
| ReportModal.Dialog.constructor | components/ReportModal.tsx:11 | the reason starts empty |
| ReportModal.Dialog.SetReason | components/ReportModal.tsx:29 | typing replaces the reason |
| ReportModal.Dialog.SubmitDisabled | components/ReportModal.tsx:43 | the button is disabled on an empty field and enabled exactly when the reason has a character other than white space; the constructor, `SetReason` and `Submit` state when it holds |
| ReportModal.Dialog.Submit | components/ReportModal.tsx:15-20 | a reason is passed on exactly when the button was enabled, untrimmed, and the field is then cleared so the button is disabled again; a blank one stays |
| PostDetail.ToggleLikeLaws | pages/PostDetail.tsx:37-40 | a toggle flips whether the user likes the post, keeps every other like and every other field, and keeps a duplicate-free list duplicate-free |
| PostDetail.LikeThenUnlike | pages/PostDetail.tsx:37-39 | liking and then toggling again gives back the post |
| PostDetail.FilterKeepsNoDuplicates | pages/PostDetail.tsx:38 | dropping an id from a duplicate-free list keeps it duplicate-free |
| PostDetail.WithComment | pages/PostDetail.tsx:57 | a new comment goes last, after the old comments unchanged, and no other field changes |
| PostDetail.CanEdit | pages/PostDetail.tsx:139 | Edit and Delete are shown exactly to the author and to admins |
| PostDetail.CanReportPost | pages/PostDetail.tsx:151 | Report Post is shown exactly to a logged-in reader who is not the author |
| PostDetail.CanReportComment | pages/PostDetail.tsx:188 | the comment flag is shown exactly to a logged-in reader whose id is not the comment author's; `OwnCommentNotReportable` applies this to a freshly added comment |
| PostDetail.PermissionsExclusive | pages/PostDetail.tsx:107-109 | nobody may report their own post, anonymous visitors can do neither, and an admin who is not the author can do both |
| PostDetail.OwnCommentNotReportable | pages/PostDetail.tsx:188 | the comment a user has just added carries no flag for that user or for an anonymous visitor, and one for every other logged-in user |
| PostDetail.Page.constructor | pages/PostDetail.tsx:15-21 | the page starts loading, with no post, an empty comment field and the dialog closed |
| PostDetail.Page.View | pages/PostDetail.tsx:99-105 | the spinner exactly while loading, "Post not found." exactly when loaded without a post, and otherwise the page's post |
| PostDetail.Page.Load | pages/PostDetail.tsx:24-31 | the first shared post with the route id is shown, if there is one; loading ends, and a first load that finds nothing shows "Post not found." |
| PostDetail.Page.Like | pages/PostDetail.tsx:33-42 | a no-op without a user or a post; otherwise only the page's copy toggles the user's like, and the shared list is untouched |
| PostDetail.Page.SetNewComment | pages/PostDetail.tsx:167 | typing replaces the comment text |
| PostDetail.Page.SubmitComment | pages/PostDetail.tsx:44-60 | refused without a user, a post or non-blank text; otherwise the untrimmed text is appended to the copy as the user's comment, the field clears, and the shared list is untouched |
| PostDetail.Page.DeletePost | pages/PostDetail.tsx:62-71 | the first shared post with the route id is spliced out, and nothing else changes |
| PostDetail.Page.OpenReport | pages/PostDetail.tsx:73-76 | the dialog opens on the chosen target |
| PostDetail.Page.CloseReport | pages/PostDetail.tsx:205 | the dialog closes, keeping the target |
| PostDetail.Page.SubmitReport | pages/PostDetail.tsx:78-97 | one pending report about the target, linked to the post and filed by the user, goes to the front of the shared reports, and the dialog closes |
| PostDetail.Page.SubmitFromDialog | pages/PostDetail.tsx:203-208 | through the dialog, at most one report is filed, and only with a non-blank reason, at the front and pending |
| PostForm.Filled | pages/CreatePost.tsx:50 | the submit check accepts exactly a non-empty title, description and image, with no trimming |
| PostForm.BlankTitleIsAccepted | pages/CreatePost.tsx:50 | a title of white space passes the submit check, although it is blank to the prompt check |
| PostForm.Form.constructor | pages/CreatePost.tsx:11-17 | the form starts empty, with ratio 16:9, not generating and no error |
| PostForm.Form.FileChange | pages/CreatePost.tsx:38-46 | a chosen file's data URL becomes the image; without a file nothing changes |
| PostForm.Form.BeginGenerate | pages/CreatePost.tsx:21-27 | a blank prompt sets the error and makes no call; otherwise the spinner is on and the error is cleared |
| PostForm.Form.CompleteGenerate | pages/CreatePost.tsx:28-35 | the returned URL becomes the image, or the error's message (or the fallback) is shown; the spinner stops either way |
| PostForm.Form.GenerateImage | pages/CreatePost.tsx:21-36 | the generator is reached exactly for a non-blank prompt |
| CreatePost.NewPost | pages/CreatePost.tsx:55-64 | a new post has the form's fields, the user as author, and no likes or comments |
| CreatePost.Submit | pages/CreatePost.tsx:48-68 | without a user or a complete form the error is set and nothing is added; otherwise the post is put in front of the unchanged previous posts |
| CreatePost.CreatedPostIsSeen | pages/CreatePost.tsx:66 | a post created no earlier than the others heads the feed and raises only its author's count |
| CreatePost.CreationPrepends | pages/CreatePost.tsx:66 | after creation a lookup of the new id finds the new post, and lookups of other ids find what they found before |
| CreatePost.DeleteUndoesCreation | pages/PostDetail.tsx:65-68 | deleting the just-created post through the detail page's splice gives back the previous list |
| EditPost.Decide | pages/EditPost.tsx:27-40 | missing exactly when no post has the id; authorized exactly for the author or an admin, with that post |
| EditPost.EditedLaws | pages/EditPost.tsx:80-85 | an edit replaces only the title, description and image, is idempotent, and resubmitting the loaded values gives back the post |
| EditPost.Heading | pages/EditPost.tsx:97 | the refusal heading is never empty: the load error when there is one, else "Post not found." |
| EditPost.Page.constructor | pages/EditPost.tsx:16-24 | the page starts loading, with no post |
| EditPost.Page.View | pages/EditPost.tsx:92-100 | the spinner exactly while loading, the form exactly when loaded with a post, and otherwise a non-empty refusal heading |
| EditPost.Page.Load | pages/EditPost.tsx:26-42 | an authorized user gets the form filled from the post and sees it; otherwise the not-authorized or not-found message is set and, on the first load, is the heading shown; loading ends |
| EditPost.Page.Submit | pages/EditPost.tsx:71-90 | an incomplete form sets the error; a gone post sets another; otherwise only the first shared post with the id gets the new fields |
| EditPost.EditKeepsLookups | pages/EditPost.tsx:78-85 | an edit keeps the list's length and every lookup by id |
| EditProfile.ProfilePatch | pages/EditProfile.tsx:48-54 | the update always carries the name, carries the picture only for a new file with a non-empty preview, and never the email, id or role |
| EditProfile.SavedProfile | pages/EditProfile.tsx:48-56 | saving keeps the id, email and role, sets the name, and keeps the old picture without a new file |
| EditProfile.Page.constructor | pages/EditProfile.tsx:11-16 | the editor starts empty, with no file, not loading and no messages |
| EditProfile.Page.Init | pages/EditProfile.tsx:18-25 | the form takes the session user's name and picture |
| EditProfile.Page.SetName | pages/EditProfile.tsx:97 | typing replaces the name |
| EditProfile.Page.FileChange | pages/EditProfile.tsx:27-37 | a chosen file is remembered and its data URL becomes the preview |
| EditProfile.Page.Submit | pages/EditProfile.tsx:39-67 | nothing without a user; otherwise the patch is merged through `updateUser` and the success message is shown |
| Gateway.ErrorText | pages/Discover.tsx:44 | a thrown `Error` shows its message, anything else the fallback text; `FallbackOnlyForNonErrors` states when the fallback matters |
| Gateway.FallbackOnlyForNonErrors | pages/Discover.tsx:44 | two different fallbacks give the same text for a failure exactly when an `Error` was thrown |
| Discover.Classify | pages/Discover.tsx:85-88 | a list item exactly for lines starting with "* ", carrying the rest of the line; any other line is a paragraph of itself |
| Discover.RenderLines | pages/Discover.tsx:84-89 | one block per line of the text, in order |
| Discover.RenderingIsLossless | pages/Discover.tsx:84-89 | the rendered blocks give back the text |
| Discover.Sources | pages/Discover.tsx:95-96 | exactly the map references of chunks that have one are listed |
| Discover.OneChunkSources | pages/Discover.tsx:95-96 | one chunk lists its map reference, or nothing when it has none |
| Discover.SourcesAppend | pages/Discover.tsx:95-96 | the list for two runs of chunks is the first run's list followed by the second's, so references appear in chunk order, once per chunk that has one |
| Discover.SourcesSection | pages/Discover.tsx:91 | the Sources section is absent exactly when there are no chunks |
| Discover.Page.constructor | pages/Discover.tsx:9-14 | the page starts with the default prompt, no location, no result and "Fetching location..." |
| Discover.Page.SetPrompt | pages/Discover.tsx:63 | typing replaces the prompt |
| Discover.Page.SearchDisabled | pages/Discover.tsx:69 | disabled while searching or without a location, so an enabled click always has a position to send; search start, completion and the location callback state when it holds |
| Discover.Page.LocationReport | pages/Discover.tsx:16-30 | a position is kept with the acquired status; a failure sets the error and the failed status |
| Discover.Page.BeginSearch | pages/Discover.tsx:32-39 | a blank prompt sets the error and makes no call; otherwise the error and previous result are cleared and loading starts |
| Discover.Page.CompleteSearch | pages/Discover.tsx:40-47 | the result is shown, or the error's message; loading ends either way |
| Discover.Page.Search | pages/Discover.tsx:32-48 | the service is called exactly for a non-blank prompt, and a failed call leaves no stale result |
| Discover.FallbacksDiffer | pages/CreatePost.tsx:32 | the post form's fallback is the place search's with a full stop, so the two pages word a failure alike exactly when an `Error` was thrown |
| ImageDiscover.Refusal | pages/ImageDiscover.tsx:54-61 | the prompt check comes before the image check, and the search goes ahead exactly with both passed |
| ImageDiscover.Page.constructor | pages/ImageDiscover.tsx:10-19 | the page starts with the default prompt, no file, no image data and "Fetching location..." |
| ImageDiscover.Page.SetPrompt | pages/ImageDiscover.tsx:113 | typing replaces the prompt |
| ImageDiscover.Page.SearchDisabled | pages/ImageDiscover.tsx:119 | disabled while searching, without a location or without image data, so an enabled click is never refused for a missing image |
| ImageDiscover.Page.UploadLabel | pages/ImageDiscover.tsx:97 | "Change image" exactly once a file was chosen, else "Upload a file"; choosing a file switches it |
| ImageDiscover.Page.LocationReport | pages/ImageDiscover.tsx:21-35 | the same location callbacks and statuses as the place search |
| ImageDiscover.Page.FileChange | pages/ImageDiscover.tsx:37-51 | a chosen file is previewed and the error cleared; then its encoding becomes the image data, or on failure the data is cleared and the error set |
| ImageDiscover.Page.BeginSearch | pages/ImageDiscover.tsx:53-64 | the refusal message is shown with no call; otherwise the error and previous result are cleared and loading starts |
| ImageDiscover.Page.CompleteSearch | pages/ImageDiscover.tsx:65-72 | the result is shown, or the error's message; loading ends either way |
| ImageDiscover.Page.Search | pages/ImageDiscover.tsx:53-73 | without image data the service is never called; it is called exactly for a non-blank prompt with image data |
| ImageDiscover.Page.Rendered | pages/ImageDiscover.tsx:135-163 | nothing without a result; otherwise blocks that give back the answer's text, and a sources list that is absent exactly without chunks and holds exactly the chunks' map references |
| App.PrivateRoute | App.tsx:20-23 | the child renders exactly with a session, and otherwise the router redirects to /login |
| App.AdminRouteGuard | App.tsx:25-28 | the child renders exactly for an admin session, and otherwise the router redirects to / |
| App.GuardsDecideAccess | App.tsx:38-68 | open routes always render; session routes and the admin route render or redirect as their guards say |
| App.AccessByRole | App.tsx:20-68 | an admin reaches every route; without a session exactly the open routes render; a plain user reaches all but /admin |
| App.TheRouteTable | App.tsx:38-68 | /create, /edit/:id, /profile and /profile/edit need a session, only /admin needs an admin, and the rest are open |
| App.ShowChatBot | App.tsx:79-83 | the chat bot is mounted exactly while someone is logged in; `ChatBotFollowsPrivateRoutes` ties this to the route guards |
| App.ChatBotFollowsPrivateRoutes | App.tsx:79-83 | the chat bot shows exactly when the session routes such as /profile and /create render, and never with a login redirect |

## Left out

- The AI service client, services/geminiService.ts, is not part of this model. Its chat, image generation and place searches appear only as `Outcome` inputs to the handlers that await them. A result whose `text` is missing is not represented.
- The chat widget (components/ChatBot.tsx) and the share buttons (components/ShareButtons.tsx) are left out. Both are asynchronous browser plumbing: clipboard, `window.open`, `encodeURIComponent` and DOM scrolling.
- The navigation bar, footer, post card, prompt tooltip and spinner are left out: they are presentational markup. The navigation bar's link visibility repeats the route guards.
- The login and register pages are only form wrappers around `login` and `register`, so they are left out.
- `window.confirm` is taken as accepted, and `alert` is not modelled. Cancelling a confirmation changes nothing, and no handler here needs it.
- Browser-only steps are not modelled: `navigate` redirects, `setTimeout` delays, the feed's clean-up of its timer, and `URL.createObjectURL`.
- The file reader and `fileToBase64` become their result, passed in as a parameter.
- `EditProfile.Page.FileChange` merges two events: choosing a file and the reader's later `onload`. A submit between the two, which would still be carrying the old picture, is not modelled.
- Geolocation becomes its callback's argument.
- React state batching, re-renders, and stale responses of overlapping async searches are not modelled. Each handler step is atomic.
- JSON encoding is taken as the identity. A stored value of the wrong shape under a key reads as absent; the source would hand it back as it is.
- `Storage.Read`: an item that is the empty string or the text `null` is not modelled as absent, because items hold decoded values rather than text.
- `AuthContext.RestoreSession` keeps the current session when the stored session text does not parse. The source's `JSON.parse` would throw inside the effect.
- The auth provider's `setItem` calls are taken to succeed. So the profile editor's failure message, 'Failed to update profile. Please try again.', is unreachable in the model.
- Records are values, so object aliasing is not modelled. Assigning a role or status field on a shared record (`MOCK_USERS[i].role = …`) does not show through copies embedded elsewhere: post and comment authors, the session user, or the dashboard copy that initially shares the seed objects.
- The dashboard's `useState(MOCK_POSTS)` initially holds the same array as the shared list. The model starts the dashboard from a copy. The source's own handlers replace that array before mutating the shared one, so no handler sees the difference.
- A patch field given as `undefined` (which the spread would copy over) is not representable; a patch field is either present or absent.
- `Date.now()` id uniqueness is not guaranteed by the source and is not assumed. The lemmas that need unique ids take it as a precondition.
- Router path matching (case, trailing slashes, unknown paths) is not modelled. A route is taken as already matched.
- `Text.Prefix`: it counts Unicode scalar values, while JavaScript's `substring(0, n)` counts UTF-16 code units. So a character outside the Basic Multilingual Plane counts once here and twice in the source: 30 emoji preview as 15 in the source, which may also cut a surrogate pair in half. The comment preview inherits this difference.
- `CreatePost.Submit`, `EditPost.Page.Submit` and `EditProfile.Page.Submit`: the HTML `required` attribute on the title and description inputs (pages/CreatePost.tsx:82 and 93, pages/EditPost.tsx:114 and 125) and on the profile name input (pages/EditProfile.tsx:98) is not modelled. The model therefore reaches the "fill all fields" error for an empty title or description, and saves an empty profile name, both of which a browser would block before the handler runs.
- `Home.SortNewestFirst`: the sort's stability is stated only through "an ordered input is unchanged" and the permutation property. An explicit stability relation is not given.
- ISO date strings and their parsing are replaced by integer milliseconds. Locations are pairs of reals, used only for presence.
