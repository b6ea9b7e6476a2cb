# CRnode access and scheduling core, in Dafny

CRnode (CloudRounds) is a club scheduling site. Members request read access
to a *purpose* (a calendar such as `OM1`). Administrators approve or deny the
request, and approval adds the member to the purpose's `canReadMembers`.
Events (articles) are created under a purpose the organizer may write to.
This project models the server routes that keep requests, purposes, articles
and password-reset tokens, the article schema, and the client code that keeps
the in-browser store's lists and the state of the request form, the event
form, the permission editor, the filter sidebar, the calendar cell and the
navigation bar.

Modules follow the source files:

| module | models |
|---|---|
| `RequestsRouter` | `server/routes/requestsRouter.js`: a class over two maps, request id → request and purpose name → purpose, with one method per handler, each tied to a pure step function |
| `ArticlesRouter` | `server/routes/articlesRouter.js`: a class over the article map, with the route guards as opaque predicates |
| `ArticleModel` | `server/models/Article.js`: the schema's required and `maxlength` rules as the set of failing paths |
| `AuthRouter` | `server/routes/authRouter.js`: the users in store order, the one-hour reset token issued and consumed |
| `UserStore`, `Users` | the client store's fields and the server user record |
| `ClientArticles`, `Feedbacks` | `client/src/utils/articles.js` and `client/src/services/feedbacks.js` |
| `NewRequest`, `NewArticle`, `EditPermissions`, `ActionBar`, `CalendarCell`, `Newbar` | the components of the same names |
| `Lists`, `Sorting`, `Text`, `Wrappers` | JavaScript's `filter`, `map`-replace, `findIndex`, `find`, `sort`, ASCII case mapping, `startsWith`, `includes` and decimal strings |

Conventions:
- JSON request bodies are maps from field names to strings. A field is *truthy* when present and non-empty.
- A network call is a parameter `Option`: `None` is a failed call, whose `catch` leaves the store as it was.
- `Date.now()`, `crypto.randomBytes`, `bcrypt.hash`, `sendEmail`'s success, `ObjectId.isValid`, the `ObjectId` cast of an article's organizer, the route guards and `compareDates` are parameters.
- JavaScript `%` truncates toward zero. `NewArticle.JsRem` models that.
- `Math.floor(d / 60)` is Dafny's `d / 60`, because Dafny's division by a positive number rounds down.

Two behaviours of the status route, as the code has them:
- A status update has no Pending-only guard. Any of the three statuses replaces any earlier one.
- The approval grant goes to the purpose named in the update body, not to the request's stored purpose.

## Model

| member | source | states |
|---|---|---|
| RequestsRouter.CanRead | server/routes/requestsRouter.js:75 | a user reads only a purpose that exists, and nobody reads one with no readers |
| RequestsRouter.ParseStatus | server/routes/requestsRouter.js:52-54 | a status is accepted iff it is one of Pending, Approved, Denied, and the parsed status prints back as the input |
| RequestsRouter.AddReader | server/routes/requestsRouter.js:74-78 | the user ends up a reader; the other members and fields are kept; nothing changes if they were already a reader; no duplicates are introduced |
| RequestsRouter.GrantRead | server/routes/requestsRouter.js:70-80 | only the named purpose changes, and only if it exists; distinct member lists stay distinct |
| RequestsRouter.Resolved | server/routes/requestsRouter.js:63-66 | the status becomes the requested one; the message is replaced only by a non-empty one; purpose and requester are kept |
| RequestsRouter.Create | server/routes/requestsRouter.js:18-42 | 400 iff purpose or userId is missing; 404 iff a well-formed user id is unknown; a request is stored iff both fields are present and the user exists, and then exactly one new request with that purpose, user and the initial status; 201 iff stored and the email succeeds, else 500; purposes never change |
| RequestsRouter.UpdateStatus | server/routes/requestsRouter.js:44-88 | 400 iff the id is malformed or the status unknown; 404 iff the request is missing; no change in those cases; otherwise the request resolved, a grant only on Approved, and 200 or 500 by the email |
| RequestsRouter.Delete | server/routes/requestsRouter.js:90-109 | 400 iff the id is malformed, 404 iff missing, else 200 and exactly that request removed; purposes never change |
| RequestsRouter.ApprovalGrantsRead | server/routes/requestsRouter.js:70-80 | after an accepted approval the requester can read the body-named purpose, and every other purpose is unchanged |
| RequestsRouter.UpdateKeepsMembersDistinct | server/routes/requestsRouter.js:75-77 | status updates never put a user twice into a member list |
| RequestsRouter.StatusIsNeverFinal | server/routes/requestsRouter.js:52-68 | an accepted update can be followed by any other valid status, which then holds |
| RequestsRouter.UpdateIsIdempotent | server/routes/requestsRouter.js:63-80 | repeating an accepted update leaves the stores as the first left them |
| RequestsRouter.DeleteKeepsGrants | server/routes/requestsRouter.js:97-105 | deleting a request never grants or revokes read access |
| RequestsRouter.SubmitThenApprove | server/routes/requestsRouter.js:18-88 | a created request, once approved, lets its requester read the purpose |
| RequestsRouter.Router.List | server/routes/requestsRouter.js:9-16 | answers 200 with every stored request |
| RequestsRouter.Router.CreateRequest | server/routes/requestsRouter.js:18-42 | the new stores and code are those of `Create` |
| RequestsRouter.Router.UpdateRequestStatus | server/routes/requestsRouter.js:44-88 | the new stores and code are those of `UpdateStatus`, reached by field assignments and an in-place push |
| RequestsRouter.Router.DeleteRequest | server/routes/requestsRouter.js:90-109 | the new stores and code are those of `Delete` |
| ArticleModel.ValidMeans | server/models/Article.js:3-15 | an article is valid iff the title is present and at most 250 long, the date and purpose are present, meeting id and passcode are at most 50, details at most 1000, and an organizer, if given, casts to an `ObjectId` |
| ArticleModel.UnvalidatedPaths | server/models/Article.js:3-15 | event link, duration, speaker and location never affect validity |
| ArticleModel.MalformedOrganizerRejected | server/models/Article.js:9 | an organizer that does not cast to an `ObjectId` makes the article invalid |
| ArticlesRouter.Router.List | server/routes/articlesRouter.js:6-15 | returns every stored article, unfiltered |
| ArticlesRouter.Router.Create | server/routes/articlesRouter.js:17-26 | blocked unless both guards pass; an invalid article, including one whose organizer fails the cast, gives 500 and no change; a valid one is stored under a new id; stored articles stay valid |
| ArticlesRouter.Router.Update | server/routes/articlesRouter.js:28-34 | blocked unless permitted; a missing id or an invalid new title gives no response and no change; otherwise only the title changes |
| ArticlesRouter.Router.Delete | server/routes/articlesRouter.js:36-40 | blocked unless permitted; a missing id gives no response; otherwise exactly that article is removed |
| AuthRouter.Forgot | server/routes/authRouter.js:10-41 | 400 iff no email string; 404 iff no user has it; otherwise the first such user gets the token and an expiry one hour on, and no one else changes; 500 iff the email fails |
| AuthRouter.Reset | server/routes/authRouter.js:43-73 | 200 iff a password is given and some user holds the token unexpired; then the first holder gets the hashed password and both token fields cleared; otherwise 400 and no change |
| AuthRouter.TokenIsSingleUse | server/routes/authRouter.js:52-66 | a token that reset a password is refused afterwards |
| AuthRouter.ForgotThenReset | server/routes/authRouter.js:10-73 | within the hour the issued token resets that user's password |
| AuthRouter.ExpiredTokenRefused | server/routes/authRouter.js:10-73 | from one hour on the issued token is refused |
| AuthRouter.NewTokenReplacesOld | server/routes/authRouter.js:25-27 | asking again replaces the earlier token |
| AuthRouter.ForgotAsWritten | server/routes/authRouter.js:25-27 | as stored by `server/models/User.js`: the codes of `Forgot`, and the user collection unchanged (Findings row 3) |
| AuthRouter.MailedTokenNeverResets | server/routes/authRouter.js:25-27 | with the schema as written and the reset filter kept, the mailed token is refused with 400 (Findings row 3) |
| AuthRouter.ResetStrippedFilter | server/routes/authRouter.js:52-66 | as run when undeclared filter paths are stripped: 200 iff a password is given and some user exists; then only the first user's password changes (Findings row 4) |
| AuthRouter.AnyTokenResetsFirstUser | server/routes/authRouter.js:52-66 | with the filter stripped, a token nobody holds, which the intended lookup refuses, resets the first user's password (Findings row 4) |
| AuthRouter.Router.ForgotPassword | server/routes/authRouter.js:10-41 | the new users and code are those of `Forgot`, reached by field assignments |
| AuthRouter.Router.ResetPassword | server/routes/authRouter.js:43-73 | the new users and code are those of `Reset` |
| Lists.Filter | client/src/utils/articles.js:31 | the result holds exactly the kept elements |
| Lists.FilterConcat | client/src/utils/articles.js:37-41 | filtering distributes over concatenation, so order is kept |
| Lists.RemoveByKey | client/src/utils/articles.js:31 | exactly the elements with another id remain |
| Lists.ReplaceByKey | client/src/utils/articles.js:10-12 | same length; elements with the response's id are replaced, the rest kept |
| Lists.UpsertByKey | client/src/services/feedbacks.js:27-28 | the new element is last, no earlier element shares its id, every other element is kept |
| Lists.UpsertKeepsOthersInOrder | client/src/services/feedbacks.js:27-28 | the other elements keep their order |
| Lists.FirstIndex | client/src/components/auth/EditPermissions.jsx:20 | -1 iff nothing matches, else the first matching index |
| Lists.Find | client/src/components/requests/NewRequest.jsx:71 | the first matching element, or none iff nothing matches |
| Lists.Last | client/src/components/requests/NewRequest.jsx:39-42 | the latest request is the last element, none iff the list is empty |
| Sorting.Sort | client/src/utils/articles.js:43-47 | a permutation of its input |
| Sorting.InsertSorted | client/src/utils/articles.js:43-47 | inserting into a sorted list keeps it sorted |
| Sorting.SortIsSortedPermutation | client/src/utils/articles.js:43-47 | under a total preorder the result is sorted and a permutation |
| ClientArticles.UpdateArticle | client/src/utils/articles.js:6-16 | on success the stored article with the response's id is replaced; on failure nothing changes |
| ClientArticles.CreateArticle | client/src/utils/articles.js:18-26 | on success the list is the old list plus the new article, sorted; on failure nothing changes |
| ClientArticles.DeleteArticle | client/src/utils/articles.js:28-35 | on success exactly the articles with that id are gone |
| ClientArticles.FilterAllowedArticles | client/src/utils/articles.js:37-41 | an empty list gives the empty list, with or without a user; otherwise it fails iff there is no user, and keeps exactly the articles a permission with canRead covers |
| ClientArticles.FilterAllowedKeepsOrder | client/src/utils/articles.js:37-41 | the filter keeps order across concatenation |
| ClientArticles.SortArticles | client/src/utils/articles.js:43-47 | sorts the array in place and returns it; the result is a permutation, and sorted under a total preorder |
| Feedbacks.UpdateFeedback | client/src/services/feedbacks.js:7-17 | on success the feedback with the response's id is replaced; on failure nothing changes |
| Feedbacks.CreateFeedback | client/src/services/feedbacks.js:19-33 | on success the response is upserted last and returned |
| Feedbacks.DeleteFeedback | client/src/services/feedbacks.js:35-42 | on success exactly the feedbacks with that id are gone |
| Feedbacks.FetchFeedbacks | client/src/services/feedbacks.js:53-62 | on success the store holds and returns the fetched list |
| NewRequest.IsPurposeAllowed | client/src/components/requests/NewRequest.jsx:68-73 | false without a user or permissions; otherwise true iff the first permission for the purpose has canRead |
| NewRequest.IsRequestPending | client/src/components/requests/NewRequest.jsx:75-80 | false without a user or permissions; otherwise true iff the first request for the purpose is Pending |
| NewRequest.MenuItemDisabled | client/src/components/requests/NewRequest.jsx:115 | a purpose is disabled iff already readable or pending |
| NewRequest.LaterPendingIsHidden | client/src/components/requests/NewRequest.jsx:78-79 | a Pending request behind a Denied one for the same purpose does not disable it |
| NewRequest.UserRequests | client/src/components/requests/NewRequest.jsx:29 | exactly the requests whose requester is the user |
| NewRequest.SeedSubmittedRequests | client/src/components/requests/NewRequest.jsx:25-37 | with a user and an empty list, the store gets the user's requests; otherwise it is kept |
| NewRequest.SubmitBodyAsWritten | client/src/components/requests/NewRequest.jsx:56 | the body the form sends: the purpose, the requester under `user`, and no `userId` |
| NewRequest.SubmitBody | client/src/components/requests/NewRequest.jsx:56 | the corrected body (Findings row 1): the purpose and the requester under `userId` |
| NewRequest.AsWrittenSubmissionRejected | client/src/components/requests/NewRequest.jsx:56 | the body as written is refused by the server with 400 and nothing stored |
| NewRequest.SubmissionStored | client/src/components/requests/NewRequest.jsx:56 | the corrected body is stored by the server as a new request |
| NewRequest.HandleFormSubmit | client/src/components/requests/NewRequest.jsx:53-66 | sends the body as written; on a 2xx answer appends the created request, clears the submitting flag and navigates; otherwise nothing is appended, the flag stays set and there is no navigation |
| NewRequest.FormSubmissionFails | client/src/components/requests/NewRequest.jsx:53-66 | the server's answer to the body as written is never 2xx, so the form always takes the failure path |
| NewArticle.AllowedPurposes | client/src/components/articles/actions/NewArticle.jsx:48 | exactly the purposes whose write members include the user, or none when purposes are undefined |
| NewArticle.Form.LoadAllowedPurposes | client/src/components/articles/actions/NewArticle.jsx:44-51 | once loaded the form holds the allowed purposes; while loading nothing changes |
| NewArticle.JsRem | client/src/components/articles/actions/NewArticle.jsx:128 | JavaScript's remainder: the sign of the dividend, magnitude below the divisor |
| NewArticle.JsRemTruncates | client/src/components/articles/actions/NewArticle.jsx:128 | the dividend is the divisor times the quotient truncated toward zero, plus the remainder |
| NewArticle.JsRemOfNegative | client/src/components/articles/actions/NewArticle.jsx:128 | `-90 % 60` is `-30`, where the Euclidean remainder is `30` |
| NewArticle.FormatDuration | client/src/components/articles/actions/NewArticle.jsx:126-135 | the label ends in `h` iff the minutes are zero, and in `m` otherwise |
| NewArticle.DurationParts | client/src/components/articles/actions/NewArticle.jsx:126-135 | shown hours and minutes add back up to the duration, minutes below 60 |
| NewArticle.SliderMinutes | client/src/components/articles/actions/NewArticle.jsx:226-231 | slider values show minutes 0, 15, 30 or 45 |
| NewArticle.FormatDurationRoundTrip | client/src/components/articles/actions/NewArticle.jsx:126-135 | the duration label of a non-negative duration reads back as that duration |
| NewArticle.NormalizeLink | client/src/components/articles/actions/NewArticle.jsx:97-100 | the result starts with `https://`; it is the input iff the input already does, else the input prefixed |
| NewArticle.NormalizeIdempotent | client/src/components/articles/actions/NewArticle.jsx:97-100 | normalising twice is normalising once |
| NewArticle.HttpLinksArePrefixed | client/src/components/articles/actions/NewArticle.jsx:97-100 | every `http://` link is prefixed with `https://`, not rewritten |
| NewArticle.HandleSubmit | client/src/components/articles/actions/NewArticle.jsx:93-116 | sends nothing iff the time is unset or the title empty; else the draft with the normalised link, the formatted time and the user as organizer |
| NewArticle.Form.HandleAddPurpose | client/src/components/articles/actions/NewArticle.jsx:79-91 | sends the new purpose with empty member lists; on success appends the created one and resets the dialog |
| EditPermissions.HandlePermissionChange | client/src/components/auth/EditPermissions.jsx:16-29 | only the named flag of the first entry with the purpose becomes `checked`, in the shared entry object; other entries, all purposes and the user's fields are kept; no match changes nothing |
| ActionBar.Spread | client/src/components/articles/actions/ActionBar.jsx:46 | a list selection is copied; a bare string gives its one-letter strings, in order |
| ActionBar.Includes | client/src/components/articles/actions/ActionBar.jsx:47 | a list includes exactly its elements; a bare string includes itself and the empty name, and nothing longer than itself |
| ActionBar.Toggle | client/src/components/articles/actions/ActionBar.jsx:45-63 | the element is present afterwards iff absent before; other elements keep their membership; an absent element is appended |
| ActionBar.ToggleKeepsOrder | client/src/components/articles/actions/ActionBar.jsx:46-51 | the other elements keep their relative order |
| ActionBar.ToggleTwiceRestores | client/src/components/articles/actions/ActionBar.jsx:46-52 | toggling an absent element twice restores the list |
| ActionBar.PurposeNames | client/src/components/articles/actions/ActionBar.jsx:27 | the purposes' names, in order |
| ActionBar.FilteredPurposes | client/src/components/articles/actions/ActionBar.jsx:29 | exactly the non-empty names containing the search term, ignoring ASCII case |
| ActionBar.EmptyTermKeepsNonEmpty | client/src/components/articles/actions/ActionBar.jsx:29 | an empty term keeps every non-empty name, in order |
| ActionBar.Bar.Ticked | client/src/components/articles/actions/ActionBar.jsx:139 | with a list selection a purpose is ticked iff listed; a bare selection ticks its own name |
| ActionBar.Bar.HandlePurposeToggle | client/src/components/articles/actions/ActionBar.jsx:45-53 | the selection becomes the toggled spread of the old one |
| ActionBar.Bar.HandleOrganizerToggle | client/src/components/articles/actions/ActionBar.jsx:55-63 | the organizer filter becomes the toggled old one, so membership flips |
| ActionBar.Bar.SelectAllPurposes | client/src/components/articles/actions/ActionBar.jsx:65-67 | the selection becomes the filtered purposes |
| ActionBar.Bar.DeselectAllPurposes | client/src/components/articles/actions/ActionBar.jsx:69-71 | the selection becomes empty and nothing shows ticked |
| ActionBar.Bar.SelectAllOrganizers | client/src/components/articles/actions/ActionBar.jsx:73-75 | the organizer filter becomes every listed organizer |
| ActionBar.Bar.DeselectAllOrganizers | client/src/components/articles/actions/ActionBar.jsx:77-79 | the organizer filter becomes empty |
| ActionBar.Bar.PickPurposeAsWritten | client/src/components/articles/actions/ActionBar.jsx:95 | a dropdown item stores the bare name string |
| ActionBar.Bar.PickPurpose | client/src/components/articles/actions/ActionBar.jsx:95 | a dropdown item selecting just that purpose ticks it alone |
| ActionBar.ToggleAfterDropdownSplitsName | client/src/components/articles/actions/ActionBar.jsx:95 | toggling a bare name of length other than one gives its letters followed by the name |
| ActionBar.DropdownThenToggleExample | client/src/components/articles/actions/ActionBar.jsx:95 | picking `OM1` and ticking it selects `O`, `M`, `1` and `OM1` |
| ActionBar.BareSelectionTicksSubstring | client/src/components/articles/actions/ActionBar.jsx:139 | with `OM1` picked, a purpose `OM` shows ticked |
| ActionBar.PickedListBehaves | client/src/components/articles/actions/ActionBar.jsx:95 | a one-name list ticks only that name, and ticking it again clears the selection |
| CalendarCell.NextIndex | client/src/components/articles/calendar/CalendarCell.jsx:38-40 | the minimum of the next index and the last index; no move at the last index |
| CalendarCell.PrevIndex | client/src/components/articles/calendar/CalendarCell.jsx:42-44 | the maximum of the previous index and 0; no move at 0 |
| CalendarCell.RunStaysInRange | client/src/components/articles/calendar/CalendarCell.jsx:20-44 | from an index in range, any presses of next and previous stay in range |
| CalendarCell.NextWithNoEvents | client/src/components/articles/calendar/CalendarCell.jsx:38-40 | with no events next moves to -1, where nothing is shown |
| CalendarCell.Shown | client/src/components/articles/calendar/CalendarCell.jsx:62 | the event at the index, or nothing iff the index is out of range |
| CalendarCell.Background | client/src/components/articles/calendar/CalendarCell.jsx:71 | the today colour iff day, month and year all equal today's |
| CalendarCell.Cell.Click | client/src/components/articles/calendar/CalendarCell.jsx:27-31 | always records the day; opens the dialog iff there are events |
| CalendarCell.Cell.Close | client/src/components/articles/calendar/CalendarCell.jsx:33-36 | closes the dialog and resets the index to 0 |
| CalendarCell.Cell.Next | client/src/components/articles/calendar/CalendarCell.jsx:38-40 | the index becomes `NextIndex`; the range invariant is kept |
| CalendarCell.Cell.Prev | client/src/components/articles/calendar/CalendarCell.jsx:42-44 | the index becomes `PrevIndex`; the range invariant is kept |
| CalendarCell.Cell.Article | client/src/components/articles/calendar/CalendarCell.jsx:62 | with events, the shown event is the one at the index |
| Newbar.FindActiveIndex | client/src/components/home/Newbar.jsx:27-29 | -1 iff no link's endpoint is the path, else the first such link |
| Newbar.IsActive | client/src/components/home/Newbar.jsx:69 | a link is active only when its path has the location's length; a proper prefix of the location is not active |
| Newbar.ActiveIndexAgreesWithIsActive | client/src/components/home/Newbar.jsx:27-29 | the active index names a link `isActive` marks, and -1 iff none is marked |
| Newbar.GetInitials | client/src/components/home/Newbar.jsx:62-67 | empty unless both names are non-empty; else the two first letters upper-cased |
| Newbar.WithoutSessionKeys | client/src/components/home/Newbar.jsx:48-49 | both session keys removed, every other key kept with its value |
| Newbar.LogoutStorageIdempotent | client/src/components/home/Newbar.jsx:48-49 | removing the session keys twice is removing them once |
| Newbar.LocalStorage.RemoveItem | client/src/components/home/Newbar.jsx:48-49 | exactly that key is gone |
| Newbar.HandleLogout | client/src/components/home/Newbar.jsx:40-51 | user cleared, six lists emptied, permissions kept, session keys removed, navigation to `/login` |
| Newbar.Bar.SyncActiveIndex | client/src/components/home/Newbar.jsx:31-34 | the active index becomes `FindActiveIndex` of the new path |
| Newbar.Bar.ClickLink | client/src/components/home/Newbar.jsx:121-127 | a click makes that link active |
| Newbar.Bar.HandleNavCollapse | client/src/components/home/Newbar.jsx:36-38 | the drawer's visibility flips |

## Left out

- Network, database and email I/O: axios calls, Mongoose queries and `sendEmail` are outcomes given as parameters. A database error inside a `try` is not modelled, apart from the malformed user id in `POST /requests/new`.
- Concurrency: the read, test, push and save of an approval can race with another approval. The model is sequential.
- `ObjectId.isValid` is an opaque parameter `validId`, and Mongoose's cast of a malformed id to an error is modelled through it.
- `models/Request.js` and `models/Purpose.js` are not part of this model. The initial request status is a parameter.
- `server/middleware/permissions` is not part of this model. `jwtMiddleware` and `checkPermissions` are opaque predicates.
- `services/purposes.js` is not part of this model. `NewArticle.Form.HandleAddPurpose` treats a failed `createPurpose` as throwing, so nothing after it runs.
- `server/models/User.js` declares no reset-token paths, so as written the tokens are never stored (Findings rows 3 and 4). `AuthRouter.Forgot`, `AuthRouter.Reset` and `AuthRouter.Router` model the routes with those two paths declared. Which reading of the reset filter applies depends on the Mongoose version, which is not part of this model.
- `ArticlesRouter.Router.Update`: the body text sent with an update is dropped, because the schema has no `body` path.
- `RequestsRouter.UpdateStatus`: when the body names no purpose, `Purpose.findOne({ name: undefined })` is read as a query for a null name, which matches no stored purpose, so nothing is granted. Mongoose versions and settings that instead drop the undefined key would match the first purpose. That reading depends on the version, as in Findings row 4, and is not modelled.
- `server/middleware/mailer.js` is not part of this model. `authRouter.js:5` takes its `sendEmail` by destructuring, `requestsRouter.js:5` takes the module itself, and at most one of those can be the function. So the mail outcome (`mailOk`) is left free in both routers and covers a throwing call as well.
- `ArticleModel.Valid`: the other typed paths, such as `date`, arrive already cast; only the organizer's `ObjectId` cast is modelled.
- Mongoose's `remove` on a document is modelled as removing the key.
- `fetchUserFeedbacks` only returns the server's answer and changes no state, so it is not modelled.
- `fetchPermissions` in `NewRequest.jsx` is a plain fetch into the store and is not modelled.
- `handleToggleChange` in `NewArticle.jsx` flips the draft's `virtual` field, which the submitted payload carries. The handler itself is not modelled. `server/models/Article.js` has no `virtual` path, so the server drops the field.
- `handleSavePermissions` in `EditPermissions.jsx` only sends the current user, and the `closeModal` callback is UI.
- The editor's heading reads `user?.username` (`EditPermissions.jsx:49`), but no `user` is declared in that module. Evaluating it throws a `ReferenceError` on every render, so as written the editor never mounts and `handlePermissionChange` is never reached. `EditPermissions.HandlePermissionChange` models the handler as it would run once the heading is fixed.
- `EditPermissions.HandlePermissionChange`: only the two checkbox names `canRead` and `canWrite` are modelled, not an arbitrary field name.
- NewRequest.HandleFormSubmit: the `submitting` flag that stays set after a failed post is returned, not kept in a component class.
- AuthRouter.TokenIsSingleUse: assumes no other user holds the same token, which 20 random bytes make all but certain.
- AuthRouter.ForgotThenReset: assumes no other user already holds the newly issued token.
- AuthRouter.ExpiredTokenRefused: assumes no other user already holds the newly issued token.
- `Date.now()`, `crypto.randomBytes`, `bcrypt.hash` and dayjs time formatting are parameters.
- JSON bodies are maps of strings. Values of other JSON types are not modelled.
- `toLowerCase` and `toUpperCase` are modelled on ASCII letters only.
- String lengths are counted in characters, not UTF-16 code units.
- `compareDates` is a parameter. Sortedness is proved when it is a total preorder.
- Rendering, styling and layout are left out. So are the live clock in `ActionBar.jsx` and the unresolved merge markers at `ActionBar.jsx:170-174`.
- `PurposesList.jsx`, `LoginForm.jsx`, `App.jsx`, `Home.jsx` and `server/index.js` are not part of this model.

## Findings

| source | as written | input that shows it | evidently intended | confidence | as-written member | corrected member |
|---|---|---|---|---|---|---|
| client/src/components/requests/NewRequest.jsx:56 | the form posts the requester under `user`, but the server reads `userId` (`server/routes/requestsRouter.js:19`) | any submission, e.g. purpose `OM1` by a known user | post the requester's id as `userId`, so the request is stored | high, not executed | NewRequest.AsWrittenSubmissionRejected | NewRequest.SubmissionStored |
| client/src/components/articles/actions/ActionBar.jsx:95 | a dropdown item stores a bare name string where a list is expected; spreading it splits it into letters, and `includes` on it is a substring test | pick `OM1`, then tick `OM1`: the selection becomes `O`, `M`, `1`, `OM1`; with `OM1` picked, a purpose `OM` shows ticked | store the one-name list `[name]` | high, not executed | ActionBar.DropdownThenToggleExample | ActionBar.PickedListBehaves |
| server/routes/authRouter.js:25-27 | the reset token and its expiry are assigned to paths `server/models/User.js` does not declare, so `save` drops them; a lookup that keeps the filter then never finds the mailed token | ask for a reset for a registered email, then post a new password with the mailed token: 400 | declare `resetToken` and `resetTokenExpiry` in the schema, so the token is stored and accepted within the hour | medium, not executed; depends on the Mongoose strict settings | AuthRouter.MailedTokenNeverResets | AuthRouter.ForgotThenReset |
| server/routes/authRouter.js:52-55 | when Mongoose strips undeclared paths from query filters, the reset filter becomes empty and `findOne` returns the first user | post a new password with the token `x`, which nobody holds: the first stored user's password changes | the lookup matches only the user holding the live token | medium, not executed; depends on the Mongoose version | AuthRouter.AnyTokenResetsFirstUser | AuthRouter.Reset |
