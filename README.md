# A verified model of the blog CMS's request handlers, hooks and components

This project models the parts of a Next.js blog CMS where the code makes
decisions, and proves properties of them in Dafny:

- **the in-memory user table** of the `/api/user` route: a module-level
  array that is searched with `find`/`findIndex` and changed in place by
  `push`, index assignment and `splice`;
- **locales**: the current locale read from the path, the language switch
  that rewrites the path, and `t(key)`, which walks a nested dictionary;
- **the comment subsystem**: the `/api/comments` route over the `comments`
  table, the `useComments` client cache with its `loading` and `error`
  state, the submit guard of the comment form, the view selection of the
  comments section, and the ownership, avatar and preview rules of the
  comment list;
- **the header's** two dropdowns and its language lookup;
- **the admin API routes** (posts, tags, categories, sign-up, users,
  category links): bearer-token parsing, required-field checks, trimming of
  stored fields, status selection, and the compensating delete of sign-up.

The hosted backend (database, identity provider, realtime channel) does not
appear as code. Tables are sequences of rows held by a class or passed in,
and each answer of the backend is a parameter: an insert's assigned id or
error, a store error flag, a lookup function from a token to a user, or a
`fetch` reply. React state cells become fields of a class whose methods are
the event handlers. Pure derivations are functions with lemmas.

JavaScript semantics are written out where the code depends on them:

- truthiness, `||` and `??` defaults;
- `split`/`join` on one character, and `trim` over ECMAScript's white-space
  set;
- `parseInt` (white space, sign, `0x`, the longest digit prefix, NaN);
- `Number` on decimal integer strings;
- strict equality;
- an assignment one past the end of an array, which extends it.

Modules, one per source file: `UserRoute`, `Language`, `CommentsApi`,
`CommentsCache`, `CommentFormModel`, `CommentsView`, `CommentListModel`,
`HeaderModel`, `PostsRoute`, `BearerAuth` (the `verifyAuth` helper that
three routes define identically, and `verifyToken`), `TagsRoute`,
`CategoryRoute`, `SignupRoute`, `UsersRoute` and `CategoryPostRoute`. Shared
modules: `Wrappers`, `Http`, `Strings`, `Js`, `Ordering` (the backend's
`ORDER BY` as a stable sort) and `Seqs` (`filter`).

Behaviour of the code that the proofs make explicit:

- The comments GET attaches the *requesting* user's profile to every
  comment, not the author's.
- A successful fetch never clears the hook's `error`, so once an error is
  shown the section keeps showing it.
- A comment added from the section is fetched twice: `addComment` refetches,
  then `handleAddComment` refreshes again.
- The header falls back to English for an unknown locale, while `t` falls
  back to Thai.
- Sign-up ignores the result of its compensating delete, so a failed delete
  leaves an account without a `users` row.
- The category link route accepts the id `"0"` and a blank string id
  (stored as 0), but refuses the number 0.
- The client deletes a comment through `/api/comments/{id}`, a route that is
  not part of this model. The query-parameter DELETE of `/api/comments` is
  modelled as written. The client's view of the reply is a parameter.

## Model

| member | source | states |
|---|---|---|
| UserRoute.InitialUsersNumbered | src/app/api/user/route.ts:3-14 | the table starts with ten users whose ids are 1..10 in order, pairwise distinct |
| UserRoute.FirstMatch | src/app/api/user/route.ts:54 | `find`/`findIndex`: the result is -1 exactly when no user matches, otherwise a matching index with no match before it |
| UserRoute.FindIndex | src/app/api/user/route.ts:54 | the linear scan returns the first matching index or -1 |
| UserRoute.FirstMatchSame | src/app/api/user/route.ts:54 | the first match depends only on which users satisfy the predicate |
| UserRoute.FirstMatchAppend | src/app/api/user/route.ts:24-54 | appending a user never moves an existing first match: with no duplicate-id check, lookups by id keep finding the older user |
| UserRoute.RemoveAt | src/app/api/user/route.ts:79 | `splice(k, 1)`: length drops by one, entries before `k` stay, later entries shift left |
| UserRoute.HasParsedId | src/app/api/user/route.ts:75 | `user.id === parseInt(id)`: NaN matches no user, a number matches exactly the users with that id |
| UserRoute.DeleteFindsPrintedId | src/app/api/user/route.ts:75 | deleting with the printed form of a numeric id matches the same user as a lookup by that number |
| UserRoute.NonNumericIdNeverMatches | src/app/api/user/route.ts:75-77 | an id `parseInt` reads as NaN matches no user |
| UserRoute.UserTable.constructor | src/app/api/user/route.ts:3-14 | the table starts as the ten initial users |
| UserRoute.UserTable.Create | src/app/api/user/route.ts:16-29 | a falsy id (0 included) or name gives 400 with the table unchanged; otherwise exactly the body is appended and 201 names its id |
| UserRoute.UserTable.Get | src/app/api/user/route.ts:32-42 | no or empty name gives the whole table; otherwise the first user with that name, or 404 when none has it |
| UserRoute.UserTable.Replace | src/app/api/user/route.ts:45-63 | 400 on a falsy id or name; otherwise only the first strictly equal id is replaced, length kept, or 404 with the table unchanged |
| UserRoute.UserTable.Remove | src/app/api/user/route.ts:66-84 | 400 without an id; otherwise exactly the first user whose id equals `parseInt(id)` is removed, or 404 with the table unchanged |
| Language.CurrentLocale | src/hooks/useLanguage.ts:38-41 | the locale is segment 1 of the path, or `th` when that is empty or missing; never empty, never holds `/` |
| Language.WithLocaleSegment | src/hooks/useLanguage.ts:44-45 | segment 1 becomes the new locale, every other segment is kept, and a one-segment path is extended |
| Language.SwitchThenCurrent | src/hooks/useLanguage.ts:38-46 | round trip: after switching to a non-empty locale without `/`, the current locale is that locale |
| Language.SwitchKeepsOtherSegments | src/hooks/useLanguage.ts:44-46 | the rewritten path's segments equal the old ones except segment 1 |
| Language.SwitchToSameLocale | src/hooks/useLanguage.ts:44-46 | switching to the locale the path already shows gives the same path |
| Language.DictionaryFor | src/hooks/useLanguage.ts:57 | an unknown locale uses the Thai dictionary |
| Language.SwitchedPath | src/hooks/useLanguage.ts:43-46 | for a locale without `/`, the new path splits into the old segments with segment 1 replaced |
| Language.Child | src/hooks/useLanguage.ts:60 | one `reduce` step: the child under the key, or the empty object when it is missing or the entry is a text; a text reached is stored in the entry |
| Language.Walk | src/hooks/useLanguage.ts:59-61 | a text the `reduce` reaches is stored in the dictionary it started from |
| Language.Translate | src/hooks/useLanguage.ts:54-63 | `t` never makes up a text: the result is the key itself or a text stored in the current locale's dictionary |
| Language.LocaleCookie | src/hooks/useLanguage.ts:48 | the cookie is `NEXT_LOCALE=` followed by a value that reads back as the locale |
| Language.WalkAppend | src/hooks/useLanguage.ts:59-61 | the `reduce` along `a + b` is the reduce along `a` continued along `b` |
| Language.WalkFromEmpty | src/hooks/useLanguage.ts:60 | once a step is missing (`?? {}`), the walk stays on the empty object |
| Language.MissingStepGivesKey | src/hooks/useLanguage.ts:59-63 | a key with a missing step translates to itself |
| Language.WalkNest | src/hooks/useLanguage.ts:59-61 | walking a nested dictionary along its own key path reaches its leaf |
| Language.TranslateNested | src/hooks/useLanguage.ts:54-63 | round trip, for any dictionary: a dotted key whose parts lead to a text translates to that text |
| Language.TableGivesKey | src/hooks/useLanguage.ts:59-63 | for any dictionary: a dotted key whose parts lead to a sub-dictionary translates to itself |
| Language.TranslateNest | src/hooks/useLanguage.ts:54-63 | a single-path dictionary built from a key translates that key to its text |
| Strings.JoinSplit | src/hooks/useLanguage.ts:39-46 | `s.split(c).join(c)` is `s` |
| Strings.SplitJoin | src/hooks/useLanguage.ts:44-46 | splitting a join of separator-free pieces gives the pieces |
| Strings.Trim | src/app/api/posts/route.ts:86-99 | `trim` removes exactly the surrounding white space and leaves none at either end |
| Strings.TrimEmptyIff | src/components/Comments/CommentForm.tsx:19 | `!s.trim()` holds exactly when `s` is all white space |
| Strings.TrimIdempotent | src/app/api/tags/route.ts:84-86 | trimming twice is trimming once |
| Js.ParseIntDecimal | src/app/api/user/route.ts:75 | `parseInt` reads back any printed integer |
| Js.ToNumberDecimal | src/app/api/category_post/route.ts:27-28 | `Number` reads back any printed integer |
| Js.StringToNumber | src/app/api/category_post/route.ts:27-28 | `Number` of a blank string is 0 |
| Ordering.Sort | src/app/api/comments/route.ts:26 | `order(...)`: the result is sorted in the given direction and is a permutation of the rows |
| Seqs.Filter | src/hooks/useComments.ts:140 | `filter` keeps exactly the elements that pass, in order |
| Seqs.FilterAppend | src/hooks/useComments.ts:140 | filtering a concatenation filters each part |
| Seqs.FilterAllKept | src/hooks/useComments.ts:140 | a filter that rejects nothing changes nothing |
| Seqs.FilterLength | src/app/api/comments/route.ts:25 | the filter's length is the number of accepted elements |
| CommentsApi.DisplayName | src/app/api/comments/route.ts:43 | the name is `full_name` when set; otherwise it holds no `@`; it is never empty |
| CommentsApi.DisplayNameFromEmail | src/app/api/comments/route.ts:43 | without a full name, the name is the part of the email before `@` |
| CommentsApi.ViewerProfile | src/app/api/comments/route.ts:36-46 | GET's profile comes from the requesting session's user: email falls back to `Anonymous`, an empty avatar becomes null |
| CommentsApi.SessionProfile | src/app/api/comments/route.ts:96-105 | POST's profile echoes the session email with no fallback, with the same name rule |
| CommentsApi.PostComments | src/app/api/comments/route.ts:22-26 | exactly the post's rows, newest first |
| CommentsApi.PostCommentsCount | src/app/api/comments/route.ts:22-26 | the listing has as many comments as the post has rows |
| CommentsApi.DeleteOwned | src/app/api/comments/route.ts:142-146 | the rows kept are exactly those not matching both `id` and `user_id` |
| CommentsApi.DeleteByNonOwnerIsNoop | src/app/api/comments/route.ts:142-150 | a user who owns no such row deletes nothing |
| CommentsApi.DeleteIdempotent | src/app/api/comments/route.ts:142-146 | deleting twice is deleting once |
| CommentsApi.DeleteKeepsOrder | src/app/api/comments/route.ts:142-146 | the surviving rows keep their order |
| CommentsApi.CreateThenDelete | src/app/api/comments/route.ts:142-146 | the author's delete takes a new comment out of the post's listing; anyone else's leaves the table as it was |
| CommentsApi.CommentStore.List | src/app/api/comments/route.ts:8-59 | 400 without `postId`, 500 on a store error, otherwise one comment per listed row, in order, all with the viewer's profile |
| CommentsApi.CommentStore.Create | src/app/api/comments/route.ts:61-115 | 401 with no session or an auth error and nothing inserted; 500 on a failed insert; otherwise one row is appended whose `user_id` is the session user's |
| CommentsApi.CommentStore.Delete | src/app/api/comments/route.ts:117-158 | 400 without an id before any session check, then 401, then 500 on a store error, otherwise the scoped delete and 204 |
| CommentsCache.FailureMessage | src/hooks/useComments.ts:39-49 | the body's `error` or the fallback when not ok; the exception's message, or `An error occurred` |
| CommentsCache.WithoutId | src/hooks/useComments.ts:140 | removes exactly the comments with that id |
| CommentsCache.RemovalEchoIsHarmless | src/hooks/useComments.ts:78-81 | the realtime DELETE for a comment already removed locally changes nothing |
| CommentsCache.RemovalOfAbsentId | src/hooks/useComments.ts:79-81 | removing an id that is not there changes nothing |
| CommentsCache.RemovalKeepsOrder | src/hooks/useComments.ts:140 | the remaining comments keep their order |
| CommentsCache.CommentCache.constructor | src/hooks/useComments.ts:21-23 | no comments, loading, no error |
| CommentsCache.CommentCache.FetchComments | src/hooks/useComments.ts:27-53 | success replaces the list and keeps the old error; failure keeps the list and sets the error; loading ends false |
| CommentsCache.CommentCache.OnRealtimeEvent | src/hooks/useComments.ts:72-85 | INSERT and UPDATE refetch; DELETE only removes the old id |
| CommentsCache.CommentCache.AddComment | src/hooks/useComments.ts:98-125 | success refetches and returns success; failure sets and returns the message, list and loading unchanged |
| CommentsCache.CommentCache.DeleteComment | src/hooks/useComments.ts:127-149 | success removes every comment with that id; failure sets and returns the message, list unchanged |
| CommentFormModel.CommentForm.BeginSubmit | src/components/Comments/CommentForm.tsx:17-23 | goes through exactly when the submit button is enabled, handing on the trimmed, non-blank text and marking the form as submitting |
| CommentFormModel.CommentForm.FinishSubmit | src/components/Comments/CommentForm.tsx:22-29 | the text is cleared only on success; `isSubmitting` ends false even when `onSubmit` threw |
| CommentFormModel.CommentForm.Edit | src/components/Comments/CommentForm.tsx:38-39 | typing replaces the text only |
| CommentFormModel.BlankTextIsRefused | src/components/Comments/CommentForm.tsx:19 | white space alone disables submission |
| CommentFormModel.CommentForm.constructor | src/components/Comments/CommentForm.tsx:13-14 | empty text, not submitting |
| CommentFormModel.CommentForm.SubmitDisabled | src/components/Comments/CommentForm.tsx:72 | the button is disabled exactly when signed out, submitting, or the text is white space alone |
| CommentFormModel.CommentForm.TextareaDisabled | src/components/Comments/CommentForm.tsx:43 | the text area is locked only when the button is too, and never for blank text alone |
| CommentsView.SelectView | src/components/Comments/index.tsx:31-94 | spinner exactly while loading; then the error panel exactly when the error is non-empty; otherwise the count and list-or-empty |
| CommentsView.FormNeverSeesLoading | src/components/Comments/index.tsx:31-81 | the form is rendered only when not loading |
| CommentsView.Retry | src/components/Comments/index.tsx:44 | a successful retry replaces the comments and keeps the same error panel up; a failed one keeps the comments and shows the new message |
| CommentsView.HandleAddComment | src/components/Comments/index.tsx:53-60 | passes the hook's outcome on; refreshes only on success; after success the comments are the last successful listing and the error is the last failed fetch's message, or unchanged when both fetches succeed |
| CommentsView.HandleDeleteComment | src/components/Comments/index.tsx:62-69 | passes the hook's outcome on; refreshes only on success |
| CommentListModel.InitialLetter | src/components/Comments/CommentList.tsx:71 | upper-cased first letter of `full_name`, else of `email`, else `A` |
| CommentListModel.AvatarOf | src/components/Comments/CommentList.tsx:60-74 | a picture exactly when the avatar URL is non-empty, else the initial |
| CommentListModel.ShownName | src/components/Comments/CommentList.tsx:81 | `full_name`, else `email` |
| CommentListModel.IsOwn | src/components/Comments/CommentList.tsx:83 | `currentUser?.id === comment.user_id`: own exactly when signed in as the comment's author; never when signed out |
| CommentListModel.ServedCommentsShowDisplayName | src/components/Comments/CommentList.tsx:71-81 | comments from the route always show the route's display name |
| CommentListModel.RenderList | src/components/Comments/CommentList.tsx:31-117 | empty state exactly for no comments; one item per comment in order, keyed by id; badge and delete control exactly for the viewer's own |
| CommentListModel.SignedOutSeesNoDelete | src/components/Comments/CommentList.tsx:117 | with no current user no item has a delete control |
| CommentListModel.DeleteControlMatchesServerScope | src/components/Comments/CommentList.tsx:117 | the ownership test that shows the control is the scope of the `?id=` route's delete: that delete, given the item's key by its viewer, removes that row |
| CommentListModel.HandleDelete | src/components/Comments/CommentList.tsx:17-29 | nothing without confirmation; failures alert with a non-empty message |
| CommentListModel.ImagePreview.ClickImage | src/components/Comments/CommentList.tsx:104 | the clicked image is selected; the dialog opens exactly when its URL is non-empty |
| CommentListModel.ImagePreview.Close | src/components/Comments/CommentList.tsx:148-156 | the selection is cleared and the dialog closed |
| CommentListModel.ImagePreview.constructor | src/components/Comments/CommentList.tsx:15 | nothing selected |
| HeaderModel.CurrentLanguageDetails | src/components/layout/Header.tsx:62-64 | the entry with the locale's code, else the first (English) |
| HeaderModel.Languages | src/components/layout/Header.tsx:29-54 | four entries, English first, codes pairwise distinct and all among the bundled locales |
| HeaderModel.UnknownLocaleFallbacksDisagree | src/components/layout/Header.tsx:62-64 | an unknown locale shows English in the header but translates from Thai |
| HeaderModel.MissingLocaleIsThai | src/hooks/useLanguage.ts:40-57 | a path with no locale segment is Thai in both places |
| HeaderModel.ChosenLanguageIsShown | src/components/layout/Header.tsx:62-79 | after choosing a language the header shows it |
| HeaderModel.LogoutTarget | src/components/layout/Header.tsx:89-91 | navigates to `/login` exactly when the response is ok |
| HeaderModel.HeaderState.constructor | src/components/layout/Header.tsx:58-59 | both dropdowns closed |
| HeaderModel.HeaderState.ToggleLanguage | src/components/layout/Header.tsx:66-69 | flips the language dropdown, closes the other, never both open |
| HeaderModel.HeaderState.ToggleProfile | src/components/layout/Header.tsx:71-74 | flips the profile menu, closes the other, never both open |
| HeaderModel.HeaderState.HandleLanguageChange | src/components/layout/Header.tsx:76-79 | navigates to the rewritten path, writes the locale cookie, closes the language dropdown |
| HeaderModel.HeaderState.MouseDown | src/components/layout/Header.tsx:96-101 | a click outside closes both; inside changes nothing |
| BearerAuth.BearerSplit | src/app/api/posts/route.ts:15-19 | a `Bearer ` header splits into `Bearer` and the pieces after the space |
| BearerAuth.IsBearer | src/app/api/posts/route.ts:15 | a header that passes has `Bearer` as its first space-separated field and a second field to read the token from |
| BearerAuth.TokenOf | src/app/api/posts/route.ts:19 | the token never contains a space |
| BearerAuth.TokenIsRestUpToSpace | src/app/api/posts/route.ts:19 | the token is what follows the scheme, up to the next space |
| BearerAuth.TokenRoundTrip | src/app/api/posts/route.ts:19 | a space-free token is read back from its header, whatever follows a further space |
| BearerAuth.DoubleSpaceGivesEmptyToken | src/app/api/posts/route.ts:19 | two spaces after the scheme give an empty token |
| BearerAuth.LowercaseSchemeIsNotBearer | src/app/api/posts/route.ts:15 | the scheme is case-sensitive |
| BearerAuth.VerifyAuth | src/app/api/posts/route.ts:12-32 | no `Bearer ` prefix: `No bearer token provided`; authenticated exactly when the provider finds a user for the token; its error or no user: `Invalid or expired token`; an exception: `Authentication failed` and its text |
| BearerAuth.VerifyAuthOfToken | src/app/api/tags/route.ts:9-28 | the provider is asked about exactly the client's token |
| BearerAuth.VerifyToken | src/utils/auth.ts:1-31 | exactly one of `user` and `error` is set; `user` exactly when the check is ok; every error after the prefix check starts with `Invalid token` |
| BearerAuth.HelpersAgree | src/utils/auth.ts:7-11 | both helpers accept the same headers and consult the same token |
| PostsRoute.BlankTitleIsMissing | src/app/api/posts/route.ts:86 | a blank title is rejected like a missing one |
| PostsRoute.HasTitleAndContent | src/app/api/posts/route.ts:86 | passes exactly when title and content are present and not white space alone |
| PostsRoute.ImageUrl | src/app/api/posts/route.ts:99 | the image URL is trimmed, and null when missing or blank |
| PostsRoute.NewPost | src/app/api/posts/route.ts:96-102 | title and content trimmed, author the authenticated user |
| PostsRoute.StoredFieldsAreNormal | src/app/api/posts/route.ts:97-99 | stored title and content are non-empty with no surrounding white space; storing them again stores the same row |
| PostsRoute.TagLinks | src/app/api/posts/route.ts:131-143 | one tag link per tag, in order |
| PostsRoute.CategoryLinks | src/app/api/posts/route.ts:147-159 | one category link per category, in order |
| PostsRoute.SendTagLinks | src/app/api/posts/route.ts:131-143 | the loop sends exactly the tag links |
| PostsRoute.SendCategoryLinks | src/app/api/posts/route.ts:147-159 | the loop sends exactly the category links |
| PostsRoute.LinkOrder | src/app/api/posts/route.ts:131-159 | all tag requests precede all category requests, all for the new post |
| PostsRoute.PostStore.List | src/app/api/posts/route.ts:35-68 | 401 with the auth error; 500 on a store error; otherwise every post, newest first |
| PostsRoute.PostStore.Create | src/app/api/posts/route.ts:71-170 | 401, 500 for a non-JSON body, 400 for missing or blank title or content, 500 on insert error, all with nothing stored; else one normalised row, then tag links, then category links; a missing list answers 500 after the insert |
| TagsRoute.ListTags | src/app/api/tags/route.ts:31-64 | auth first (401), 500 on a store error, else all tags newest first |
| TagsRoute.NewTag | src/app/api/tags/route.ts:80-86 | the row keeps the id and time; its text fields are the body's trimmed, so trimming again changes nothing |
| TagsRoute.CreateTag | src/app/api/tags/route.ts:67-102 | auth before the body; a missing field is an uncaught error; a row is stored exactly when authenticated, complete and inserted; it holds the trimmed fields |
| TagsRoute.StoredTagIsTrimmed | src/app/api/tags/route.ts:84-86 | storing a stored tag's fields again stores the same tag |
| CategoryRoute.ListCategories | src/app/api/category/route.ts:32-56 | auth first (401), 500 on a store error, else the table in its own order |
| CategoryRoute.NewCategory | src/app/api/category/route.ts:72-78 | the row keeps the id and time; its text fields are the body's trimmed, so trimming again changes nothing |
| CategoryRoute.CreateCategory | src/app/api/category/route.ts:59-94 | auth before the body; a missing field is an uncaught error; a row is stored exactly when authenticated, complete and inserted; it holds the trimmed fields |
| CategoryRoute.StoredCategoryIsTrimmed | src/app/api/category/route.ts:76-78 | storing a stored category's fields again stores the same category |
| CategoryRoute.BlankNameIsStoredEmpty | src/app/api/category/route.ts:76 | a blank name is not rejected; it is stored empty |
| SignupRoute.WithoutAccount | src/app/api/auth/signup/route.ts:66 | deleting an account keeps exactly the accounts with other ids |
| SignupRoute.HasRequired | src/app/api/auth/signup/route.ts:16 | passes exactly when name, email, role and password are all truthy; a missing, null, empty, zero or false field fails |
| SignupRoute.CompensationRestores | src/app/api/auth/signup/route.ts:63-72 | the compensating delete of a fresh account restores the accounts |
| SignupRoute.Directory.SignUp | src/app/api/auth/signup/route.ts:10-91 | 400 for a missing field before any provider call; 401 with the provider's message or the fallback; a failed insert deletes the account and answers 400; success stores a passwordless row with the account's id |
| UsersRoute.ListUsers | src/app/api/users/route.ts:9-32 | a store error answers 500 with its message; an empty table 404; else every row by ascending id |
| UsersRoute.HasRequired | src/app/api/users/route.ts:41 | passes exactly when name, email and role are all truthy; a missing, null, empty, zero or false field fails |
| UsersRoute.CreateUser | src/app/api/users/route.ts:36-70 | 400 for a falsy field and nothing stored; only name, email and role stored; 201 or 500 with the store's message |
| UsersRoute.CreatedUserIsListed | src/app/api/users/route.ts:11-58 | a created user appears in the next listing |
| CategoryPostRoute.RowOf | src/app/api/category_post/route.ts:25-31 | both ids pass through `Number` |
| CategoryPostRoute.HasIds | src/app/api/category_post/route.ts:15 | a missing, null, empty, zero or false id fails; passing ids are none of those |
| CategoryPostRoute.CreateCategoryPost | src/app/api/category_post/route.ts:9-65 | 400 for a falsy id; exactly one row stored on success with the fixed message; the store's message or a fixed one on failure |
| CategoryPostRoute.NumericZeroIsRefused | src/app/api/category_post/route.ts:15-21 | the number 0 is refused |
| CategoryPostRoute.PrintedIdsAreStored | src/app/api/category_post/route.ts:15-31 | printed decimal ids, `"0"` included, are stored as their numbers |
| CategoryPostRoute.BlankIdIsStoredAsZero | src/app/api/category_post/route.ts:15-31 | a blank string id passes the check and is stored as 0 |

## Left out

- The backend's query builder, identity provider, realtime channel and storage: their answers are parameters. Realtime subscription and teardown, and the interleaving of callbacks with fetches in flight, are not modelled. Each handler is one atomic step.
- Network and navigation side effects: `fetch` bodies and headers, `router.push`, `window.confirm` and `alert`. Each becomes an input or a returned value.
- Logging, email notification, rich-text editing and uploads. They hold no decision logic.
- Floating-point numbers and NaN as values. `Number` is modelled only on decimal integer strings. Hex, fraction and exponent forms give `NotInteger`.
- Date formatting. Timestamps are integers chosen by the caller, and ties in `created_at` keep their stored order.
- `toUpperCase` outside ASCII. `InitialLetter` upper-cases a-z only.
- JavaScript property lookup on strings and prototypes inside `t`. For example, a numeric key on a string leaf, or `constructor`. A text leaf is treated as having no children.
- The `language` state of `useLanguage`, which is never read. The hook's current locale comes from the path alone.
- Extra fields of request bodies. The user route stores the body as `{ id, name }` only, and body fields of the wrong JSON type are not modelled. A non-iterable `tags` or `categories` is modelled as missing.
- Exceptions outside the modelled paths, and the outer `try/catch` of each route. Examples: `request.json()` on the user route, a `fetch` to the link routes that throws, a throwing `deleteUser` in sign-up.
- The mount effect and the retry button are plain calls of `FetchComments`. `CommentsView.Retry` covers the retry.
- The `/api/comments/{id}` route, which the client's delete calls, is not part of this model.
- CommentListModel.DeleteControlMatchesServerScope: relates the control only to the query-parameter DELETE of `/api/comments`. The control actually calls `/api/comments/{id}`, which is not modelled, so nothing is proved about that request.
- The `users` table is not shared between the sign-up and users routes: sign-up writes the provider's string account id, while the users route lets the table assign an id and orders by it as a number.
- Language.Child: a step from a text leaf gives the empty object rather than JavaScript's string indexing.
