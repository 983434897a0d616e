# DevBlogs client: a Dafny model of its decision logic

This project models the browser client of the DevBlogs technical blog in
Dafny 4.11. The client is written in React and TypeScript.

- **Request helper.** It builds a request from the method, the data and the
  stored token. It classifies each response as success, the 401 path (the
  session is cleared) or a "<status>: <detail>" error, and it picks the token
  out of a login reply.
- **Logger.** Levels are ordered, and redaction is shallow.
- **API path table.**
- **Local lists.** The bookmarks list and the pending-feedback list kept in
  `localStorage`.
- **Markdown `pre` renderer.** It extracts the language, routes a block to
  the diagram component or to a code block with a Copy button, loads the
  diagram engine lazily and formats its error text.
- **Authentication hook.**
- **Page handlers.** The editor, register, login, dashboard, profile and
  admin pages, and the navigation bar.

There is one Dafny module per source file, plus two shared modules:

- `Js` holds the JavaScript value semantics the client relies on: JSON
  values, truthiness, `??`, `||`, `String(v)`, `trim`, `includes` and
  decimal printing.
- `Browser` holds a `Window` class. Its fields are `localStorage` as a map,
  the current path, and logs of navigations, `fetch` calls and toasts. It
  also holds `JSON.parse`/`JSON.stringify` as a pair of function values.

The browser is modelled as follows:

- **Replies.** A reply is an input: `Response(status, statusText, body)`.
  `JSON.parse` is a partial function.
- **Round trips.** Every lemma about storage round trips assumes
  `RoundTrips(codec)`, which says that parsing what was stringified gives
  the value back.
- **Async handlers.** Each async handler is split at its `await`.
  - `BeginX` is what runs on the click, up to sending the request.
  - `FinishX(w, res)` is what runs once the reply `res` has arrived.
  - So "no request is made" is visible as an unchanged `fetches` log.
- **State.** Component state is a class whose fields the handlers update.

## Model

| member | source | states |
|---|---|---|
| QueryClient.BaseUrl | client/src/lib/queryClient.ts:4-5 | the base URL is `VITE_API_URL` when it is set and non-empty, and "http://localhost:8000" otherwise; it is never empty |
| QueryClient.BuildRequest | client/src/lib/queryClient.ts:51-64 | the headers are filled by conditional assignment. An Authorization "Bearer <token>" header is present iff a non-empty token is stored. A JSON Content-Type and a body are present iff data is given and the method is not GET. The URL is base + path. |
| QueryClient.ApiSend | client/src/lib/queryClient.ts:46-79 | `apiRequest` up to `fetch`: exactly one request, built from the stored token, is appended to the fetch log |
| QueryClient.ApiRequestDetermined | client/src/lib/queryClient.ts:51-79 | the method, path, data, stored token and base URL fix the request completely |
| QueryClient.Classify | client/src/lib/queryClient.ts:17-44 | (corrected classification) success iff the status is 2xx, returning the response unchanged; a 401 always gives exactly "401: Unauthorized", before any other check |
| QueryClient.ClassifyReportsStatus | client/src/lib/queryClient.ts:21-42 | every failure message, the 401 one included, starts with the response's status followed by ':', and the status reads back from it |
| QueryClient.ClassifyFallsBackToStatusText | client/src/lib/queryClient.ts:38-42 | with no truthy `error` field, or with a body that is not JSON, the message is "<status>: <statusText>" |
| QueryClient.ClassifyReportsError | client/src/lib/queryClient.ts:38-42 | a failing non-401 reply whose JSON body is an object with a truthy `error` gives exactly "<status>: String(error)" |
| QueryClient.StatusErrorReadsBack | client/src/lib/queryClient.ts:42 | the status printed in "<status>: <detail>" is recovered exactly from the message |
| QueryClient.LeadingDigitsOfDigitsThen | client/src/lib/queryClient.ts:42 | the leading digits of a printed status followed by ": " are that printed status |
| QueryClient.LeadingDigits | client/src/lib/queryClient.ts:42 | the digit prefix of a message is a maximal run of decimal digits |
| QueryClient.ClassifyAsWritten | client/src/lib/queryClient.ts:26-31 | (as written) once `res.json()` has failed the body is consumed, so the fallback `res.text()` rejects |
| QueryClient.NonJsonErrorBodyLosesStatus | client/src/lib/queryClient.ts:26-42 | for a failing non-401 response with a non-JSON body, the code as written throws "body stream already read", which names no status; the intended result was "<status>: <statusText>" |
| QueryClient.AsWrittenAgreesOnJsonBodies | client/src/lib/queryClient.ts:21-43 | the written and corrected classifications agree on every ok or 401 response, and on every response whose body is JSON |
| QueryClient.ClassifyAsWrittenReportsError | client/src/lib/queryClient.ts:26-42 | as written as well, a JSON object body with a truthy `error` gives exactly "<status>: String(error)" |
| QueryClient.HandleUnauthorized | client/src/lib/queryClient.ts:8-15 | "token" and "user" are removed; the login page is navigated to only when the current path is not already "/login" |
| QueryClient.ThrowIfResNotOk | client/src/lib/queryClient.ts:17-44 | (corrected classification) the outcome is `Classify`. Only a 401 touches storage (both keys removed) or the location (the login page). Any other response leaves storage, path and navigations as they were. |
| QueryClient.JsonResult | client/src/lib/queryClient.ts:81-82 | (corrected classification) `apiRequest` followed by `res.json()` yields a value only for a 2xx response whose body parses, and then yields exactly the parsed body |
| QueryClient.ReceiveJson | client/src/lib/queryClient.ts:81-82 | (corrected classification) the shared step of every page: the result is `JsonResult`, and the session effects are those of the 401 path only |
| QueryClient.JsonResultDiffersOnlyOnNonJsonErrors | client/src/lib/queryClient.ts:26-31 | what a page receives under the corrected and the as-written classification differs exactly for a failing non-401 reply whose body is not JSON; there the code as written gives "body stream already read" and the corrected one "<status>: <statusText>" |
| QueryClient.GetTokenFromAuthResponse | client/src/lib/queryClient.ts:85-90 | reading a field of a null body throws; a token that is found is never null |
| QueryClient.AccessTokenTakesPrecedence | client/src/lib/queryClient.ts:89 | a non-null `access_token` is the token whatever `token` holds |
| QueryClient.TokenFoundIffPresent | client/src/lib/queryClient.ts:89 | a token is found iff `access_token` or `token` is non-null, and it is one of the two |
| QueryClient.TokenOutcome | client/src/lib/queryClient.ts:85-90 | a token outcome exists only for a 2xx reply with a non-null JSON body, and it is that body's token |
| Logger.ParseLevel | client/src/lib/logger.ts:3-8 | a parsed level is the level with exactly that name |
| Logger.NameRoundTrip | client/src/lib/logger.ts:3-8 | every level name parses back to its level |
| Logger.RanksStrictlyOrdered | client/src/lib/logger.ts:3-8 | debug < info < warn < error, and the rank determines the level |
| Logger.CurrentLevel | client/src/lib/logger.ts:10-14 | when the lower-cased `VITE_LOG_LEVEL` names a level, that level is current; otherwise (unset or unknown) info is |
| Logger.CurrentLevelSelectsNamedLevel | client/src/lib/logger.ts:10-14 | any spelling of a level name that lower-cases to it (for example "warn") selects that level, and so does the level's own name |
| Logger.UpperCaseSettingAccepted | client/src/lib/logger.ts:11-14 | `VITE_LOG_LEVEL=WARN` selects warn |
| Logger.NameIsLowerCase | client/src/lib/logger.ts:3-8 | the level names are unchanged by lower-casing |
| Logger.ShouldLogMonotone | client/src/lib/logger.ts:16-18 | if a level is logged, every higher level is logged too, and errors always are |
| Logger.SanitizePayload | client/src/lib/logger.ts:20-33 | the copy-then-overwrite loop over the keys yields exactly the redacted payload |
| Logger.SanitizedShape | client/src/lib/logger.ts:23-30 | redaction keeps every key, replaces exactly "password", "confirmPassword" and "token" by "***redacted***", and leaves every other value (nested secrets included) unchanged |
| Logger.SanitizedPassesNonObjects | client/src/lib/logger.ts:21 | falsy values, primitives and arrays are returned unchanged |
| Logger.SanitizedIdempotent | client/src/lib/logger.ts:24-30 | sanitising a sanitised payload changes nothing |
| Logger.Log | client/src/lib/logger.ts:35-52 | a console line is produced iff the level is logged; it is written at that level with the "[app]" tag, and carries the message and the sanitised context |
| Logger.LoggedContextHidesSecrets | client/src/lib/logger.ts:26-30 | no logged context shows a top-level password, confirmation or token |
| Js.ToLower | client/src/lib/logger.ts:11 | lower-casing keeps the length |
| Api.FixedPathsUnderPrefix | client/src/lib/api.ts:4-52 | every constant path starts with "/api" |
| Api.BuiltPathsUnderPrefix | client/src/lib/api.ts:19-26 | every path a builder makes, for any slug or id, starts with "/api" |
| Api.SameResourcePaths | client/src/lib/api.ts:13-22 | get, update, patch and delete build the same path; `auth.me` equals `auth.updateMe`; `articles.list` equals `articles.create` |
| Api.ActionPathsExtendArticlePath | client/src/lib/api.ts:19-26 | publish, unpublish, related and crosspost are the get path plus their suffix |
| Api.SlugBuildersInjective | client/src/lib/api.ts:19-26 | every slug builder is injective |
| Api.ArticleStatsInjective | client/src/lib/api.ts:45 | `articleStats` is "/api/analytics/article/" followed by the decimal id, and distinct ids give distinct paths |
| Api.ActionPathIsArticlePathOfLongerSlug | client/src/lib/api.ts:19-26 | the publish path of a slug is the get path of the slug + "/publish", so paths alone do not tell the two apart |
| Api.PrefixCancels | client/src/lib/api.ts:19-26 | a common prefix cancels from equal paths |
| Api.SuffixCancels | client/src/lib/api.ts:23-26 | a common suffix cancels from equal paths |
| Js.NatToString | client/src/lib/api.ts:45 | a printed natural number is a non-empty run of digits with no leading zero |
| Js.DecimalRoundTrip | client/src/lib/api.ts:45 | reading back a printed natural number gives the number |
| Js.IntToStringInjective | client/src/lib/api.ts:45 | distinct integers print differently |
| Bookmarks.KeepMembers | client/src/pages/bookmarks.tsx:16-18 | an element is kept iff it was in the input and passes the test |
| Bookmarks.KeepIsSubsequence | client/src/pages/bookmarks.tsx:16-18 | filtering keeps the input order |
| Bookmarks.KeepAllWhenAllKept | client/src/pages/bookmarks.tsx:16-18 | a list whose elements all pass is returned unchanged |
| Bookmarks.KeepIdempotent | client/src/pages/bookmarks.tsx:16-18 | filtering twice is filtering once |
| Bookmarks.MarkEntries | client/src/pages/bookmarks.tsx:17 | the map step keeps the length |
| Bookmarks.MapThenFilterKeepsEntries | client/src/pages/bookmarks.tsx:16-18 | mapping non-entries to null and then filtering falsy values keeps exactly the entries, in order |
| Bookmarks.NormalizeList | client/src/pages/bookmarks.tsx:12-22 | every element of the result is an object with truthy `id`, `slug` and `title`; text that does not parse gives [] |
| Bookmarks.NormalizeKeepsEntriesInOrder | client/src/pages/bookmarks.tsx:14-18 | for a parsed array, the result is its entries in order, each unchanged, and nothing else |
| Bookmarks.NonArrayIsEmpty | client/src/pages/bookmarks.tsx:15 | a value that parses to something other than an array gives [] |
| Bookmarks.EntriesIdempotent | client/src/pages/bookmarks.tsx:16-18 | normalising a normalised list returns it unchanged |
| Bookmarks.WithoutIdSpec | client/src/pages/bookmarks.tsx:33 | after removal no entry has the id, every other entry stays, and the order is kept |
| Bookmarks.WithoutAbsentId | client/src/pages/bookmarks.tsx:33 | removing an id that no entry has changes nothing |
| Bookmarks.BookmarksPage.constructor | client/src/pages/bookmarks.tsx:25 | the list starts empty |
| Bookmarks.BookmarksPage.Load | client/src/pages/bookmarks.tsx:27-29 | the shown list is the normalised stored list, a missing item counting as "[]" |
| Bookmarks.BookmarksPage.RemoveBookmark | client/src/pages/bookmarks.tsx:31-36 | the shown list is the stored list without the id, and the same list is written back to storage |
| Bookmarks.RemovedListReadsBack | client/src/pages/bookmarks.tsx:32-35 | the written list reads back, through normalisation, as the list on screen |
| Feedback.PendingWrite | client/src/components/FeedbackDialog.tsx:20-26 | a write happens iff the stored text (a missing item counting as "[]") parses to an array |
| Feedback.FeedbackDialog.constructor | client/src/components/FeedbackDialog.tsx:10-11 | the dialog starts closed with an empty message |
| Feedback.FeedbackDialog.Submit | client/src/components/FeedbackDialog.tsx:14-30 | a blank message only warns, and storage, message and dialog stay as they were. Otherwise the write (if any) is made, the user is thanked even when storage could not be read, the message is cleared and the dialog is closed. |
| Feedback.SubmitAppends | client/src/components/FeedbackDialog.tsx:21-23 | a write appends exactly one entry, the trimmed text with its time, after the existing entries, which are unchanged |
| Feedback.FirstSubmitStartsList | client/src/components/FeedbackDialog.tsx:21 | with no stored list, the first submission creates a list of exactly its own entry |
| Feedback.UnreadableListKept | client/src/components/FeedbackDialog.tsx:21-26 | stored text that does not parse to an array is never overwritten |
| Js.TrimStartSpec | client/src/components/FeedbackDialog.tsx:15 | `trim` drops exactly the leading white space |
| Js.TrimEndSpec | client/src/components/FeedbackDialog.tsx:15 | `trim` drops exactly the trailing white space |
| Js.TrimSlice | client/src/components/FeedbackDialog.tsx:15 | the trimmed text is a slice of the input, starting and ending on a visible character |
| Js.TrimEmptyIffBlank | client/src/components/FeedbackDialog.tsx:15-16 | the trimmed text is empty iff the input is all white space |
| Js.TrimIdempotent | client/src/pages/editor.tsx:47 | trimming twice is trimming once |
| MarkdownRenderer.WordRun | client/src/components/MarkdownRenderer.tsx:103 | `\w+` takes the longest run of word characters at its start |
| MarkdownRenderer.FirstMatch | client/src/components/MarkdownRenderer.tsx:103 | the match found is the leftmost position where "language-" is followed by a word character |
| MarkdownRenderer.ExtractLanguage | client/src/components/MarkdownRenderer.tsx:103 | there is no language iff nothing matches; a language is a non-empty run of word characters |
| MarkdownRenderer.LanguageIsLeftmostMatch | client/src/components/MarkdownRenderer.tsx:103 | the language is the whole word run after the leftmost matching tag |
| MarkdownRenderer.WordRunOfWord | client/src/components/MarkdownRenderer.tsx:103 | a word is its own word run |
| MarkdownRenderer.TagThenWordNamesWord | client/src/components/MarkdownRenderer.tsx:103 | "language-<word>" names exactly that word |
| MarkdownRenderer.MermaidClassNamesMermaid | client/src/components/MarkdownRenderer.tsx:103-105 | the class of a mermaid fence names the language "mermaid" |
| MarkdownRenderer.RenderPre | client/src/components/MarkdownRenderer.tsx:105-124 | a diagram block gets exactly the code, which is non-empty; a code block has a Copy button iff its code is non-empty |
| MarkdownRenderer.DiagramIffMermaidWithCode | client/src/components/MarkdownRenderer.tsx:105-107 | a block is routed to the diagram component iff its language is exactly "mermaid" and its code is non-empty |
| MarkdownRenderer.MermaidFenceRouting | client/src/components/MarkdownRenderer.tsx:103-107 | a non-empty mermaid fence is a diagram of its code; an empty one is a code block without Copy |
| MarkdownRenderer.CopyLog.constructor | client/src/components/MarkdownRenderer.tsx:108-113 | no copy has happened yet |
| MarkdownRenderer.CopyLog.HandleCopy | client/src/components/MarkdownRenderer.tsx:108-113 | the clipboard gets exactly the code and `onCodeCopy` is called once, both only for non-empty code with a clipboard present; otherwise nothing happens |
| MarkdownRenderer.ErrorMessage | client/src/components/MarkdownRenderer.tsx:63-66 | the error text is longer than its fixed frame |
| MarkdownRenderer.ErrorMessageShowsMessage | client/src/components/MarkdownRenderer.tsx:64-65 | the text is "Mermaid error: <msg>. Check your diagram syntax.", with msg defaulting to "Diagram failed to render" |
| MarkdownRenderer.ErrorMessageInjective | client/src/components/MarkdownRenderer.tsx:64-65 | distinct non-empty failure messages give distinct texts |
| MarkdownRenderer.MermaidGlobal.constructor | client/src/components/MarkdownRenderer.tsx:35 | the engine starts absent and uninitialised |
| MarkdownRenderer.MermaidGlobal.FinishLoading | client/src/components/MarkdownRenderer.tsx:36-60 | (corrected) the one shared import either stores and initialises the engine once or frees the slot; it is never initialised twice |
| MarkdownRenderer.MermaidBlock.constructor | client/src/components/MarkdownRenderer.tsx:17-19 | a block starts idle with no error |
| MarkdownRenderer.MermaidBlock.MountAsWritten | client/src/components/MarkdownRenderer.tsx:21-36 | (as written) blank code does nothing. Otherwise the error is cleared and the trimmed code is placed. The block then renders if the engine is present, and imports it itself otherwise. |
| MarkdownRenderer.MermaidBlock.EngineImportedAsWritten | client/src/components/MarkdownRenderer.tsx:36-61 | (as written) each block's own import, on success, stores and initialises the engine again; on failure it shows the error |
| MarkdownRenderer.MermaidBlock.Mount | client/src/components/MarkdownRenderer.tsx:21-35 | (corrected) the same placement of the trimmed code. The first block that needs the engine starts the one import and later blocks wait for it. The initialisation count is unchanged. |
| MarkdownRenderer.MermaidBlock.Resume | client/src/components/MarkdownRenderer.tsx:62-66 | a waiting block renders once the engine is present, and otherwise shows the import's failure |
| MarkdownRenderer.MermaidBlock.RenderSettled | client/src/components/MarkdownRenderer.tsx:62-66 | a render failure is caught and shown as the error text, never rethrown |
| MarkdownRenderer.VisibleStartNotBlank | client/src/components/MarkdownRenderer.tsx:22 | code that starts with a visible character is not skipped |
| MarkdownRenderer.TwoDiagramsInOneCommitAsWritten | client/src/components/MarkdownRenderer.tsx:35-61 | (as written) two diagram blocks mounted together initialise the engine twice |
| MarkdownRenderer.TwoDiagramsInOneCommit | client/src/components/MarkdownRenderer.tsx:35-61 | (corrected) the same two blocks initialise the engine once, and both go on to render |
| UseAuth.SetStoredUser | client/src/hooks/useAuth.ts:32-36 | a truthy user is stored as its JSON, and anything else removes the "user" key |
| UseAuth.StoredUserReadsBack | client/src/hooks/useAuth.ts:21-36 | `getStoredUser` after `setStoredUser(u)` gives u back (null for a falsy u), and no other key changes |
| UseAuth.NormalizeUser | client/src/hooks/useAuth.ts:47-54 | a null body throws; otherwise the user is an object with only the five user fields |
| UseAuth.NormalizedUserShape | client/src/hooks/useAuth.ts:48-54 | `id` and `username` are copied. `full_name` and `email` are the reply's when present, and null (the key present) when the reply has none. `role` is the reply's when present, and "reader" otherwise. The user is truthy. |
| UseAuth.NormalizeUserIdempotent | client/src/hooks/useAuth.ts:48-54 | normalising a normalised user changes nothing |
| UseAuth.AuthHook.constructor | client/src/hooks/useAuth.ts:39-40 | the token and the user start as read from storage |
| UseAuth.AuthHook.BeginFetchMe | client/src/hooks/useAuth.ts:42-46 | no request is made iff no non-empty token is stored; otherwise exactly the GET of the current user is sent |
| UseAuth.AuthHook.FinishFetchMe | client/src/hooks/useAuth.ts:45-60 | on success the normalised user is stored, shown and returned. A failure returns null and leaves the user state alone; a failure other than a 401 leaves storage exactly as it was. |
| UseAuth.AuthHook.Mount | client/src/hooks/useAuth.ts:63-71 | the token is re-read. A fetch is started iff a token exists and no user is stored; otherwise the stored user is shown and no request is made. |
| UseAuth.FetchedUserReadsBack | client/src/hooks/useAuth.ts:55 | a user stored by `fetchMe` reads back as the same user |
| Js.Coalesce | client/src/hooks/useAuth.ts:51-53 | `a ?? b` is a unless a is null or undefined, else b |
| Js.OrElse | client/src/pages/profile.tsx:66-70 | `a \|\| b` is a when a is truthy, else b |
| Editor.SavePayloadShape | client/src/pages/editor.tsx:46-49 | the payload has exactly a title and a content. The title is non-empty and already trimmed. The content is the editor's when truthy, and "" otherwise. |
| Editor.ImprovedContentChoice | client/src/pages/editor.tsx:83-84 | the content becomes `improved_content` if truthy, else the reply's `content` if truthy, else stays; truthy content never turns falsy |
| Editor.EditorPage.constructor | client/src/pages/editor.tsx:27-31 | initial state: not saving or generating, empty title and slug, content "# Introduction\n\nWrite your technical deep dive here..." |
| Editor.EditorPage.BeginSaveDraft | client/src/pages/editor.tsx:33-49 | a blank title only warns: no request, and `isSaving` is never set. Otherwise saving starts and the trimmed payload is posted. |
| Editor.EditorPage.FinishSaveDraft | client/src/pages/editor.tsx:50-64 | the slug changes only to a truthy `slug` from a successful reply; one toast reports the outcome; `isSaving` is false after success and failure alike |
| Editor.EditorPage.BeginAiAssist | client/src/pages/editor.tsx:67-81 | blank content only warns and sends nothing; content that is not a string rejects with nothing done; otherwise generation starts and the content is posted |
| Editor.EditorPage.FinishAiAssist | client/src/pages/editor.tsx:82-97 | the content is replaced by the improved text when the reply has one; one toast reports the outcome; generation ends |
| Editor.AssistNeedsVisibleText | client/src/pages/editor.tsx:68 | the assist is requested iff the content is a string with a visible character |
| Editor.InitialContentNotBlank | client/src/pages/editor.tsx:30 | the initial content allows the assist |
| Register.RegisterBodyFields | client/src/pages/register.tsx:37-42 | the password is always sent; email and phone are sent exactly when non-empty; the logged channel is "email" exactly when the email is sent |
| Register.RegisterPage.constructor | client/src/pages/register.tsx:16-21 | an empty form, not loading |
| Register.RegisterPage.BeginRegister | client/src/pages/register.tsx:23-42 | differing passwords only warn: no request, and `isLoading` is never set. Otherwise loading starts and the body is posted. |
| Register.RegisterPage.FinishRegister | client/src/pages/register.tsx:43-67 | a truthy token is stored under "token" and the user goes to /dashboard. Otherwise nothing is stored and the user goes to /login. Any error shows "Registration failed". Loading ends in every case. |
| Login.Identifier | client/src/pages/login.tsx:92 | the identifier is empty iff both the email and the phone are |
| Login.IdentifierPrefersEmail | client/src/pages/login.tsx:92 | the identifier is the email when it is given, and the phone otherwise |
| Login.GoogleLoginPathMatchesTable | client/src/pages/login.tsx:57 | the path the Google callback writes out equals the table's Google login path |
| Login.SignInAuthenticates | client/src/pages/login.tsx:66-108 | storing a truthy, non-array token leaves the session authenticated, and no other key changes |
| Js.TruthyPrintsNonEmpty | client/src/pages/login.tsx:108 | `setItem` stores a truthy non-array token as non-empty text; an empty array would be stored as "" |
| Login.LoginPage.constructor | client/src/pages/login.tsx:29-32 | an empty form, not loading |
| Login.LoginPage.BeginLogin | client/src/pages/login.tsx:87-101 | a missing identifier or password fails before any request, with the failure toast and loading off; otherwise the identifier and password are posted |
| Login.LoginPage.FinishLogin | client/src/pages/login.tsx:103-125 | a truthy token is stored and the user goes to /dashboard. Every failure, a missing token included, stores nothing and shows "Invalid credentials". Loading ends in every case. |
| Login.FinishSignIn | client/src/pages/login.tsx:61-81 | the tail shared by both sign-ins: store the token, toast and go to /dashboard, or show the failure toast only |
| Login.BeginGoogleCallback | client/src/pages/login.tsx:49-59 | a response without a truthy credential fails before any request; otherwise the credential is posted as `token` |
| Login.FinishGoogleCallback | client/src/pages/login.tsx:61-81 | a successful Google sign-in stores the token and goes to /dashboard; any failure shows "Google login failed" |
| Dashboard.LoadResultOf | client/src/pages/dashboard.tsx:55-80 | a reply is shown iff the request succeeded. An error mentioning "401" or "403" means sign-out. Any other error is shown as its message, or "Failed to load dashboard" when that is empty, so it is never empty. |
| Dashboard.DashboardPage.constructor | client/src/pages/dashboard.tsx:40-42 | no data, loading, no error |
| Dashboard.DashboardPage.BeginLoad | client/src/pages/dashboard.tsx:44-60 | with no stored token the page goes to /login and makes no request; otherwise it requests the creator dashboard |
| Dashboard.DashboardPage.FinishLoad | client/src/pages/dashboard.tsx:61-80 | (corrected classification) the figures are kept. A sign-out removes the token and goes to /login without setting an error. Any other error is set. `loading` is false in every outcome, the early return included. |
| Dashboard.UnauthorizedOrForbiddenSignsOut | client/src/pages/dashboard.tsx:67-74 | (corrected classification) every 401 or 403 reply signs the user out |
| Dashboard.ShownErrorNamesStatus | client/src/pages/dashboard.tsx:76 | (corrected classification) an error shown for a failed reply names that reply's status |
| Dashboard.PrintsForbidden | client/src/pages/dashboard.tsx:69 | status 403 prints as "403" |
| Dashboard.NoDigitsNoMatch | client/src/pages/dashboard.tsx:67-70 | text without digits never contains "401" or "403" |
| Dashboard.ForbiddenNonJsonAsWrittenKeepsSession | client/src/pages/dashboard.tsx:67-76 | with the classification as written, a 403 with a non-JSON body shows "body stream already read" and keeps the token |
| Dashboard.Stats | client/src/pages/dashboard.tsx:119-124 | no data gives zero totals and an empty article list; loaded data is shown as it is |
| Dashboard.TopRowsOf | client/src/pages/dashboard.tsx:212-228 | the "No articles yet" row shows iff the list's length is 0; a non-empty array gives one row per article, in order |
| Dashboard.NothingLoadedShowsNoArticles | client/src/pages/dashboard.tsx:119-124 | with nothing loaded, the totals are zero and the single "No articles yet" row shows |
| Dashboard.LoadedArticlesShowRows | client/src/pages/dashboard.tsx:228 | a loaded non-empty article list shows exactly its articles |
| Profile.FormValueShowsValue | client/src/pages/profile.tsx:48-52 | a loaded field is never null in the form: a present value shows as it is, and a null or missing one as "" |
| Profile.SubmitValueSendsNullForEmpty | client/src/pages/profile.tsx:66-70 | submit sends a truthy value unchanged and "" (any falsy value) as null |
| Profile.UneditedFieldRoundTrip | client/src/pages/profile.tsx:48-52 | an unedited field is sent back as the loaded value when that was truthy, and as null otherwise (a loaded "" comes back as null) |
| Profile.UneditedFormRoundTrip | client/src/pages/profile.tsx:48-71 | the update body has exactly the five fields, each the loaded value or null |
| Profile.ProfilePage.constructor | client/src/pages/profile.tsx:29-36 | loading, not saving, no user, all five fields "" |
| Profile.ProfilePage.BeginLoad | client/src/pages/profile.tsx:38-46 | a signed-out visitor goes to /login with no request; otherwise the current user is requested |
| Profile.ProfilePage.FinishLoad | client/src/pages/profile.tsx:46-57 | on success the user is set and the form filled with null as "". A failure, including a null body, goes to /login. Loading ends in every case. |
| Profile.ProfilePage.BeginSubmit | client/src/pages/profile.tsx:61-71 | saving starts and the form is sent with empty fields as null |
| Profile.ProfilePage.FinishSubmit | client/src/pages/profile.tsx:72-84 | (corrected classification) one toast reports the outcome, a failure's description being the error message; saving ends after both outcomes; only a 401 changes storage or the location |
| Profile.UpdateFailureNamesStatus | client/src/pages/profile.tsx:76-81 | (corrected classification) the failure toast of a failed update names the reply's status |
| Admin.AdminRedirectCases | client/src/pages/admin.tsx:11-21 | /login iff signed out; /dashboard iff signed in without the admin role; no redirect iff signed in as an admin, which is exactly when the content renders |
| Admin.RenderIgnoresToken | client/src/pages/admin.tsx:11-21 | the render test looks only at the role, so with no token but a stored admin user the content renders while the effect redirects to /login |
| Admin.Guard | client/src/pages/admin.tsx:11-19 | the effect navigates at most once, to the target the guard picks |
| Layout.NavItems | client/src/components/layout.tsx:24-33 | the five fixed items come first, in order; an Admin item is appended last iff the user is signed in with role "admin" |
| Layout.NavTargetsDistinct | client/src/components/layout.tsx:24-33 | all nav targets are distinct, so they are valid keys |
| Layout.DisplayName | client/src/components/layout.tsx:70 | the display name is always truthy |
| Layout.DisplayNameChoice | client/src/components/layout.tsx:70 | the full name if truthy, else the username if truthy, else "User" |
| Layout.MobileRoleDefaultsToReader | client/src/components/layout.tsx:71-73 | the mobile menu shows the role when it is set and "reader" otherwise, and agrees with the badge whenever the badge shows |
| Layout.ThemeLabelNamesOtherTheme | client/src/components/layout.tsx:64 | "Light mode" is offered exactly in the dark theme, and "Dark mode" in any other |
| Layout.LogOut | client/src/components/layout.tsx:12-16 | "token" and "user" are removed and the browser goes to "/" |
| Layout.LoggedOutHasNoSession | client/src/components/layout.tsx:12-15 | after logging out there is no session and no stored user, and every other item is kept |

## Left out

- Network I/O is not modelled. `fetch` is a log of the requests sent, and a reply is an input. A rejected `fetch` (a network error) is not modelled. Neither is the order in which concurrent replies arrive; each handler is run to its end on one reply.
- React rendering and state batching are not modelled. State is the fields of one object per component. The skeleton, error and markup branches of the pages are not modelled, except the dashboard's article-table choice and the admin page's render test.
- Console output is not modelled. `Logger.Log` gives the line that would be written. The pages' own log calls and the `logger.error` in `throwIfResNotOk` are not modelled, because they do not change any state.
- The `storage` event listener in `useAuth` is browser plumbing and is not modelled.
- Numbers are integers. `toFixed`, `toLocaleString` and floating-point figures on the dashboard are not modelled.
- Object key order is not modelled, because objects are maps. `JSON.stringify` is an abstract function; `RoundTrips` is the only fact assumed about it.
- Logger.CurrentLevel: the `in LEVELS` test also accepts the inherited keys that survive lower-casing, "constructor" and "__proto__". With either setting, the current rank `LEVELS[CURRENT_LEVEL]` is a function or an object, so every `shouldLog` comparison is against NaN and is false, and the logger writes nothing. The model accepts only the four level names and falls back to info for those two settings.
- Js.ToLower lowers only A-Z. No other code point lowers to a string made only of the letters of a level name, so matching a level name is exact.
- `localStorage` quota errors are not modelled.
- FinishLoad (Dashboard.DashboardPage.FinishLoad): the engines' own error texts (the SyntaxError of `res.json()`, the TypeError of a consumed body or of a property read on null) are fixed placeholders without digits. The dashboard does show `e.message` and tests it for "401" and "403", so the model never signs out on such an error, even where a real engine's text would contain those digits.
- ThrowIfResNotOk (QueryClient.ThrowIfResNotOk): the pages are modelled on the corrected classification `Classify`, the intended half of the first finding. For a failing non-401 reply whose body is not JSON, the code as written throws "body stream already read" instead of "<status>: <statusText>". `ClassifyAsWritten` and `JsonResultDiffersOnlyOnNonJsonErrors` state that case and show it is the only difference.
- JsonResult (QueryClient.JsonResult): built on `Classify`, so for a non-JSON error body its message is "<status>: <statusText>", where the code as written gives "body stream already read" (`JsonResultAsWritten`).
- ReceiveJson (QueryClient.ReceiveJson): returns `JsonResult`, with the same corrected message for a non-JSON error body.
- FinishLoad (Dashboard.DashboardPage.FinishLoad): for a 403 with a non-JSON body the model signs out. The code as written keeps the token and shows "body stream already read" (`ForbiddenNonJsonAsWrittenKeepsSession`).
- ShownErrorNamesStatus (Dashboard.ShownErrorNamesStatus): holds for the corrected classification only. As written, a non-JSON error body shows a text that names no status.
- FinishSubmit (Profile.ProfilePage.FinishSubmit): for a non-JSON error body the model's failure toast reads "<status>: <statusText>". The code as written shows "body stream already read".
- UpdateFailureNamesStatus (Profile.UpdateFailureNamesStatus): holds for the corrected classification only, as for the dashboard.
- Dashboard.TopRowsOf: a missing article list is a thrown error, and what it does to the page (the render fails) is not modelled.
- The random diagram element id and the feedback timestamp are not modelled. The timestamp is a parameter.
- The diagram engine's drawing, its configuration object and the DOM container are not modelled.
- The "Copy diagram" button is not modelled. It only calls `onCopy`.
- The `code` string of a `pre` block is modelled only when the child is a plain string. The `String(...)` of rendered nodes is not modelled.
- The Google sign-in widget's loading, initialisation and prompt are foreign calls and are not modelled.
- Profile.ProfilePage.FinishSubmit: the description's `?? "Could not update profile."` default never applies, because a thrown error's message is always a string.
- Login.LoginPage.BeginLogin: `setIsLoading(true)` followed by `setIsLoading(false)` is modelled as its batched result, with loading off.
- The editor's toolbar buttons have no handlers and are not modelled. Neither are undo/redo, selection-scoped formatting and autosave, which are absent from the source.
- The static pages, the route table, the query-client options and the article and blog-list pages are not modelled. The latter only fetch and display data.

## Findings

| source | as written | input that shows it | evidently intended | confidence | as-written member | corrected member |
|---|---|---|---|---|---|---|
| client/src/lib/queryClient.ts:26-31 | a failed `res.json()` consumes the body, so `res.text()` in the catch rejects with a TypeError | a 502 reply whose body is an HTML error page | the error "502: Bad Gateway" (status and status text); the dashboard's 401/403 test relies on the status being in the message | not executed | QueryClient.ClassifyAsWritten (QueryClient.NonJsonErrorBodyLosesStatus, Dashboard.ForbiddenNonJsonAsWrittenKeepsSession) | QueryClient.Classify (QueryClient.ClassifyReportsStatus, QueryClient.JsonResultDiffersOnlyOnNonJsonErrors, Dashboard.UnauthorizedOrForbiddenSignsOut) |
| client/src/components/MarkdownRenderer.tsx:35-61 | each diagram block tests `window.mermaid` and then awaits its own import, so blocks that mount in one commit all import and initialise the engine | an article with two mermaid fences | the engine is imported and initialised once per page | not executed | MarkdownRenderer.TwoDiagramsInOneCommitAsWritten | MarkdownRenderer.TwoDiagramsInOneCommit |
