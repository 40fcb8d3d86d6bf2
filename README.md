# SkinCoach / FreshSkinCoach — a Dafny model of the core rules

SkinCoach is a skin-analysis service. A mobile app uploads a face photo. A
FastAPI server sends it to an object detector, stores one "session" per
analysis with a score per skin condition, and asks a language model for an
interpretation and three service suggestions. Users can be free (three
analyses) or premium (unlimited, via in-app purchase). Administrators can see
every analysis and switch users' premium flag.

This project models the rules beneath the screens and the HTTP plumbing, in
four parts:

1. **Client session and entitlement controller** (`fresh_auth_context.dfy`,
   `skincoach_auth_context.dfy`). Classes over `(token, user)` record every
   request and storage write in an event trace. Server answers are inputs.
   The quota gate, the endpoint routing, token-before-`/auth/me` and the
   idempotent sign-out are stated over that trace.
2. **Purchase bridge** (`iap_hook.dfy`, `subscription_screen.dfy`). The store
   library's answers are inputs. The loops that finish unacknowledged
   transactions, return the restored history and subscribe receipt by receipt
   are `while` loops with invariants against specification functions.
3. **Pure derivations**:
   - `stats_screen.dfy`: top three, bar order, segments, widths, trend arrows;
   - `dashboard_screen.dfy`: sorted score chart and suggestion split;
   - `history_screen.dfy` and `all_users_screen.dfy`: list edits;
   - `interpret_service.dfy`: the prompt, and parsing the model's answer;
   - `skin_analyzer.dfy`: the score map and the annotations;
   - `storage.dfy`: upload file names, paths and URL;
   - `labels.dfy`: label translation.
4. **Server tables and access rules**. `db.dfy` holds the `users` and
   `sessions` tables as sequences of rows in a `Database` class, with the
   validity invariant (ids below the next sequence value, unique ids and
   e-mails). `session_crud.dfy` and `user_crud.dfy` model the queries:
   - filter, newest first, offset and limit;
   - the cascade delete;
   - per-label counts.

   `auth_router.dfy`, `dependencies.dfy` and `skin_router.dfy` model the
   routes and their guards as `Result` values carrying the HTTP status and
   detail (400, 401, 403, 404, 422, 503).

Shared helpers:
- `wrappers.dfy`: `Option`, `Result`, `Outcome`.
- `text.dfy`: Python and JavaScript string operations — strip/trim, `find`,
  `split`, `replace`, `lower`, `rsplit` on the last separator.
- `ordering.dfy`: a stable sort (JavaScript `sort` and SQL `ORDER BY`), with
  `filter`, `map`, `findIndex` and `OFFSET`/`LIMIT`.
- `analysis.dfy`: score entries, annotations and statistics records.
- `client_api.dfy`: the app's requests, replies and trace events.

Where the code and its documentation differ, the model follows the code:
- The restore loop lets a failing `finishTransactionAsync` abort the restore.
- `translateLabel` treats an empty translation as missing.
- An empty bar list gives `segments = -Infinity`, not 1.
- `list_users` reports every user as non-premium.

## Model

| member | source | states |
|---|---|---|
| FreshAuthContext.AnalyzeRequest | FreshSkinCoach/src/context/AuthContext.tsx:82-89 | a premium user posts to `/skin/analyze-premium`, any other to `/skin/analyze`, with the form unchanged |
| FreshAuthContext.AuthProvider.constructor | FreshSkinCoach/src/context/AuthContext.tsx:27-28 | the provider starts with no user and an empty trace, whatever token is stored |
| FreshAuthContext.AuthProvider.SignIn | FreshSkinCoach/src/context/AuthContext.tsx:30-56 | posts the form-encoded credentials, stores the token before `/auth/me`, sets the user to exactly the `/auth/me` body; any failure is re-thrown with the user unchanged, and a failed `/auth/me` leaves the token stored |
| FreshAuthContext.AuthProvider.SignOut | FreshSkinCoach/src/context/AuthContext.tsx:58-61 | removes the token and the user; a second call leaves the same state |
| FreshAuthContext.AuthProvider.AnalyzeSkin | FreshSkinCoach/src/context/AuthContext.tsx:66-91 | no user: error before any request; a non-premium user asks for `limit = 4` and, with 3 or more sessions, gets the quota error and no analyze POST; under the quota it posts to `/skin/analyze`; a premium user skips the history and posts to `/skin/analyze-premium`; the response body is returned unchanged |
| FreshAuthContext.AuthProvider.Subscribe | FreshSkinCoach/src/context/AuthContext.tsx:97-111 | needs a user; always posts `DEV_RECEIPT` / `apple` whatever the arguments, then replaces the user with a fresh `/auth/me` body |
| FreshAuthContext.TokenStoredBeforeMe | FreshSkinCoach/src/context/AuthContext.tsx:37-44 | in a sign-in trace the token write precedes the `/auth/me` request |
| SkinCoachAuthContext.AuthProvider.constructor | SkinCoach/src/context/AuthContext.tsx:22-23 | the provider starts with no user and an empty trace |
| SkinCoachAuthContext.AuthProvider.SignIn | SkinCoach/src/context/AuthContext.tsx:25-52 | posts `username = email`, `password = password` form-encoded, stores the token before `/subscription/status`, and the user becomes that body; errors are re-thrown with the user unchanged and the token left stored |
| SkinCoachAuthContext.AuthProvider.SignOut | SkinCoach/src/context/AuthContext.tsx:54-57 | clears token and user; idempotent |
| IapHook.FinishCalls | FreshSkinCoach/src/hooks/useIAP.ts:78-81 | only unacknowledged entries are finished, at most one call per entry |
| IapHook.FinishedExactlyOnce | FreshSkinCoach/src/hooks/useIAP.ts:78-81 | each unacknowledged purchase is finished exactly as many times as it occurs, and an acknowledged one never |
| IapHook.FinishCallsAppend | FreshSkinCoach/src/hooks/useIAP.ts:43-49 | the finish calls of two lists concatenate |
| IapHook.LoadProducts | FreshSkinCoach/src/hooks/useIAP.ts:16-28 | a connect failure, a thrown call or a non-OK code gives that error message; an OK answer gives exactly its products, or none when results are missing, and only an OK answer gives products |
| IapHook.PurchaseHook.constructor | FreshSkinCoach/src/hooks/useIAP.ts:6-11 | no products, loading, no error, mounted |
| IapHook.PurchaseHook.Init | FreshSkinCoach/src/hooks/useIAP.ts:13-31 | while mounted: a non-OK product code sets the error and leaves products empty, and loading ends false on every path; once unmounted nothing changes |
| IapHook.PurchaseHook.Unmount | FreshSkinCoach/src/hooks/useIAP.ts:54-57 | clears the mounted flag and disconnects |
| IapHook.PurchaseHook.OnPurchase | FreshSkinCoach/src/hooks/useIAP.ts:37-51 | an ERROR response sets the error with the code and finishes nothing; otherwise every unacknowledged result is finished in order and failures are swallowed |
| IapHook.PurchaseHook.Buy | FreshSkinCoach/src/hooks/useIAP.ts:61-65 | clears the error before starting the purchase |
| IapHook.PurchaseHook.RestorePurchases | FreshSkinCoach/src/hooks/useIAP.ts:68-86 | clears the error; a non-OK history code throws "restore failed" before any finish; otherwise finishes the unacknowledged entries in order and returns every entry (none when results are missing) |
| IapHook.FinishAll | FreshSkinCoach/src/hooks/useIAP.ts:77-83 | with no failing finish, the loop makes exactly the finish calls owed and returns every entry; otherwise it stops at the first failing finish and throws its error, having made the calls owed up to that entry |
| IapHook.RestoreReturnsAll | FreshSkinCoach/src/hooks/useIAP.ts:77-85 | when every finish succeeds no entry stops the loop, so `FinishAll` returns the whole history in store order |
| SubscriptionScreen.PlatformFor | FreshSkinCoach/src/screens/SubscriptionScreen.tsx:70 | `google` exactly when the product id starts with `com.android`, else `apple` |
| SubscriptionScreen.Render | FreshSkinCoach/src/screens/SubscriptionScreen.tsx:34-59 | loading first, then a non-empty error, then "no offer" for no products, then the first product's offer |
| SubscriptionScreen.FindPurchase | FreshSkinCoach/src/screens/SubscriptionScreen.tsx:65-67 | the first history entry with the product id, none when the history is missing or has none |
| SubscriptionScreen.ErrorAlert | FreshSkinCoach/src/screens/SubscriptionScreen.tsx:74 | the error's message, or the fallback when the message is empty |
| SubscriptionScreen.SubscribeCalls | FreshSkinCoach/src/screens/SubscriptionScreen.tsx:87-92 | one subscribe call per receipt, in order, with its platform tag |
| SubscriptionScreen.SubscribeEach | FreshSkinCoach/src/screens/SubscriptionScreen.tsx:87-92 | the loop sends the calls for the receipts up to and including the first rejected one, and stops there |
| SubscriptionScreen.Screen.constructor | FreshSkinCoach/src/screens/SubscriptionScreen.tsx:32 | not loading, no calls, no alert |
| SubscriptionScreen.Screen.OnSubscribe | FreshSkinCoach/src/screens/SubscriptionScreen.tsx:61-78 | buys, then reads the history; no matching entry alerts "Achat non retrouvé" and never subscribes; else subscribes with the entry's receipt and platform; loading ends false either way |
| SubscriptionScreen.Screen.OnRestore | FreshSkinCoach/src/screens/SubscriptionScreen.tsx:80-100 | zero receipts subscribe zero times; otherwise one subscribe per receipt in order, stopping at the first failure; loading ends false either way |
| SubscriptionScreen.RestoreSubscribesAll | FreshSkinCoach/src/screens/SubscriptionScreen.tsx:87-93 | when every receipt is accepted none stops the loop, so `SubscribeEach` subscribes every receipt once, in order |
| HistoryScreen.WithoutSession | FreshSkinCoach/src/screens/HistoryScreen.tsx:60 | removes exactly the sessions with that id and keeps every other one; the length drops by their number |
| HistoryScreen.ComplementCount | FreshSkinCoach/src/screens/HistoryScreen.tsx:60 | the kept and the removed sessions together account for the whole list |
| HistoryScreen.WithoutAbsentSession | FreshSkinCoach/src/screens/HistoryScreen.tsx:60 | deleting an id no session carries changes nothing |
| HistoryScreen.WithoutSessionKeepsOrder | FreshSkinCoach/src/screens/HistoryScreen.tsx:60 | deleting distributes over the parts of the list, so the kept sessions keep their order |
| HistoryScreen.KeyScores | FreshSkinCoach/src/screens/HistoryScreen.tsx:72-74 | exactly the entries with a value above zero |
| HistoryScreen.KeyScoresKeepsOrder | FreshSkinCoach/src/screens/HistoryScreen.tsx:72-74 | the kept scores keep their original order |
| HistoryScreen.Screen.constructor | FreshSkinCoach/src/screens/HistoryScreen.tsx:38 | an empty list and an empty trace |
| HistoryScreen.Screen.Load | FreshSkinCoach/src/screens/HistoryScreen.tsx:41-46 | the fetched list replaces the current one wholesale |
| HistoryScreen.Screen.HandleDelete | FreshSkinCoach/src/screens/HistoryScreen.tsx:48-68 | nothing is sent unless "Oui" is picked; a success removes that id; a failure leaves the list and alerts |
| AllUsersScreen.SetPremium | FreshSkinCoach/src/screens/AllUsersScreen.tsx:41-45 | users with that id get the new flag; every other field, every other user and the order are unchanged |
| AllUsersScreen.SetPremiumIdempotent | FreshSkinCoach/src/screens/AllUsersScreen.tsx:41-45 | applying the same toggle twice equals applying it once |
| AllUsersScreen.Screen.constructor | FreshSkinCoach/src/screens/AllUsersScreen.tsx:22-23 | no users, loading |
| AllUsersScreen.Screen.FetchUsers | FreshSkinCoach/src/screens/AllUsersScreen.tsx:25-34 | replaces the list on success; loading is false afterwards either way |
| AllUsersScreen.Screen.TogglePremium | FreshSkinCoach/src/screens/AllUsersScreen.tsx:36-49 | posts `make_premium = value` for the user; success applies `SetPremium`; failure leaves the list |
| Labels.Translate | FreshSkinCoach/src/i18n/labels.ts:3-6 | the French label when present and non-empty, else the key itself |
| Labels.ChartLabel | SkinCoach/src/screens/StatsScreen.tsx:102-104 | the translated label with every space replaced by a newline, same length, no space left |
| StatsScreen.DescendingOrders | SkinCoach/src/screens/StatsScreen.tsx:61 | descending percent and descending count are total preorders |
| StatsScreen.Top3IsTop | SkinCoach/src/screens/StatsScreen.tsx:58-63 | `top3` has min(3, n) items, all from `by_label`, sorted by descending percent, and no left-out label has a higher percent |
| StatsScreen.BarOrderProperties | SkinCoach/src/screens/StatsScreen.tsx:96-99 | a permutation of `by_label`: non-zero counts first by descending count, then the zero counts in their original order |
| StatsScreen.BarChart | SkinCoach/src/screens/StatsScreen.tsx:102-106 | labels and counts follow the bar order one to one, each label a chart label |
| StatsScreen.MaxCount | SkinCoach/src/screens/StatsScreen.tsx:107 | the largest count, and it is one of the counts |
| StatsScreen.BarSegments | SkinCoach/src/screens/StatsScreen.tsx:107 | `ceil(max/10)` when the maximum is positive, 1 when every count is 0, -Infinity when there are no bars |
| StatsScreen.ChartWidth | SkinCoach/src/screens/StatsScreen.tsx:26-27 | the larger of the base width and `labels × 75 + 40` |
| StatsScreen.Deltas | SkinCoach/src/screens/StatsScreen.tsx:66-76 | no trend or an empty trend gives no deltas; otherwise one delta per label of the first point, equal to its last average (0 when missing) minus its first, in percent |
| StatsScreen.Arrow | SkinCoach/src/screens/StatsScreen.tsx:121-122 | up iff the delta is positive, down iff negative, none iff zero or absent |
| StatsScreen.NoTrendNoArrow | SkinCoach/src/screens/StatsScreen.tsx:67-69 | without a trend no label gets an arrow |
| StatsScreen.TrendArrow | SkinCoach/src/screens/StatsScreen.tsx:66-76 | over a non-empty trend a label's arrow is up iff its last average is above its first, down iff below; a label absent from the first point gets none |
| DashboardScreen.EntriesSortedPermutation | FreshSkinCoach/src/screens/DashboardScreen.tsx:51-53 | the entries are the scores ×100, one per key, sorted by descending value |
| DashboardScreen.Round | FreshSkinCoach/src/screens/DashboardScreen.tsx:59 | `Math.round`: the nearest integer, halves rounded up |
| DashboardScreen.ScoreChart | FreshSkinCoach/src/screens/DashboardScreen.tsx:56-61 | labels and data have the entries' length and order, each label a chart label; the width is `entries × 60 + 40` |
| DashboardScreen.SplitSuggestion | FreshSkinCoach/src/screens/DashboardScreen.tsx:160-165 | the title is the trimmed text before the first colon, the detail the trimmed rest; no colon gives an empty detail |
| DashboardScreen.SplitSuggestionInverse | FreshSkinCoach/src/screens/DashboardScreen.tsx:160-165 | splitting `title:detail` with a colon-free title gives back the trimmed title and detail |
| DashboardScreen.Dashboard.constructor | FreshSkinCoach/src/screens/DashboardScreen.tsx:45-48 | empty interpretation and suggestions, loading |
| DashboardScreen.Dashboard.LoadInterpretation | FreshSkinCoach/src/screens/DashboardScreen.tsx:63-77 | posts the scores to `/interpret/`; success sets the interpretation and suggestions; loading ends false whatever the outcome |
| DashboardScreen.Dashboard.Rows | FreshSkinCoach/src/screens/DashboardScreen.tsx:159-167 | one recommendation row per suggestion, in order |
| InterpretService.PromptLines | app/services/interpret_service.py:18-29 | three header lines, one `- cls : p%` line per score in order, a blank line and two instruction lines |
| InterpretService.BuildPrompt | app/services/interpret_service.py:18-30 | the loop's prompt is the prompt lines joined with newlines |
| InterpretService.CleanLine | app/services/interpret_service.py:48 | the cleaned line carries no surrounding whitespace |
| InterpretService.ListItemCleans | app/services/interpret_service.py:48 | a bullet or number prefix is removed and the item's text is kept |
| InterpretService.SuggestionsOf | app/services/interpret_service.py:47-50 | the non-empty cleaned lines, at most one per line, each stripped |
| InterpretService.InterpretationOf | app/services/interpret_service.py:41-44 | the stripped text before the first `Suggestions:` (all of it without a marker), with every `Interprétation:` removed, stripped |
| InterpretService.SuggestionSection | app/services/interpret_service.py:43-47 | absent iff there is no `Suggestions:` marker; otherwise the text after the first marker up to the second one or to the end |
| InterpretService.ParseAnswer | app/services/interpret_service.py:41-52 | the interpretation, and no suggestions without a marker, else the suggestions of the section's lines |
| InterpretService.CollectSuggestions | app/services/interpret_service.py:45-50 | the loop appends exactly `SuggestionsOf` the lines |
| InterpretService.SuggestionsStep | app/services/interpret_service.py:47-50 | one more line adds its cleaned text after the earlier suggestions exactly when that text is not empty |
| Text.Trim | app/services/interpret_service.py:48 | `str.strip()`: the result has no stripped character at either end, and an already stripped text is unchanged |
| Text.TrimAround | app/services/interpret_service.py:48 | stripping a text surrounded by strippable characters gives back exactly that text |
| Text.SplitOnJoin | app/services/interpret_service.py:43 | `str.split` followed by joining with the separator gives back the text |
| Text.SplitOnSecond | app/services/interpret_service.py:43 | the second piece of `str.split` is the text after the first separator, up to the next one or to the end |
| SkinAnalyzer.ClassesDistinct | app/services/skin_analyzer.py:22-32 | the nine class names are distinct |
| SkinAnalyzer.LastOfClass | app/services/skin_analyzer.py:48-51 | the last prediction of a class, none when the class has none |
| SkinAnalyzer.ScoreFor | app/services/skin_analyzer.py:47-51 | 0.0 when no prediction has the class, else a confidence of that class |
| SkinAnalyzer.BuildScores | app/services/skin_analyzer.py:47-51 | one entry per class in order; each takes the confidence of the class's last prediction, or 0.0 |
| SkinAnalyzer.ScoresStep | app/services/skin_analyzer.py:48-51 | one pass of the loop keeps the scores equal to `ScoreFor` of the predictions seen |
| SkinAnalyzer.ScoreForStep | app/services/skin_analyzer.py:49-51 | a new prediction overrides its class's score and leaves the others |
| SkinAnalyzer.ScoreKeys | app/services/skin_analyzer.py:47-51 | the score keys are exactly the nine classes; unknown classes add none |
| SkinAnalyzer.NormalizeInverse | app/services/skin_analyzer.py:57-63 | the normalised box times the image size gives back the pixel box, and the label is the class |
| SkinAnalyzer.BuildAnnotations | app/services/skin_analyzer.py:54-64 | one annotation per prediction in order, unknown classes included |
| SkinAnalyzer.AnalyzeImage | app/services/skin_analyzer.py:34-93 | an unreadable image fails before inference; an inference failure propagates; otherwise scores, annotations and the annotated path under the image directory |
| Storage.Extension | app/services/storage.py:20 | the lower-cased text after the last dot, the whole name when there is none; it holds no dot |
| Storage.PathJoin | app/services/storage.py:34 | `os.path.join`: an absolute name replaces the directory; otherwise one slash separates them, added only when the directory is non-empty and does not already end in one |
| Storage.PlanSave | app/services/storage.py:20-35 | HEIC/HEIF become `<base>.jpg` with conversion, others `<base>.<ext>`; the temp path is the final path plus `.heic` iff converting; the URL is prefix/filename |
| Storage.LowerAsciiIdempotent | app/services/storage.py:20 | lower-casing an extension twice is lower-casing it once |
| Storage.ExtensionOfDotted | app/services/storage.py:20 | the extension of `stem.ext` is `ext` lower-cased |
| Storage.StoredExtension | app/services/storage.py:24-30 | the stored file's own extension is `jpg` after conversion, else the upload's extension |
| Storage.JpgExtension | app/services/storage.py:24-27 | a converted file named `<base>.jpg` has extension `jpg` |
| Storage.KeptExtension | app/services/storage.py:28-30 | a file named `<base>.<ext>` with the upload's extension has that extension again |
| Storage.BasenameOfJoin | app/services/storage.py:34 | the base name of a joined path is the slash-free file name |
| SessionCrud.NewerFirstIsTotal | app/crud/session.py:46 | newest-first is a total preorder |
| SessionCrud.CreateSession | app/crud/session.py:16-35 | appends exactly one row with the given fields, the next id and the clock's time; the users are unchanged |
| SessionCrud.OwnSessions | app/crud/session.py:45 | exactly the rows of that user |
| SessionCrud.SessionsForUser | app/crud/session.py:37-50 | the user's own rows only, newest first; exactly `min(limit, own - skip)` of them, none when `skip` passes the end |
| SessionCrud.HistoryPagesConcatenate | app/crud/session.py:46-48 | consecutive pages concatenate into the page spanning both |
| SessionCrud.HistoryComplete | app/crud/session.py:37-50 | a first page as large as the user's history holds all of it |
| SessionCrud.SessionById | app/crud/session.py:58-65 | the row with that id, or none when no row has it |
| SessionCrud.DeleteSession | app/crud/session.py:52-56 | removes exactly the rows with that id; the users are unchanged |
| SessionCrud.DeleteThenLookup | app/crud/session.py:52-65 | after the delete the id is gone and every other id is found as before |
| SessionCrud.AllSessions | app/crud/session.py:67-76 | every row, newest first |
| SessionCrud.LabelCount | app/crud/session.py:104-118 | the user's sessions whose score for the label is above 0; at most the user's total |
| SessionCrud.Percent | app/crud/session.py:119 | 0.0 for no sessions, else between 0 and 100 |
| SessionCrud.GetStats | app/crud/session.py:90-129 | the total is the user's session count; one entry per label in `LABELS` order with its count and percent |
| UserCrud.UserByEmail | app/crud/user.py:12-31 | the stored user with that e-mail, none when absent |
| UserCrud.UserById | app/crud/user.py:34-53 | the stored user with that id, none when absent |
| UserCrud.ListUsers | app/crud/user.py:56-75 | skips `skip` users then keeps exactly `min(limit, users - skip)` of them in table order, each reported as non-premium |
| UserCrud.CreateUser | app/crud/user.py:78-99 | appends one non-admin user with the next id and no premium flag; a taken e-mail changes nothing |
| UserCrud.LexTotal | app/crud/user.py:102 | the e-mail order is total |
| UserCrud.LexTransitive | app/crud/user.py:102 | the e-mail order is transitive |
| UserCrud.ByEmailIsTotalPreorder | app/crud/user.py:102 | ordering by e-mail is a total preorder |
| UserCrud.AllUsers | app/crud/user.py:101-103 | every user, ordered by e-mail |
| UserCrud.UpdateIsPremium | app/crud/user.py:105-118 | sets the premium flag of the rows with that id; every other field and row is unchanged |
| UserCrud.UpdateThenRead | app/crud/user.py:105-118 | after the update the user reads back the new flag and other users read as before |
| UserCrud.UpdateKeepsOther | app/crud/user.py:105-118 | the update filters on the id, so any other id reads back the same row, or none, as before |
| UserCrud.DeleteUser | app/crud/user.py:120-134 | removes the user's sessions, then the user; other users and sessions are untouched |
| UserCrud.CascadeKeepsOthers | app/crud/user.py:120-134 | the cascade keeps every other user's rows in order |
| Db.FilterKeepsSessionsValid | app/crud/session.py:52-56 | deleting rows keeps the session table valid |
| Db.FilterKeepsUsersValid | app/crud/user.py:131-133 | deleting rows keeps the user table valid |
| Db.Database.constructor | app/db/models.py:14-34 | empty tables whose id sequences start at 1 |
| AuthRouter.CurrentUser | app/routers/auth.py:33-62 | no token is 401; a token that fails to decode or has no subject is 401 "Token invalide"; an unknown subject is 404; otherwise that user's public record |
| AuthRouter.AdminRequired | app/routers/auth.py:64-67 | the current user's errors first; then 403 unless the user is an administrator |
| AuthRouter.Login | app/routers/auth.py:102-122 | the same 401 for an unknown e-mail and a wrong password; on success the token's subject is the e-mail |
| AuthRouter.LoginThenCurrentUser | app/routers/auth.py:57-62 | the token issued at login resolves to the user who logged in |
| AuthRouter.Signup | app/routers/auth.py:76-94 | 400 "Email déjà utilisé" when the e-mail exists, with nothing changed; otherwise one new non-admin user |
| AuthRouter.SignupThenLogin | app/routers/auth.py:86-122 | a freshly signed-up user can log in with the same password |
| AuthRouter.LookupAppended | app/crud/user.py:19-22 | a new e-mail appended to the table is found by lookup |
| AuthRouter.DeleteCurrentUser | app/routers/auth.py:144-153 | the current user's errors, else the cascade delete of that user and 204 |
| Dependencies.SubscriptionRequired | app/routers/dependencies.py:6-14 | the current user's 401/404 first; a premium user passes unchanged; a missing or false flag is 403 "Accès réservé aux utilisateurs Premium" |
| SkinRouter.Analyze | app/routers/skin.py:24-122 | the login or subscription guard first; a non-image content type is 400 before saving; an analysis failure is 503 with no session; a success records exactly one session of the caller, holding one score per class from the detector's last prediction of it and one normalised annotation per prediction, and the response mirrors it |
| SkinRouter.AnnotatedUrl | app/routers/skin.py:49-50 | the annotated URL is the image prefix and the annotated file's name |
| SkinRouter.History | app/routers/skin.py:141-159 | login first; `skip ≥ 0` and `1 ≤ limit ≤ 100` (default 20) or 422 naming the bad parameters; then the `skip`/`limit` window of the caller's own sessions, newest first, of exactly `min(limit, own - skip)` rows |
| SkinRouter.DefaultHistoryComplete | app/routers/skin.py:149-154 | with the default limit a user with at most 20 analyses sees them all |
| SkinRouter.QuotaProbe | FreshSkinCoach/src/context/AuthContext.tsx:70-78 | asking the history for one more than the quota and comparing its length with the quota decides exactly whether the caller has that many analyses |
| SkinRouter.DeleteHistoryItem | app/routers/skin.py:161-178 | login first; an id below 1 is 422; a missing or foreign session is 404; otherwise exactly that session is deleted (204) |
| SkinRouter.Stats | app/routers/skin.py:180-191 | login first; then the caller's statistics |
| SkinRouter.AdminHistory | app/routers/skin.py:124-139 | only an administrator gets every session, newest first |
| SkinRouter.TrendPeriod | app/routers/skin.py:193-201 | login first; `period` defaults to month and must be `month` or `week`, else 422 |

## Left out

- I/O and foreign services are inputs: HTTP transport, AsyncStorage, the in-app purchase library, the Roboflow detector, OpenAI, file writes, HEIC conversion, cv2 drawing and the clock.
- JWT signing and decoding and password hashing are not part of this model. They are parameters (`decode`, `verify`, `hash`).
- Floating point: scores are exact reals. Only their order and sign matter.
- InterpretService.ScoreLine: the `{val*100:.0f}` format is a parameter, `percent`.
- SessionCrud.Percent: the exact quotient; rounding to one decimal (`round(…, 1)`) is not modelled.
- DashboardScreen.ScoreChart: works on exact reals, not JavaScript doubles.
- SkinAnalyzer.NormalizeInverse: exact division, not floating point.
- Pydantic validation and schema drift are not modelled.
  - The ORM class `User` (app/db/models.py:14-22) has no `is_premium` column; only the migration adds it. As written, reading `user.is_premium` in `get_user_by_email` (app/crud/user.py:30) fails whenever a user is found: login and every authenticated route for an existing user, and sign-up only with a taken address (a new address returns None at lines 23-24 before the flag is read, and `create_user` never reads it). The model gives the row the column the migration creates.
  - `UserInDB` declares no `is_premium`, although `get_current_user` reads it.
  - `UserPublic.is_premium` is a non-optional `bool`, although a new user's column is NULL.
  - The model carries the flag as `Option<bool>` from the row to the guards, as a modelling choice: a NULL flag counts as "not premium" in `subscription_required`, whereas the code as written would fail validation before any guard runs.
- The 422 body is FastAPI's list of errors. The model keeps only the names of the failing parameters.
- A query parameter that is not an integer (also a 422) is not modelled: `skip`, `limit` and `session_id` are integers.
- SkinRouter.TrendPeriod: the regular expression `^(month|week)$` is modelled as exact equality. The trend computation itself (`get_trend`: `to_char` grouping and averages) is not modelled.
- SessionCrud.SessionsForUser, SessionCrud.AllSessions: the order among sessions with equal timestamps is not fixed by SQL. The model keeps table order.
- Referential integrity of `sessions.user_id` (a foreign key to `users.id`) is not part of `Database.Valid`: `SessionCrud.CreateSession` accepts any user id. The routes only pass the id of the authenticated caller, and `UserCrud.DeleteUser` removes a user's sessions first.
- UserCrud.AllUsers: the e-mail order is code-point order, not the database collation.
- Unicode `lower()` and whitespace beyond ASCII:
  - Storage.Extension lower-cases only ASCII letters.
  - Stripping uses Python's and JavaScript's whitespace sets, over characters.
- Storage.PlanSave: an upload with no file name (`None`) is not modelled.
- A failing `save_image` (a 500) is not modelled.
- InterpretService.BuildPrompt: the prompt is proved equal to the joined lines. That splitting it at newlines gives back the lines is not proved.
- Concurrency: React effects, the race between the quota check and the analyze POST, and interleaved purchase events are not modelled. Each operation runs to completion.
- Screens, layout, navigation, the camera flow, the axios 401 interceptor (an empty TODO) and the stub routers (subscription, admin, interpret, receipt verifier) are not part of this model.
- The server side of `/subscription/validate` does not appear in the routers shown, so it is not modelled.
