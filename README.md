# Aegis reporter — offline-first sync, modelled in Dafny

Aegis reporter is a progressive web app for field responders. A responder
records an incident report on the device. The report is stored locally and
synced to a backend when the device is online. Reports that cannot be sent
wait in one of two queues, each replayed by its own side:

- The page keeps a durable request queue in IndexedDB (`lib/sync-queue.ts`).
  Only the page replays it, with `processQueue`.
- The service worker keeps Workbox's background-sync queue. It holds the
  `POST /api/sync-reports` requests that failed on the network while passing
  through the worker's sync route. Its `onSync` loop and its `sync` event
  replay that queue. The worker never reads the page's queue.

This project models the parts of the app that decide what is stored, sent,
retried and dropped:

- the report store and its pending / synced / failed state machine
  (`Reports`, after `hooks/useReports.ts`);
- the durable request queue and its replay pass (`SyncQueue`, after
  `lib/sync-queue.ts`);
- the page-side background-sync controller (`BackgroundSync`, after
  `hooks/useBackgroundSync.ts`);
- the service worker's sync route, `sync` event and `onSync` replay loop
  (`ServiceWorker`, after `public/sw.js`);
- the server route `POST /api/sync-reports` (`SyncRoute`);
- the helpers these rely on:
  - the local database helpers (`Db`, after `lib/db.ts`);
  - the sync-latency display (`Latency`, after `data/MockReports.ts`);
  - photo validation (`ImageUtils`);
  - the responder sign-up form (`Registration`);
  - the client-side cookie lookup (`AuthUtils`);
  - the admin-route middleware (`Proxy`);
  - the request-locale choice (`I18n`);
  - the image carousel (`Carousel`).

Three shared modules carry the JavaScript semantics the code relies on:

- `Common` holds `Option` and `Result`.
- `JsText` holds `trim`, `split`, `includes`, `endsWith` and decimal
  rendering.
- `JsValues` holds JSON values, truthiness, property reads that throw on
  `null`/`undefined`, and what a `catch` sees.

Code that changes state step by step is modelled imperatively. The report
table, the request queue, the controller's state record, the local store,
the sign-up form and the carousel are classes whose methods say exactly how
their fields change. The service worker's queue is a class drained by a
`while` loop. The loops of `syncAllPending`, `processQueue` and `onSync` are
methods with invariants. Each is proved against a recursive specification
function, and the listed properties are proved about that function as
lemmas.

Foreign calls become inputs. These are the network (`fetch`, the simulated
90% success), the clock, random and UUID ids, geolocation, `localStorage`,
IndexedDB, `decodeURIComponent` and token verification. Each such outcome is
a parameter of the operation that meets it: an attempt outcome, a response
per queued request, a fresh id, a `now` stamp, or a decoding function.

## Model

| member | source | states |
|---|---|---|
| Db.DefaultSeverity | lib/db.ts:138-148 | landslide and fire are critical, flood and accident high, road block and power line down medium; never low |
| Db.LabelsAreDistinct | lib/db.ts:151-169 | every incident type and every severity has a non-empty label, different from the labels of the others; every severity has a colour |
| Db.StoredItem | lib/db.ts:76-78 | a stored value counts only when its key is present and the value is non-empty, as `getItem(k) \|\|` tests it |
| Db.Patched | lib/db.ts:121-129 | an update writes exactly the fields it carries, deletes an optional field carried as `undefined`, and refreshes `updatedAt`; `responderId` and `createdAt` never change |
| Db.LocalStore.GetDeviceInfo | lib/db.ts:75-88 | a stored device id is returned and nothing is written; otherwise the fresh id is stored and returned, so the next call returns the same id; the app version is always "1.0.0-prototype" |
| Db.LocalStore.GetCurrentResponder | lib/db.ts:91-98 | a profile comes back exactly when a non-empty id is stored and the table holds it, and it is the profile under that id |
| Db.LocalStore.GetResponderId | lib/db.ts:132-135 | never empty; "anonymous" without a current responder, else that responder's id |
| Db.LocalStore.SaveResponderProfile | lib/db.ts:101-118 | adds exactly one profile with `createdAt == updatedAt` and makes it the current responder; an id already in the table fails and changes nothing |
| Db.LocalStore.UpdateResponderProfile | lib/db.ts:121-129 | only that profile changes, to its patched form; an unknown id changes nothing |
| Reports.Attempted | hooks/useReports.ts:88-137 | one more attempt and a new `lastEditedAtLocal`, creation data kept; a delivery gives synced, a "srv-" server id, a sync time and no error; a timeout gives failed with the retry message and keeps the server id and sync time; record consistency is preserved |
| Reports.DeliveredTwice | hooks/useReports.ts:122-128 | two deliveries leave one synced record carrying the second response's server id and time, with two attempts counted |
| Reports.RunPassKeepsTable | hooks/useReports.ts:159-161 | a bulk pass never adds or removes reports and keeps every record consistent |
| Reports.RunPassThrows | hooks/useReports.ts:159-168 | a pass throws exactly when one of its attempts meets a store error |
| Reports.RunPassLeavesOthers | hooks/useReports.ts:159-161 | a report the pass does not visit is left exactly as it was |
| Reports.RunPassAttemptsEachOnce | hooks/useReports.ts:159-161 | in a pass over distinct ids that does not throw, each visited report ends as exactly one attempt applied to its old record |
| Reports.CountsPartition | hooks/useReports.ts:25-30 | pending + synced + failed counts equal the number of reports |
| Reports.ReportStore.CreateReport | hooks/useReports.ts:53-71 | adds exactly one record and leaves the others alone; the record is pending, never attempted, has no server id, sync time, error or sync location, has `createdAtLocal == lastEditedAtLocal`, and carries the draft and the device info; an existing id fails with no change; the device id is stored when none was, whether or not the insert succeeds, and the local storage is otherwise unchanged |
| Reports.ReportStore.SyncReport | hooks/useReports.ts:84-138 | an unknown id changes nothing; a known report becomes `Attempted` on that report only; a store error throws before anything changes |
| Reports.ReportStore.ListStatus | hooks/useReports.ts:145-152 | lists every report in the status, each once, and nothing else |
| Reports.ReportStore.SyncAllPending | hooks/useReports.ts:141-169 | offline, or with a pass running, nothing changes; otherwise every pending report and then every failed one is attempted once, in turn, and synced ones are never visited; `syncing` ends raised exactly when an attempt threw |
| Reports.ReportStore.RunListed | hooks/useReports.ts:159-168 | the loop runs the listed attempts in order, stops at the first throw with the flag left set, and otherwise clears the flag |
| Reports.ReportStore.RetrySync | hooks/useReports.ts:172-186 | offline it is rejected with no change and nothing thrown; online the report is set back to pending and then attempted exactly once; an unknown id changes nothing; a store error during the attempt is passed on to the caller |
| Reports.ReportStore.DeleteReport | hooks/useReports.ts:189-194 | removes only that key; deleting an absent id changes nothing, so deleting twice is deleting once |
| SyncQueue.NewEntry | lib/sync-queue.ts:46-55 | the entry has retry count 0, no error, the given url, body and report id, method "GET" unless one is given, and headers `{}` unless given |
| SyncQueue.Applied | lib/sync-queue.ts:88-93 | an update writes the retry fields it carries and leaves every other field as it was |
| SyncQueue.ReplayAccounting | lib/sync-queue.ts:107-146 | after a replay the table holds exactly the entries that were not delivered; delivered + remaining = initial size |
| SyncQueue.SettledPrefixReplays | lib/sync-queue.ts:111-143 | settling a listing one entry at a time, each id once, replays exactly the listed ids, and every delivery shrinks the table by one |
| SyncQueue.SettledListingIsReplay | lib/sync-queue.ts:107-146 | settling a complete listing of the table is the full replay, and the delivery count is the number of delivered entries |
| SyncQueue.AppendOldest | lib/sync-queue.ts:66-68 | appending the oldest remaining entry keeps the listing sorted by timestamp, free of repeats and faithful to the table |
| SyncQueue.ReplayStep | lib/sync-queue.ts:119-142 | replaying one more entry removes it when delivered and otherwise stores it with one more retry and its error |
| SyncQueue.RequestQueue.AddToQueue | lib/sync-queue.ts:39-61 | inserts exactly one entry, `NewEntry`, and returns its id; an existing id fails and changes nothing |
| SyncQueue.RequestQueue.GetPendingRequests | lib/sync-queue.ts:66-68 | returns every entry once, in ascending timestamp order, as stored |
| SyncQueue.RequestQueue.GetQueueSize | lib/sync-queue.ts:73-75 | the size is the number of entries |
| SyncQueue.RequestQueue.RemoveFromQueue | lib/sync-queue.ts:80-83 | deletes only that id |
| SyncQueue.RequestQueue.UpdateQueueItem | lib/sync-queue.ts:88-93 | changes only the named fields of that one entry; an absent id changes nothing |
| SyncQueue.RequestQueue.ClearQueue | lib/sync-queue.ts:98-101 | leaves the queue empty |
| SyncQueue.RequestQueue.ReplayOne | lib/sync-queue.ts:119-142 | a 2xx removes the entry and reports success; anything else stores `retryCount + 1` and "HTTP <status>" or the error's message |
| SyncQueue.RequestQueue.ProcessQueue | lib/sync-queue.ts:107-146 | every entry of the snapshot is replayed once and a failure does not stop the pass; the table becomes `Replayed`; the result is the number removed, at most the initial size, and final size = initial size − result |
| SyncQueue.RequestQueue.ReplayListed | lib/sync-queue.ts:111-143 | the loop settles the listed requests in order and counts the deliveries |
| BackgroundSync.RejectionMessage | hooks/useBackgroundSync.ts:175 | the thrown message is the response's error when non-empty, else "Sync failed" |
| BackgroundSync.AsWrittenAlwaysDirect | hooks/useBackgroundSync.ts:166 | with `isOnline` bound to the hook's result object, the direct path is taken even offline |
| BackgroundSync.FieldBindingFollowsConnectivity | hooks/useBackgroundSync.ts:40 | reading the object's `isOnline` field makes the test follow connectivity |
| BackgroundSync.AsWrittenAutoSyncIgnoresConnectivity | hooks/useBackgroundSync.ts:146 | as written, a non-empty queue with no drain running schedules a drain even offline |
| BackgroundSync.AutoSyncOnlyOnline | hooks/useBackgroundSync.ts:146-154 | with the flag read, a drain is scheduled exactly when online, the queue is non-empty and no drain runs; this differs from the guard as written only offline |
| BackgroundSync.MessageType | hooks/useBackgroundSync.ts:104-116 | a message type is read only when the data's `type` is a string |
| BackgroundSync.SyncController.UpdateQueueSize | hooks/useBackgroundSync.ts:49-52 | the recorded size becomes the number of queued entries |
| BackgroundSync.SyncController.Initialize | hooks/useBackgroundSync.ts:88-126 | records support; once registered, the recorded size is the queue size |
| BackgroundSync.SyncController.SyncPendingRequests | hooks/useBackgroundSync.ts:58-82 | while a drain runs: returns 0 and changes nothing; otherwise drains the queue once, clears `isSyncing` on both paths, and returns the number delivered, or 0 when the store fails |
| BackgroundSync.SyncController.HandleMessage | hooks/useBackgroundSync.ts:101-117 | SYNC_COMPLETE clears `isSyncing`, records the time and refreshes the size; SYNC_SUCCESS only refreshes the size; other messages change nothing |
| BackgroundSync.SyncController.SyncSingleReport | hooks/useBackgroundSync.ts:163-230 | online with success and data: returns the server id, queue untouched; online failure: one entry queued and `success: false` with the message; offline: one POST queued, the sync tag registered when supported, `success: true` with no server id |
| BackgroundSync.QueuedEntryCarriesReport | hooks/useBackgroundSync.ts:179-189 | the queued entry is a JSON POST of the payload to "/api/sync-reports" tagged with the report's local id |
| BackgroundSync.QueuedReportIsRouted | public/sw.js:241-249 | an entry the page queues matches the service worker's background-sync route |
| BackgroundSync.RegisteredTagTriggersReplay | public/sw.js:255-270 | a `sync` event replays the queue exactly for the tag the page registers |
| ServiceWorker.GetReportIdFromRequest | public/sw.js:285-293 | the body's `localId` when truthy; "unknown" when it is missing or falsy, the body is null or the body does not parse; always truthy |
| ServiceWorker.FirstFailure | public/sw.js:195-207 | the position of the first undelivered entry: every entry before it was delivered |
| ServiceWorker.SuccessNotices | public/sw.js:199-207 | one SYNC_SUCCESS per delivered entry, in queue order, carrying that entry's report id |
| ServiceWorker.ReplayQueue.ShiftRequest | public/sw.js:195 | takes the front entry, or nothing from an empty queue |
| ServiceWorker.ReplayQueue.UnshiftRequest | public/sw.js:212 | puts the entry back at the front |
| ServiceWorker.OnSync | public/sw.js:189-234 | the loop as written ends in the state `PassAsWritten` describes |
| ServiceWorker.OnSyncCorrected | public/sw.js:189-234 | the loop with one re-insert ends in the state `PassCorrected` describes |
| ServiceWorker.AsWrittenDuplicatesOnHttpError | public/sw.js:208-221 | a non-2xx answer leaves the failing entry twice at the front, makes the queue one longer than its undelivered part, and counts two failures |
| ServiceWorker.DuplicateExample | public/sw.js:208-221 | one queued report answered with 500 comes back queued twice |
| ServiceWorker.CorrectedKeepsEachUndeliveredOnce | public/sw.js:195-221 | with one re-insert, each entry is either delivered and announced in order or still queued once, in order; at most one failure is counted |
| ServiceWorker.CompleteOnlyWhenDrained | public/sw.js:224-229 | SYNC_COMPLETE is posted exactly when the pass empties the queue, and then it reports every entry as a success and no failures |
| SyncRoute.CaughtResponse | app/api/sync-reports/route.ts:101-117 | a 500 with `success: false`; the error is "Failed to connect to backend API" exactly for a TypeError mentioning "fetch", else "Internal server error"; `details` is the message |
| SyncRoute.HandleSyncPost | app/api/sync-reports/route.ts:13-118 | the backend is called, with the body unchanged, exactly when the body has truthy `localId`, `incidentType` and `severity`; a body lacking one gets the 400 "Missing required fields"; a body that does not parse gets the 500 |
| SyncRoute.BackendFailurePassedThrough | app/api/sync-reports/route.ts:64-79 | a backend failure keeps its status, `success: false`, the reply as `details`, and the error from `error`, else `message`, else "Backend API error" |
| SyncRoute.BackendSuccessNormalised | app/api/sync-reports/route.ts:83-100 | a backend success gives 200 and `success: true`; `data` is the reply's fields with the client's `localId`, and `syncedAt` is the reply's when truthy, else now |
| SyncRoute.SuccessOnlyFromBackendSuccess | app/api/sync-reports/route.ts:35-100 | `success: true` is sent exactly when the report was forwarded and the backend answered 2xx with JSON, and then the status is 200 |
| SyncRoute.ThrownCallClassified | app/api/sync-reports/route.ts:101-117 | a throwing backend call gets 500; the network message is used exactly for a TypeError mentioning "fetch" |
| Latency.RoundMillisToSeconds | data/MockReports.ts:195 | the result is the whole second nearest the milliseconds, halves rounded up |
| Latency.RoundingIsUnique | data/MockReports.ts:195 | no other whole second satisfies that bound |
| Latency.GetSyncLatency | data/MockReports.ts:191-196 | no latency exactly when `syncedAt` or `createdAtLocal` is missing or empty; NaN when a timestamp does not parse; otherwise the rounded difference, which may be negative |
| Latency.FormatLatency | data/MockReports.ts:198-204 | "—" for none; "NaNm NaNs" for an unparsable stamp; "<s>s" below a minute, negatives included; otherwise "<m>m <r>s" with 60·m + r = s, 0 ≤ r < 60 and m ≥ 1 |
| Latency.ShortFormHasNoMinutes | data/MockReports.ts:200 | the short form never holds an 'm' |
| Latency.LongFormInjective | data/MockReports.ts:201-203 | the long form is decided by its two numbers |
| Latency.FormatLatencyInjective | data/MockReports.ts:198-204 | different whole-second latencies are never displayed alike |
| ImageUtils.ValidateImageFile | lib/image-utils.ts:134-167 | the checks run in order (image type, size with the limit itself passing, format) and the first failure decides the message; valid exactly when the size fits and the format is supported |
| ImageUtils.SupportedAreImages | lib/image-utils.ts:153-159 | every supported format passes the image-type check |
| ImageUtils.DefaultLimitIsTenMebibytes | lib/image-utils.ts:136-150 | without a limit, 10·1024·1024 bytes pass and one byte more fails with the 10 MB message |
| ImageUtils.TypeCheckedBeforeSize | lib/image-utils.ts:139-145 | a non-image is rejected the same way whatever its size |
| Registration.StripPhone | components/ResponderRegistration.tsx:39 | the result is no longer and holds no white space or '-' |
| Registration.StripPhoneConcat | components/ResponderRegistration.tsx:39 | stripping works piece by piece |
| Registration.SeparatorsIgnored | components/ResponderRegistration.tsx:38-41 | inserting a space or '-' anywhere never changes whether a phone number matches |
| Registration.NameError | components/ResponderRegistration.tsx:32-34 | an error exactly when the name is blank after trimming |
| Registration.PhoneError | components/ResponderRegistration.tsx:36-42 | "Phone number is required" when blank; otherwise "Please enter a valid phone number" exactly when the stripped number is not '+'? and 10–15 digits |
| Registration.EmailError | components/ResponderRegistration.tsx:44-46 | optional; a non-empty value that does not match the address pattern, untrimmed, is an error |
| Registration.NicError | components/ResponderRegistration.tsx:48-50 | optional; a non-empty value shorter than 5 is an error |
| Registration.FormErrors | components/ResponderRegistration.tsx:29-51 | one entry per failing field, with that field's message, and no other key |
| Registration.SubmittedData | components/ResponderRegistration.tsx:69-74 | name and phone trimmed; a blank email or NIC left out, otherwise trimmed |
| Registration.RegistrationForm.ValidateForm | components/ResponderRegistration.tsx:29-54 | the shown errors become the form's errors, and the result is true exactly when there are none |
| Registration.RegistrationForm.HandleSubmit | components/ResponderRegistration.tsx:56-91 | an invalid form stores nothing; a valid one stores one profile with the submitted data and completes exactly when that store succeeds, and then that profile's id is the stored current responder with the rest of the local storage unchanged; a form that does not complete leaves the local storage as it was; `loading` ends false after a valid submit |
| Registration.RegistrationForm.HandleChange | components/ResponderRegistration.tsx:93-99 | the field takes the value; only that field's error is blanked, every other error kept |
| Registration.ValidFormSubmitsNames | components/ResponderRegistration.tsx:59-74 | a valid form submits a non-blank name and phone, and the phone matches the pattern |
| AuthUtils.FirstNamed | lib/auth-utils.ts:13-18 | the first piece named `key`, every earlier piece named otherwise |
| AuthUtils.FindNamed | lib/auth-utils.ts:13-18 | the `for … of` scan stops at that first piece |
| AuthUtils.LookupPieces | lib/auth-utils.ts:12-19 | nothing without a matching piece, else the decoded value of the first, or the decoding error |
| AuthUtils.GetTokenFromCookies | lib/auth-utils.ts:9-20 | without a document nothing; otherwise the lookup over the ';'-pieces (also `getAccessTokenFromCookies`, 26-37) |
| AuthUtils.IsAuthenticated | lib/auth-utils.ts:56-58 | true exactly when the access-token lookup finds a value |
| AuthUtils.NoDocumentNoToken | lib/auth-utils.ts:10 | with no document the lookup is null |
| AuthUtils.ValueCutAtEquals | lib/auth-utils.ts:14 | only the first two '='-pieces are kept, so a value holding '=' is cut there |
| AuthUtils.ValueOfPlainPiece | lib/auth-utils.ts:14 | `name=value` gives that name and that value |
| AuthUtils.PieceWithoutValue | lib/auth-utils.ts:14-16 | a piece without '=' has the value "undefined" |
| AuthUtils.FirstMatchWins | lib/auth-utils.ts:12-19 | a cookie string listing other names before `name=value` yields the decoded value, whatever follows |
| AuthUtils.FirstNamedAt | lib/auth-utils.ts:13-18 | the scan finds a piece when every piece before it has another name |
| Proxy.ProtectedRouteIff | proxy.ts:18-21 | protected exactly when the path contains "/dashboard" or "/admin" |
| Proxy.PublicRouteIff | proxy.ts:22-24 | public exactly when the path ends in "/", "/login" or "/admin/login" |
| Proxy.TrailingSlashIsPublic | proxy.ts:22-24 | every path ending in '/' is public |
| Proxy.LocaleSegmentOf | proxy.ts:33 | the locale segment of "/<seg>…" is `seg` |
| Proxy.Decide | proxy.ts:15-62 | a request passes exactly when its path is not protected-and-not-public or its token is truthy and verifies; a missing token redirects to the locale's login with `redirect` set; a token that fails to verify redirects without it and deletes the three auth cookies |
| Proxy.LoginPageNeverRedirects | proxy.ts:13-34 | the login page a redirect points to is itself never redirected |
| Proxy.DashboardWithoutToken | proxy.ts:27-36 | "/<locale>/dashboard" without a token goes to "/<locale>/admin/login" remembering the page |
| I18n.PreferredLanguage | i18n/request.ts:18-19 | never empty |
| I18n.ChooseLocale | i18n/request.ts:7-20 | a non-empty cookie is used as it is; otherwise "si" exactly when the preferred language is "si", else "en" |
| I18n.NoHeaderIsEnglish | i18n/request.ts:18-20 | no cookie and no header give "en" |
| I18n.FirstTagDecides | i18n/request.ts:18-20 | only the first entry of the header, cut at '-', decides |
| I18n.QualityValuesNotStripped | i18n/request.ts:19-20 | "si;q=0.9,en" gives "en" |
| I18n.SinhalaExamples | i18n/request.ts:7-20 | "si-LK,en;q=0.8" gives "si", and a non-empty cookie overrides any header |
| Carousel.NextIndex | components/ui/carousel.tsx:13-15 | stays in range and wraps from the last image to the first |
| Carousel.PrevIndex | components/ui/carousel.tsx:17-19 | stays in range and wraps from the first image to the last |
| Carousel.PrevUndoesNext | components/ui/carousel.tsx:13-19 | back undoes forward and forward undoes back |
| Carousel.AdvanceIsRotation | components/ui/carousel.tsx:13-15 | k steps forward land at (current + k) mod n |
| Carousel.FullCycle | components/ui/carousel.tsx:13-15 | n steps forward return to the start |
| Carousel.Carousel.Shown | components/ui/carousel.tsx:21-33 | no image, which shows the placeholder, exactly when the list is empty; otherwise the image at `current` |
| Carousel.Carousel.Position | components/ui/carousel.tsx:74 | the counter shows a place between 1 and n, naming the shown image |
| Carousel.Carousel.Next | components/ui/carousel.tsx:13-15 | `current` becomes `NextIndex` and stays in range |
| Carousel.Carousel.Prev | components/ui/carousel.tsx:17-19 | `current` becomes `PrevIndex` and stays in range |
| Carousel.Carousel.SelectDot | components/ui/carousel.tsx:64 | `current` becomes the clicked index |

## Left out

- Interleaving is not modelled: between tabs, between the page and the service worker, and between an awaited step and a React state update. The stale-closure reads of `syncing` and `isSyncing` are not modelled either. Every operation runs to completion in sequence.
- Workbox's own queue storage, request cloning and retention expiry are not modelled; `MaxRetentionMinutes` is only recorded. Precaching and caching strategies, timers (the 1000 ms auto-sync delays), toasts, console logging and JSX rendering are left out too.
- The carousel's arrows, drawn only for more than one image, are rendering without state and are left out.
- `clearAuthTokens` writes `document.cookie`, which is I/O; it is left out.
- The message-file import of the locale configuration is I/O and is left out.
- The origin of the redirect URL (`request.url`) is left out; the redirect is modelled by its path, its `redirect` parameter and the cookies it deletes.
- The `useOnlineStatus` hook is not part of this model. Its result is taken to be an object with an `isOnline` field, as its other callers read it.
- Numbers are integers. NaN appears only where it can: `NotANumber` for a timestamp that does not parse. Fractional milliseconds are not modelled.
- Strings are sequences of characters. UTF-16 code units, and the length of the NIC counted in them, are not distinguished from code points.
- Spreading a string into an object is not modelled.
- Reports.ReportStore.SyncAllPending: within one status, the store's index order is not fixed; the contract only says pending reports come before failed ones, each once.
- Reports.ReportStore.SyncReport: a store failure is modelled only at the attempt's first read (`StoreError`); a failure of a later write part-way through an attempt is not.
- SyncQueue.RequestQueue.GetPendingRequests: entries with equal timestamps are listed in an order the contract does not fix.
- BackgroundSync.SyncController.SyncPendingRequests: a store failure is one flag that makes the drain fail before it changes anything; a failure part-way through a drain is not modelled.
- BackgroundSync.SyncController.SyncSingleReport: models the connectivity test reading the flag, not the always-truthy binding as written (see Findings). The direct send's HTTP exchange is one input, `DirectReply`.
- SyncRoute.HandleSyncPost: for a body that is `null` or `undefined`, the contract states only the 500 status and `success: false`, not the exact TypeError text in `details`.
- Latency.GetSyncLatency: `new Date(t).getTime()` is the input `parseTime`; date-string parsing is not modelled.

## Findings

| source | as written | input that shows it | evidently intended | confidence | as-written member | corrected member |
|---|---|---|---|---|---|---|
| public/sw.js:208-221 | a non-2xx response calls `unshiftRequest(entry)` before throwing, and the `catch` that catches the throw calls it again and counts a second failure | one queued report answered with status 500 | the entry is put back once and one failure is counted | high (not executed) | ServiceWorker.AsWrittenDuplicatesOnHttpError | ServiceWorker.CorrectedKeepsEachUndeliveredOnce |
| hooks/useBackgroundSync.ts:40 | `isOnline` is bound to the whole result of `useOnlineStatus()`, an object and so always truthy, so `syncSingleReport` sends directly even offline and never takes its offline queueing branch | any call made while the device is offline | `const { isOnline } = useOnlineStatus()`, as the other callers read it | medium (not executed; the hook's source is not part of this model) | BackgroundSync.AsWrittenAlwaysDirect | BackgroundSync.SyncController.SyncSingleReport |
| hooks/useBackgroundSync.ts:146 | the auto-sync guard tests the same always-truthy binding, so a non-empty queue schedules a drain while offline | offline, queue size 1, no drain running | drain only while online | medium (not executed; the hook's source is not part of this model) | BackgroundSync.AsWrittenAutoSyncIgnoresConnectivity | BackgroundSync.AutoSyncOnlyOnline |
