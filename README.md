# Momo upload and moderation: a Dafny model

The system is a photo feed for momo (dumpling) pictures. A React client asks the Flask backend
for a presigned upload slot, PUTs the photo to object storage, and shows a five-step processing
tracker. Meanwhile it polls the backend for the verdict that an external moderation step writes
into the object's tags. The verdict is APPROVED, BLURRED or BLOCKED, and it comes with a reason.
The feed re-syncs every second with a timestamp cursor. The backend's listing endpoint works as
follows:

- it walks the stored objects newest first;
- it counts each one by status;
- it hides untagged, BLOCKED and PROCESSING objects;
- it applies the cursor;
- it caches each object's status per ETag, with a TTL that depends on the status.

The moderation rule itself is a keyword decision tree over the image labels.

The model has one module per source file, plus three shared modules:

| file | module | models |
|---|---|---|
| `wrappers.dfy` | `Wrappers` | `Option` / `Result` |
| `strings.dfy` | `Strings` | ASCII lower-casing, substring test, prefix test |
| `feed_types.dfy` | `FeedTypes` | feed items, stats, listing replies, status names, JS/Python truthiness of a nullable string |
| `moderation_rules.dfy` | `ModerationRules` | `backend/moderation_constants.py`: keyword predicates and the decision tree |
| `server.dfy` | `Server` | `backend/server.py`: the listing loop as class `ImageService`, with the ETag cache as a field, proved equal to a left fold `Run` of a per-object `Step`; also the status and upload-slot endpoints |
| `reason_messages.dfy` | `ReasonMessages` | `frontend/src/constants/moderation.js` |
| `gateway.dfy` | `Gateway` | `frontend/src/api/s3.js`: request URLs and the classification of HTTP responses |
| `app.dfy` | `App` | `frontend/src/App.jsx`: see below |
| `tracker.dfy` | `ProcessingTracker` | `frontend/src/components/ProcessingTracker.jsx` |
| `image_feed.dfy` | `ImageFeed` | `frontend/src/components/ImageFeed.jsx`: blur and badge rules, plus class `FeedView` for the lightbox and the reveal set |
| `upload_drawer.dfy` | `UploadDrawer` | `frontend/src/components/UploadDrawer.jsx`: close and accept guards, control visibility, plus class `Drawer` |

`App.jsx` is modelled as class `AppState`. Its fields are the feed, the stats, the load error,
the drawer flag and the processing record. One more field records which continuations are
pending: the slot replies, the transfers, the progress intervals, the step timers, the status
polls, the stats refreshes and the drawer resets. There is one method per callback, and the
environment may call them in any order. Each method requires only that its continuation is
pending. The state updaters of the source are the pure functions `Begin`, `Tick`,
`TransferDone`, `StepTimer`, `Resolve` and `Fail`. Sequences of ticks, timers and poll replies
are reasoned about through those functions.

Environment inputs are parameters. These include the storage listing, the tag lookups, the
signed URLs, the clock, HTTP replies and exceptions (`Result.Failure`).

## Model

| member | source | states |
|---|---|---|
| Strings.Lower | backend/moderation_constants.py:59 | the result has the input's length and is the input lower-cased position by position |
| Strings.Contains | backend/moderation_constants.py:59 | true exactly when the needle occurs at some index of the haystack |
| FeedTypes.NoBlockedAppend | frontend/src/App.jsx:121-124 | two feeds concatenated hold no BLOCKED item iff neither does |
| ModerationRules.HasUnsafeContent | backend/moderation_constants.py:56-59 | some unsafe keyword is a substring of the lower-cased labels (by `AnyKeyword`) |
| ModerationRules.HasHumanFaces | backend/moderation_constants.py:62-65 | some face keyword is a substring of the lower-cased labels (by `AnyKeyword`) |
| ModerationRules.IsFood | backend/moderation_constants.py:68-71 | some food keyword is a substring of the lower-cased labels (by `AnyKeyword`) |
| ModerationRules.IsMomo | backend/moderation_constants.py:74-77 | some momo keyword is a substring of the lower-cased labels (by `AnyKeyword`) |
| ModerationRules.AnyKeyword | backend/moderation_constants.py:56-77 | true exactly when some keyword is a substring of the lower-cased labels |
| ModerationRules.GetStatusAndReason | backend/moderation_constants.py:26-53 | always one of the five (status, reason) pairs; any unsafe keyword gives (BLOCKED, UNSAFE_CONTENT); otherwise a face keyword gives (BLOCKED, HUMAN_DETECTED); otherwise no food keyword gives (BLOCKED, NOT_FOOD); BLOCKED iff unsafe or face or no food keyword |
| ModerationRules.ApprovedIff | backend/moderation_constants.py:45-51 | APPROVED iff food and momo keywords are present and no unsafe or face keyword is; the reason is then MOMO |
| ModerationRules.BlurredIff | backend/moderation_constants.py:49-53 | (BLURRED, OTHER_FOOD) iff food is present, momo is absent and there is no unsafe or face keyword |
| ModerationRules.MomoWithoutFoodIsNotFood | backend/moderation_constants.py:45-47 | a momo keyword without a food keyword gives (BLOCKED, NOT_FOOD) |
| ModerationRules.VerdictIgnoresCase | backend/moderation_constants.py:56-77 | lower-casing the labels first never changes the verdict |
| ModerationRules.SurfaceMatchesFace | backend/moderation_constants.py:62-65 | "Surface" matches the face keyword "face" and is blocked as HUMAN_DETECTED |
| ReasonMessages.GetReasonMessage | frontend/src/constants/moderation.js:24-26 | a known code gives its table message; an unknown non-empty code gives itself; null or "" gives "Unknown reason"; never empty |
| ReasonMessages.ReasonCodesAreIdentity | frontend/src/constants/moderation.js:2-8 | every reason code maps to itself, and the codes are exactly the message table's keys |
| ReasonMessages.MessageTablesAgree | frontend/src/constants/moderation.js:11-17 | the frontend message table equals the backend one entry for entry |
| ReasonMessages.EveryVerdictHasMessage | backend/moderation_constants.py:13-19 | each reason the classifier can produce has a table message, and the lookup returns it |
| Gateway.ApiEndpoint | frontend/src/api/s3.js:1 | the configured endpoint when it is set and non-empty, else "/api" |
| Gateway.SlotRequestUrl | frontend/src/api/s3.js:20 | path `/generate-presigned-url` with the MIME type URI-encoded as `contentType` |
| Gateway.GetPresignedUrl | frontend/src/api/s3.js:20-24 | success iff the status is 2xx, and then the body is the grant |
| Gateway.UploadToS3 | frontend/src/api/s3.js:27-50 | no PUT iff the URL contains "mock-s3-bucket"; otherwise a PUT to that URL with the file's type; success iff no PUT or a 2xx reply |
| Gateway.ListImagesUrl | frontend/src/api/s3.js:58-61 | `?after=` with the number unencoded only for a truthy timestamp; otherwise no query |
| Gateway.ListImages | frontend/src/api/s3.js:63-67 | success iff 2xx, and then the parsed body |
| Gateway.StatusUrl | frontend/src/api/s3.js:76 | the key is URI-encoded into `key` |
| Gateway.GetImageStatus | frontend/src/api/s3.js:76-83 | 404 gives "not ready" without failing; any other status succeeds iff 2xx; 2xx gives the reported item |
| Gateway.ZeroCursorIsUnfiltered | frontend/src/api/s3.js:58-61 | a cursor of 0 builds the same URL as no cursor, with no query |
| Gateway.MockUploadAlwaysSucceeds | frontend/src/api/s3.js:28-35 | a mock-bucket URL succeeds with no PUT, whatever the PUT status would be |
| Gateway.StatusClassification | frontend/src/api/s3.js:77-83 | "not ready" iff 404; failure iff neither 404 nor 2xx |
| Server.IsHit | backend/server.py:176-177 | a hit is an existing entry expiring more than 60 seconds after now (used by `NonTerminalNeverHit` and `ResolveObject`) |
| Server.Listable | backend/server.py:225-228 | a status is listed only when present, non-empty, not BLOCKED and not PROCESSING (used by `Keep` and `RunAdmissible`) |
| Server.PassesCursor | backend/server.py:230-244 | only a numeric cursor filters, keeping timestamps strictly above it; no cursor or an unparsable one passes everything |
| Server.Step | backend/server.py:171-253 | one pass: resolve, count, and append the item when listable and past the cursor; its properties are stated by `RunLists` and the `Run` lemmas |
| Server.Run | backend/server.py:171-253 | the loop over the objects in order, as a left fold of `Step`; its properties are stated by the `Run` lemmas and `ListingProperties` |
| Server.Ttl | backend/server.py:204 | the TTL exceeds the 60-second hit margin iff the status is terminal; it is always positive |
| Server.NonTerminalNeverHit | backend/server.py:177-211 | an entry written with a non-terminal status is never a hit at or after its write time |
| Server.ResolveObject | backend/server.py:175-211 | a hit serves status and URL from the entry and leaves the cache alone; a miss uses fresh tags and rewrites the entry with now + TTL; the reason comes from the previous entry whenever one existed, even an expired one |
| Server.CountStatus | backend/server.py:213-223 | total goes up by 1; each of approved, blurred, blocked and processing goes up by 1 exactly for its own status; their sum grows by 1 for a known status and by 0 otherwise |
| Server.InsertNewestFirst | backend/server.py:165-169 | the result is newest-first, is a permutation of the input plus the new object, and its head is the newer of the two heads |
| Server.SortNewestFirst | backend/server.py:165-169 | the result is newest-first and a permutation of the input |
| Server.RunTotal | backend/server.py:171-172 | the loop adds exactly one to total per object |
| Server.RunBucketsBounded | backend/server.py:213-223 | the status counters never sum to more than total |
| Server.RunAdmissible | backend/server.py:225-244 | every listed image has a present status other than BLOCKED or PROCESSING, and a numeric cursor admits only timestamps strictly greater than it |
| Server.RunNewestFirst | backend/server.py:165-246 | objects taken newest first yield images in non-increasing timestamp order |
| Server.RunCacheWrites | backend/server.py:201-211 | every cache entry is either unchanged or was just written with expiry now + Ttl(its status) |
| Server.Candidates | backend/server.py:171-211 | one resolved item per object, in object order, carrying the object's key and timestamp |
| Server.Keep | backend/server.py:225-244 | the kept items are all admissible, all come from the input, and every admissible input item is kept |
| Server.Newer | backend/server.py:238-240 | an item is kept iff it is in the input with a timestamp strictly above the cursor |
| Server.RunLists | backend/server.py:171-253 | the loop's images are exactly the admissible resolved items, in object order: found iff present |
| Server.UnparsableFiltersNothing | backend/server.py:231-244 | a cursor that does not parse gives the same listing, stats and cache as no cursor |
| Server.CursorKeepsStatsAndCache | backend/server.py:171-244 | the counters and the cache after the loop do not depend on the cursor |
| Server.KeepAfter | backend/server.py:225-244 | filtering with a numeric cursor equals filtering without one and then keeping the newer items |
| Server.CursorOnlyFilters | backend/server.py:230-244 | a numeric cursor keeps the stats and cache of the uncursored listing, and its images are that listing's images newer than the cursor |
| Server.ListingProperties | backend/server.py:147-253 | for any cache, objects and cursor: total equals the number of objects; counters are at most total; images admissible and newest first; cache writes as above; the images are exactly `Keep` of the resolved items |
| Server.ListingCursor | backend/server.py:165-253 | from an empty listing: every admissible resolved object is listed; an unparsable cursor gives the uncursored listing; a numeric one gives its stats, its cache and its newer images |
| Server.StaleReasonAfterVerdict | backend/server.py:176-250 | an object first cached while PROCESSING is later listed as BLURRED with the old entry's absent reason |
| Server.ImageService.constructor | backend/server.py:131 | the cache starts empty |
| Server.ImageService.ListImages | backend/server.py:133-260 | 500 without a bucket or when listing fails; otherwise the fold over the sorted objects, with total equal to the object count, counters at most total, admissible newest-first images and a well-formed cache |
| Server.ImageService.ListSorted | backend/server.py:171-253 | the loop's images, stats and new cache equal the fold `Run` over the objects |
| Server.ImageService.ListOne | backend/server.py:172-253 | one loop pass equals `Step` on the previous images, stats and cache |
| Server.ImageService.Lookup | backend/server.py:173-211 | status, URL, reason and new cache equal `ResolveObject` on the old cache |
| Server.GetImageStatus | backend/server.py:78-128 | 400 iff the bucket or key is missing; 404 with no status on a storage error; 200 iff found, with id = key and the tagged status and reason |
| Server.GeneratePresignedUrl | backend/server.py:32-76 | 200 iff a bucket is set and signing succeeds, with fileId = the key signed for and the URL signed for it; every failure is a 500 |
| App.Begin | frontend/src/App.jsx:68 | starts processing at step 1 with progress 0, keeping verdict and reason (stated by `UpdatersPreserveValid` and `StaleVerdictFreezesSteps`) |
| App.Tick | frontend/src/App.jsx:76-79 | +10 below 90, else unchanged (stated by `TickCapped` and `TicksFromZero`) |
| App.TransferDone | frontend/src/App.jsx:85 | progress 100 at step 2 (stated by `UpdatersPreserveValid` and `AppState.TransferFinished`) |
| App.StepTimer | frontend/src/App.jsx:92-102 | moves to the target step unless a verdict is recorded (stated by `LateTimersIgnored` and `TimersWithoutVerdict`) |
| App.Resolve | frontend/src/App.jsx:132-137 | step 5 with the reported status and reason (stated by `ResolvedStaysAtFive` and `AppState.PollAttempt`) |
| App.Fail | frontend/src/App.jsx:150 | processing stops (stated by `FailOnlyStopsProcessing`) |
| App.RunPoll | frontend/src/App.jsx:107-145 | the poll run over a sequence of replies (stated by `TimesOutAtCap`, `FirstTerminalWins`, `ThrowsNeverTimeOut` and `ResolvedIsTerminal`) |
| App.TickCapped | frontend/src/App.jsx:75-80 | a tick adds exactly 10 below 90 and otherwise leaves the record unchanged; it never lowers progress |
| App.TicksFromZero | frontend/src/App.jsx:75-80 | n ticks from 0 give progress min(10n, 90), and nothing else changes |
| App.TicksMonotone | frontend/src/App.jsx:75-80 | more ticks never show less progress |
| App.LateTimersIgnored | frontend/src/App.jsx:91-103 | once a verdict is recorded, any sequence of step timers leaves the record unchanged |
| App.TimersWithoutVerdict | frontend/src/App.jsx:91-103 | without a verdict, the last timer fired sets the step and nothing else changes |
| App.ResolvedStaysAtFive | frontend/src/App.jsx:91-137 | after a terminal verdict, the step stays 5 whatever timers fire |
| App.StaleVerdictFreezesSteps | frontend/src/App.jsx:68-103 | a new upload keeps the previous verdict, so without a reset its step timers leave it at step 2 |
| App.FailOnlyStopsProcessing | frontend/src/App.jsx:147-150 | failure turns isProcessing off and changes no other field |
| App.UpdatersPreserveValid | frontend/src/App.jsx:66-151 | every updater keeps step in 1..5, progress a multiple of 10 up to 100, and the verdict absent or terminal |
| App.Decide | frontend/src/App.jsx:110-141 | resolves iff the lookup returned a terminal status (that item); times out iff it returned normally without one at attempt ≥ 60; a throw always keeps polling |
| App.TimesOutAtCap | frontend/src/App.jsx:107-141 | with no throws and no terminal replies, the poll ends by timeout at exactly attempt 60 |
| App.FirstTerminalWins | frontend/src/App.jsx:107-137 | the first terminal reply within 60 attempts resolves the poll, at that attempt |
| App.ThrowsNeverTimeOut | frontend/src/App.jsx:109-144 | attempts that throw never end the poll, however many there are |
| App.ResolvedIsTerminal | frontend/src/App.jsx:117-137 | a poll resolves only to a terminal status and takes no more attempts than replies |
| App.SyncCursor | frontend/src/App.jsx:49 | the cursor is absent iff the feed is empty, and is otherwise the first item's timestamp |
| App.SyncAsksForWholeFeed | frontend/src/App.jsx:49-50 | an empty feed or a newest timestamp of 0 requests the unfiltered listing |
| App.SyncAsksAfterNewest | frontend/src/App.jsx:49-50 | otherwise the request carries `after` = the newest timestamp |
| App.SyncedFeed | frontend/src/App.jsx:52-55 | on success the reply's images come first and the old feed follows unchanged; on failure the feed is unchanged |
| App.SyncKeepsDuplicates | frontend/src/App.jsx:52-55 | an id in both the reply and the feed appears at two positions of the synced feed; the same reply applied twice is prepended twice |
| App.AppState.constructor | frontend/src/App.jsx:10-23 | empty feed, zero stats, no error, closed drawer, initial record, the first load pending |
| App.AppState.InitialLoad | frontend/src/App.jsx:26-42 | success replaces images (and stats when present) and clears the error; failure sets the error and empties images |
| App.AppState.SyncTick | frontend/src/App.jsx:46-61 | cursor from the old feed; the feed becomes `SyncedFeed` of the old one; stats replaced when present; an error changes nothing |
| App.AppState.OpenDrawer | frontend/src/App.jsx:185 | opens the drawer and changes nothing else |
| App.AppState.CloseDrawer | frontend/src/App.jsx:194-206 | closes the drawer at once and schedules one reset |
| App.AppState.ResetFires | frontend/src/App.jsx:197-205 | all five processing fields return to their initial values |
| App.AppState.StartUpload | frontend/src/App.jsx:66-71 | processing at step 1 with progress 0, verdict and reason kept; a slot request pending |
| App.AppState.SlotReplied | frontend/src/App.jsx:71-82 | failure gives `Fail`; success starts a progress interval and a transfer |
| App.AppState.ProgressTick | frontend/src/App.jsx:75-80 | the record becomes `Tick` of the old one: +10 below 90, else unchanged |
| App.AppState.TransferFinished | frontend/src/App.jsx:82-109 | failure gives `Fail` and leaves the interval running; success gives progress 100 at step 2, stops the interval, sets both step timers and starts the poll |
| App.AppState.Step3Fires | frontend/src/App.jsx:91-96 | the step becomes 3 unless a verdict is recorded, in which case nothing changes |
| App.AppState.Step4Fires | frontend/src/App.jsx:98-103 | the step becomes 4 unless a verdict is recorded, in which case nothing changes |
| App.AppState.PollAttempt | frontend/src/App.jsx:109-145 | the decision is `Decide` at the incremented attempt count. On a terminal status the poll stops, the item is prepended iff it is not BLOCKED, the step becomes 5 and the verdict is recorded; a timeout removes the poll and changes nothing else; a feed without BLOCKED items keeps none |
| App.AppState.StatsRefreshed | frontend/src/App.jsx:128-130 | stats are replaced when the reply carries them |
| ProcessingTracker.RenderStep | frontend/src/components/ProcessingTracker.jsx:16-69 | the view of the step at index k has id k + 1 |
| ProcessingTracker.Render | frontend/src/components/ProcessingTracker.jsx:5-16 | five views, in step order |
| ProcessingTracker.Classification | frontend/src/components/ProcessingTracker.jsx:17-19 | completed iff currentStep > id, or id = currentStep = 5 with a verdict; current iff currentStep = id; pending excludes both; each step is one of the three |
| ProcessingTracker.ExactlyOneCurrent | frontend/src/components/ProcessingTracker.jsx:5-18 | for a step in 1..5 exactly that step is current; otherwise none is |
| ProcessingTracker.CompletedIsPrefix | frontend/src/components/ProcessingTracker.jsx:17 | a completed step has only completed steps before it |
| ProcessingTracker.FinalStepLabel | frontend/src/components/ProcessingTracker.jsx:39-56 | "Approved" with no sub-label; "Blurred"/"Blocked" with the reason's message; "Finalizing..." when current without a verdict; else "Final Status" |
| ProcessingTracker.SubLabelOnlyOnFinalStep | frontend/src/components/ProcessingTracker.jsx:37-66 | only step 5 with BLURRED or BLOCKED has a sub-label, and it is never empty |
| ProcessingTracker.ProgressShown | frontend/src/components/ProcessingTracker.jsx:67 | the percentage is shown iff it is step 1, that step is current and 0 < progress < 100 |
| ProcessingTracker.Connectors | frontend/src/components/ProcessingTracker.jsx:62 | every step but the last has a connector, drawn completed iff its step is completed |
| ImageFeed.IsBlurred | frontend/src/components/ImageFeed.jsx:22 | blurred iff BLURRED and not revealed (stated by `OnlyBlurredStatusBlurs`, `RevealThenHide` and `OtherCardsUnaffected`) |
| ImageFeed.CardBadge | frontend/src/components/ImageFeed.jsx:105-131 | no badge iff the status is falsy; "Sensitive" iff blurred; "Approved" and "Processing" for exactly those statuses |
| ImageFeed.RevealId | frontend/src/components/ImageFeed.jsx:184 | an id is in the result iff it was in the set or is the revealed id |
| ImageFeed.HideId | frontend/src/components/ImageFeed.jsx:209-213 | an id is in the result iff it was in the set and is not the hidden id |
| ImageFeed.OnlyBlurredStatusBlurs | frontend/src/components/ImageFeed.jsx:22-131 | a non-BLURRED image is never blurred and never shows "Sensitive" |
| ImageFeed.RevealThenHide | frontend/src/components/ImageFeed.jsx:184-213 | reveal then hide blurs a BLURRED photo again and restores a set that lacked the id; reveal and hide are idempotent; a revealed photo is not blurred |
| ImageFeed.OtherCardsUnaffected | frontend/src/components/ImageFeed.jsx:184-213 | reveal and hide do not change the blur state of any card with another id |
| ImageFeed.FeedView.constructor | frontend/src/components/ImageFeed.jsx:5-6 | no lightbox, nothing revealed |
| ImageFeed.FeedView.CardClick | frontend/src/components/ImageFeed.jsx:8-15 | clicking a blurred card leaves the lightbox as it was; any other card opens it unblurred |
| ImageFeed.FeedView.SeePhoto | frontend/src/components/ImageFeed.jsx:76-84 | the lightbox opens on the blurred photo, and it stays blurred there |
| ImageFeed.FeedView.Reveal | frontend/src/components/ImageFeed.jsx:181-185 | the shown photo's id joins the set, and the photo is no longer blurred |
| ImageFeed.FeedView.Hide | frontend/src/components/ImageFeed.jsx:205-213 | the shown photo's id leaves the set, and the photo is blurred again |
| ImageFeed.FeedView.CloseLightbox | frontend/src/components/ImageFeed.jsx:147-150 | the lightbox is cleared and the reveal set kept |
| UploadDrawer.ClickOutsideCloses | frontend/src/components/UploadDrawer.jsx:12-18 | closes only when the drawer is open, the target is outside and nothing is processing (and then always, once mounted) |
| UploadDrawer.DropAccepts | frontend/src/components/UploadDrawer.jsx:39-49 | nothing while processing; otherwise the first file exactly when its type starts with "image/" |
| UploadDrawer.SelectAccepts | frontend/src/components/UploadDrawer.jsx:51-56 | the first file iff there is one, with no type check |
| UploadDrawer.ShowsCloseButton | frontend/src/components/UploadDrawer.jsx:99 | the header close button shows iff not processing (stated by `DismissIff`) |
| UploadDrawer.ShowsDoneButton | frontend/src/components/UploadDrawer.jsx:165 | the Done button shows iff step 5 with a verdict (stated by `DismissIff`) |
| UploadDrawer.ShowsTracker | frontend/src/components/UploadDrawer.jsx:109 | the tracker replaces the drop zone iff processing (stated by `StuckWithoutVerdict`) |
| UploadDrawer.CanDismiss | frontend/src/components/UploadDrawer.jsx:12-18 | some control closes the drawer (stated by `DismissIff` and `StuckThroughStepTimers`) |
| UploadDrawer.DropStricterThanSelect | frontend/src/components/UploadDrawer.jsx:39-56 | any file a drop accepts, the picker accepts too; a text file is accepted by the picker and refused by a drop |
| UploadDrawer.StuckWithoutVerdict | frontend/src/components/UploadDrawer.jsx:12-170 | while processing without a verdict, no control closes the drawer; the tracker shows and neither button does |
| UploadDrawer.StuckThroughStepTimers | frontend/src/App.jsx:91-141 | a processing upload without a verdict stays undismissable through any step timers, including after its poll has timed out |
| UploadDrawer.DismissIff | frontend/src/components/UploadDrawer.jsx:12-170 | dismissable iff not processing, or at step 5 with a verdict |
| UploadDrawer.Drawer.constructor | frontend/src/components/UploadDrawer.jsx:6 | not dragging |
| UploadDrawer.Drawer.DragOver | frontend/src/components/UploadDrawer.jsx:29-32 | dragging |
| UploadDrawer.Drawer.DragLeave | frontend/src/components/UploadDrawer.jsx:34-37 | not dragging |
| UploadDrawer.Drawer.Drop | frontend/src/components/UploadDrawer.jsx:39-49 | not dragging, and the upload is exactly what `DropAccepts` chooses |

## Left out

- Network and storage I/O are not modelled: `fetch`, boto3 listing, tagging, head and signing calls, Flask routing, CORS, dotenv and uuid generation. Their answers are parameters, such as `StoredObject.tags`, `signedUrl`, `lookup`, `sign` and `Result` replies. `alert` and console logging have no state effect.
- Timer scheduling and the React effect lifecycle are not modelled. This covers delays, interval periods, and the sync interval being re-created when `images` changes. Every callback is an atomic event that may fire whenever its continuation is pending.
- Overlapping in-flight poll callbacks are not modelled. Each poll attempt, including its awaited lookup, is one atomic event.
- The sync tick's request and reply are one event, so a feed change between issuing the request and receiving the reply is not modelled.
- Floating point is not modelled. `LastModified.timestamp()` and `time.time()` are whole seconds. `float(after)` is abstracted as `AfterParam`, which is no cursor, an unparsable cursor, or a number. `Math.round` of the integer progress is the identity.
- The Rekognition label structure and Python's `str()` repr are not modelled; labels arrive as a string.
- Strings.Lower lower-cases only ASCII letters, not the full Unicode case mapping of `str.lower` and `toLowerCase`.
- `encodeURIComponent` is kept as an uninterpreted `UriEncoded` wrapper around the raw text.
- A presign failure inside the listing loop is not modelled. In the source it escapes to the outer handler and gives a 500 with "Internal server error"; here signed URLs always exist.
- Server.SortNewestFirst: stability of Python's `sorted` among equal `LastModified` values is not stated; only order and permutation are.
- ReasonMessages.GetReasonMessage does not model JavaScript prototype keys such as `constructor`. For those, `REASON_MESSAGES[code]` would be an inherited function rather than a missing entry.
- ModerationRules.MomoWithoutFoodIsNotFood also requires that no unsafe or face keyword is present. With one present, the earlier checks decide the verdict, as `GetStatusAndReason` states.
- App.AppState.constructor: the client's initial stats have no `processing` field. It is modelled as 0, and the client never reads it.
- Rendering and styling are not modelled: markup, CSS, icons other than the tracker's icon kind, hover handlers and animations. `Navbar.jsx` and the unused `UploadModal.jsx` are not part of this model.
- `StatusBody.ItemBody` omits `uploadedAt`, and the listing's feed items omit it too. It is an ISO rendering of the same `LastModified` that `timestamp` carries.
