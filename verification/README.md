# 3930 Paradise: a Dafny model of the incident timeline's core

3930 Paradise is a Next.js site where tenants document incidents in their
building. Anyone can submit an event, with optional attachments. An
administrator reviews the events, approving or rejecting them, and manages
a rotating set of background videos. A countdown shows the time left until
a fixed date.

This project models the decision logic of that site in Dafny and proves
what each piece promises:

- **Events** (`events.dfy`). The event table is a class holding a map from
  id to row. Each row owns its attachments. The model covers:
  - the public read (every event, newest `eventDate` first) and the public create;
  - the admin listing, split into pending and approved;
  - approve and reject;
  - delete.
- **Accounts, login and session** (`accounts.dfy`, `login.dfy`,
  `session_route.dfy`). The login decision is a function. The login handler
  is a method that writes the session field by field and saves it. The
  session probe fails closed.
- **Captcha** (`captcha.dfy`). The fail-closed decision over the scoring
  service's reply.
- **Admin provisioning** (`provisioning.dfy`). The checks of
  `scripts/create-admin.ts`, in order, with ECMAScript `trim`.
- **Background videos** (`videos.dfy`, `background_video.dfy`). The video
  table's handlers (create with defaults, partial update), and the client
  rotation: the index steps `(i + 1) % n` on every tick.
- **Countdown** (`countdown.dfy`). The day/hour/minute/second split with
  floor and modulo, and the two-digit padding.
- **Submit form** (`submit_page.dfy`). The attachment entries posted for
  the uploaded files, appending uploads and removing one by index.
- **Shared pieces** (`common.dfy`, `arithmetic.dfy`). These are:
  - JSON optional fields and handler replies;
  - JavaScript truthiness of a string field;
  - the ordered read of a table (`findMany` with `orderBy`), modelled as a
    loop that inserts each row into a sorted sequence;
  - `Array.prototype.filter`;
  - Euclidean division facts.

Every route handler takes its environment as parameters:
- `isAdmin` is the result of the admin gate;
- `fault` says whether the store call raised (the `catch` branch);
- `json` is the parsed request body, or `None` when `request.json()`
  raised, which also ends in the `catch` branch's 500;
- `newId` is the id the store generates;
- `now` is the clock;
- `parseDate` is `new Date(...)`;
- `matches` and `hash` stand for bcrypt;
- `oracle` is the reCAPTCHA web service.

Where the documentation of the site and the code disagree, the model
follows the code:
- the public event read has no approval filter;
- the public create neither checks the captcha nor validates fields, and it
  ignores `submitterEmail`;
- moderating or deleting an unknown id ends in the generic 500, not a 404;
- reject deletes the event and its attachments.

## Model

| member | source | states |
|---|---|---|
| Common.Truthy | app/api/admin/events/route.ts:41 | JavaScript truthiness of an optional string field: absent and empty strings are falsy; this decides every 400 check and the description default |
| Common.Query | app/api/admin/events/route.ts:12-19 | the ordered read has as many entries as the table has rows, holds every row and nothing else, sorted by the key in the requested direction; when rows are distinct (every store's rows carry their own id) each row appears exactly once |
| Common.Filter | app/api/admin/events/route.ts:21-22 | `filter` keeps only elements passing the predicate, and every passing element is kept |
| Common.FilterMembers | app/api/admin/events/route.ts:21-22 | an element is in the filtered list iff it is in the list and passes the predicate |
| Common.FilterKeepsOrder | app/api/admin/events/route.ts:21-22 | filtering a list sorted by a key gives a list sorted by that key |
| Common.FilterSplits | app/api/admin/events/route.ts:21-22 | filtering by a predicate and by its negation splits the list's multiset exactly: nothing lost, nothing duplicated |
| Events.StoredAttachment | app/api/events/route.ts:33-38 | the stored attachment copies fileName, fileUrl, fileType and redactionAreas; isPiiRedacted is true only when the entry says true |
| Events.StoredAttachments | app/api/events/route.ts:32-39 | one attachment row per supplied entry, in order; none when `attachments` is absent |
| Events.NewEvent | app/api/events/route.ts:24-45 | the created row takes title, description, parsed date, category and attachments from the body; it is not approved and has no approval stamp or submitter e-mail |
| Events.NewEventIgnoresExtraFields | app/api/events/route.ts:24 | the submitter e-mail and captcha token in the body have no effect on the stored event |
| Events.Approve | app/api/admin/events/route.ts:45-56 | approving sets isApproved, approvedAt = now and approvedBy = the session's username, whatever the prior state; an absent username leaves approvedBy as it was; no other field changes |
| Events.ApproveTwice | app/api/admin/events/route.ts:45-56 | a second approval overwrites the first one's stamp |
| Events.EventStore.ListPublic | app/api/events/route.ts:4-19 | every stored event, approved or not, newest eventDate first; a store failure gives 500 "Failed to fetch events" |
| Events.EventStore.Create | app/api/events/route.ts:21-52 | on success exactly the new row is added; a body that is not JSON, an unreadable date, an id clash or a store failure gives 500 "Failed to create event" and adds nothing, and nothing else fails |
| Events.EventStore.ListForReview | app/api/admin/events/route.ts:6-29 | 401 without the admin gate, 500 on failure; otherwise `all` is every event, newest createdAt first; `pending` and `approved` are the filters of `all` by unapproved and approved, so they keep its order, and together they are `all` |
| Events.EventStore.Moderate | app/api/admin/events/route.ts:32-73 | 401 first; 500 for a body that is not JSON; 400 for a missing eventId or action; 400 for an unknown action; approve stamps only the named event; reject removes only it; an unknown id or a failure gives 500; every failure leaves the table unchanged; no approved event becomes pending |
| Events.EventStore.Delete | app/api/admin/events/route.ts:76-98 | 401 first; 400 without an id; removes exactly the named event, approved or pending; an unknown id or a failure gives 500 with the table unchanged |
| Events.RejectIsFinal | app/api/admin/events/route.ts:59-72 | after a reject, moderating the same id again by either action gives the generic 500 |
| Accounts.Session.Save | app/api/auth/login/route.ts:32 | saving seals the session's current fields into the cookie |
| LoginRoute.Authenticate | app/api/auth/login/route.ts:6-39 | 500 "Login failed" for a body that is not JSON, before any check; 400 "Missing credentials" when a field is missing; 500 "Login failed" on failure; every 401 says "Invalid credentials"; the admin is accepted iff the username exists and the password matches its hash |
| LoginRoute.UnknownUserLooksLikeWrongPassword | app/api/auth/login/route.ts:18-26 | an unknown username gets exactly the reply a wrong password would get, so replies do not reveal which usernames exist |
| LoginRoute.Login | app/api/auth/login/route.ts:6-39 | every rejection leaves the session untouched; success stores the admin's id and username with isLoggedIn, saves them, and the session probe then reports that admin |
| SessionRoute.SessionStatus | app/api/auth/session/route.ts:4-21 | logged in iff the session reads and says so, echoing its username and userId; otherwise exactly logged-out; a read that throws gives logged-out |
| SessionRoute.LoggedOutRevealsNothing | app/api/auth/session/route.ts:8-10 | every logged-out session gets the same reply, whatever username or userId it still carries |
| Captcha.VerifyCaptcha | lib/captcha.ts:1-27 | true iff a secret key is configured, the service's reply parsed, success is true and the score is at least 0.5 |
| Captcha.NoKeyNoOracle | lib/captcha.ts:2-7 | without a secret key the answer is false, whatever the service would say |
| Captcha.FailsClosed | lib/captcha.ts:18-26 | an exception, a missing or false success, a missing score or a score under 0.5 each give false |
| Videos.Summary | app/api/background-videos/route.ts:15-20 | the public read projects a video to id, videoUrl, opacity and order |
| Videos.NewVideo | app/api/background-videos/route.ts:47-56 | a created video is active, with opacity 0.15 and order 0 when they are omitted, and no description when the given one is missing or empty |
| Videos.Patched | app/api/background-videos/route.ts:82-93 | each field present in the body takes its new value; every absent field, and the id, keep their old values |
| Videos.EmptyPatchChangesNothing | app/api/background-videos/route.ts:82-93 | an update naming no field leaves the video as it was |
| Videos.PatchIdempotent | app/api/background-videos/route.ts:82-93 | applying the same update twice is applying it once |
| Videos.VideoStore.ListActive | app/api/background-videos/route.ts:6-28 | exactly the active videos, projected and ascending by order; a store failure answers an empty list, not an error |
| Videos.VideoStore.ListAll | app/api/admin/background-videos/route.ts:6-26 | 401 without the admin gate; otherwise every video, active or not, ascending by order; a failure gives 500 "Failed to fetch videos" |
| Videos.VideoStore.Create | app/api/background-videos/route.ts:31-66 | 401 first; 500 for a body that is not JSON; 400 when title or videoUrl is missing; an id clash or a store failure gives 500; it succeeds iff every check passes, and success adds exactly the new video with its defaults; nothing changes on failure |
| Videos.VideoStore.Update | app/api/background-videos/route.ts:69-103 | 401 first; 500 for a body that is not JSON; 400 without an id; an unknown id or a store failure gives 500; it succeeds iff every check passes, and success replaces only the named video by its patched version |
| Videos.VideoStore.Delete | app/api/background-videos/route.ts:106-131 | 401 first; 400 without an id; removes exactly the named video; an unknown id or a failure gives 500 with the table unchanged |
| BackgroundRotation.NextIndex | components/background-video.tsx:33 | the next index is always a valid index; it is the following video, or the first after the last |
| BackgroundRotation.IndexAfter | components/background-video.tsx:14 | the index after any number of steps from 0 is a valid index |
| BackgroundRotation.IndexAfterIsModulo | components/background-video.tsx:28-37 | after k steps the video on show is number k mod n, so every video gets its turn in order |
| BackgroundRotation.Rotation.constructor | components/background-video.tsx:13-14 | the component starts with no videos and index 0 |
| BackgroundRotation.Rotation.OnFetched | components/background-video.tsx:16-26 | the fetched list is adopted only when it arrived and is non-empty; the index stays 0 |
| BackgroundRotation.Rotation.Tick | components/background-video.tsx:28-37 | with one video or none nothing rotates; otherwise the index advances and wraps, and equals the tick count mod the number of videos |
| BackgroundRotation.Rotation.Opacities | components/background-video.tsx:39-56 | nothing is rendered without videos; otherwise only the video on show has its configured opacity and all others have 0 |
| Countdown.CalculateTimeLeft | components/countdown-timer.tsx:15-44 | all zeros once the target has passed; otherwise hours, minutes and seconds lie in their clock ranges, totalSeconds is the floor of the milliseconds over 1000, and the four parts add up to totalSeconds |
| Countdown.Decimal | components/countdown-timer.tsx:55 | `String(n)` is a non-empty string of decimal digits, one digit exactly for n < 10, with a leading '0' only for 0 itself |
| Countdown.ParseDecimalInverts | components/countdown-timer.tsx:55 | reading the digits of `String(n)` back gives n |
| Countdown.PadStart | components/countdown-timer.tsx:55 | `padStart` gives at least the width, ends with the original string and is filled in front |
| Countdown.PadOneDigit | components/countdown-timer.tsx:55 | padding a single digit to 2 puts one '0' in front of it |
| Countdown.FormatNumber | components/countdown-timer.tsx:55 | at least two digits; one-digit numbers get a leading '0'; longer numbers are unchanged; the digits read back as the number |
| Provisioning.SkipSpaceForward | scripts/create-admin.ts:22 | the scan for the start of the trimmed name passes only white space and stops at the first other character |
| Provisioning.SkipSpaceBackward | scripts/create-admin.ts:22 | the scan for the end of the trimmed name passes only white space and stops after the last other character |
| Provisioning.Trim | scripts/create-admin.ts:29 | `trim()` gives a string no longer than the input that neither starts nor ends with white space |
| Provisioning.TrimCutsSpaceOnly | scripts/create-admin.ts:29 | the trimmed username is a contiguous piece of the input, with white space and only white space cut from both ends |
| Provisioning.TrimEmptyIffAllSpace | scripts/create-admin.ts:22 | the trimmed username is empty iff the input is all white space |
| Provisioning.TrimIdempotent | scripts/create-admin.ts:55 | trimming an already trimmed name changes nothing |
| Provisioning.Utf16Length | scripts/create-admin.ts:38 | `password.length` counts UTF-16 code units: between one and two per character, and exactly one per character iff none lies beyond the Basic Multilingual Plane |
| Provisioning.FourEmojiAreEightUnits | scripts/create-admin.ts:38 | a password of four emoji has length 8, so the length check lets it through |
| Provisioning.CreateAdmin | scripts/create-admin.ts:18-58 | the empty-username, duplicate, length (in UTF-16 code units, as `password.length` counts) and confirmation checks apply in that order; an abort changes nothing; only when all pass is exactly one admin inserted, with the trimmed username and the digest, never the plaintext |
| SubmitPage.StartsWith | app/submit/page.tsx:40 | `startsWith` holds iff the prefix is no longer than the string and matches it character by character |
| SubmitPage.FileKind | app/submit/page.tsx:40 | the kind is "image" iff the MIME type starts with "image/", otherwise "document" |
| SubmitPage.AttachmentPayload | app/submit/page.tsx:37-42 | one entry per uploaded file, same order, name and URL copied, kind from the MIME type, isPiiRedacted false |
| SubmitPage.SubmissionBody | app/submit/page.tsx:35-43 | the posted body carries the form's four fields and one attachment entry per uploaded file, and no e-mail or captcha token |
| SubmitPage.SubmittedAttachmentsStored | app/submit/page.tsx:35-43 | a submitted form ends up stored with one unredacted attachment per uploaded file, typed "image" exactly for image MIME types |
| SubmitPage.WithoutIndex | app/submit/page.tsx:201 | filtering out position `index` drops exactly that entry and keeps the rest in order; an index outside the list removes nothing |
| SubmitPage.SubmitForm.constructor | app/submit/page.tsx:16-22 | the form starts with empty title, description and date, category "complaint" (one of the selector's values) and no files |
| SubmitPage.SubmitForm.OnUploadComplete | app/submit/page.tsx:172-181 | a completed upload appends its files after the existing ones in order; no result changes nothing |
| SubmitPage.SubmitForm.Remove | app/submit/page.tsx:198-202 | removing the entry at a valid index leaves the list with that entry cut out; the form fields are untouched |

## Left out

- Rendering, routing, `fetch`, `alert` and `confirm`, and the pages that only display what the handlers return. The admin pages and the home page are not part of this model.
- Timers (`setInterval`, its 30-second and 1-second periods) and wall-clock reads. The tick and the millisecond difference are inputs.
- The database client. The store is a map; each handler's `catch` branch, raised by the store, is the `fault` parameter; a body that `request.json()` cannot parse is `json == None`. Prisma's rejection of a body whose required fields are missing or of the wrong type is folded into `fault`, not modelled field by field.
- Transactions and atomicity of the store. Cascade deletion of attachments follows from attachments being part of the event row.
- JSON values other than strings, numbers and booleans in the expected places. `null` is modelled only for a video's `description`, where the update handler passes it on to clear the field.
- Order among rows whose sort key is equal. The database leaves it open, and so does the model.
- Generated ids (events, videos, admins, attachments). A new row's id is an input. Attachment ids and foreign keys are not modelled.
- `lib/session` (iron-session cookie sealing and the `isAdmin` check). A session is its three fields, and the admin gate is an input. A failing `session.save()`, a failing `getSession()` in the moderation handler, and a failing `isAdmin()` are not modelled. `isAdmin()` is awaited inside every admin handler's `try`, so when it raises the handler returns its 500 before any 400; the model, whose gate is a boolean, gives the 400 in that case instead.
- bcrypt. Hashing and comparison are the `hash` and `matches` parameters.
- The reCAPTCHA HTTPS call. It is the `oracle` parameter; a reply that is not a JSON object counts as `Threw`.
- Captcha.VerifyCaptcha: `data.success && data.score >= 0.5` can evaluate to a non-boolean falsy value such as `undefined`; it is modelled as `false`, as a caller testing the `Promise<boolean>` in a condition reads it.
- Countdown.FormatNumber: only whole numbers that are not negative are modelled. Those are the only values `calculateTimeLeft` produces.
- Provisioning.CreateAdmin: the console prompts, the messages and `process.exit` are not modelled. A database error in the script (the `catch` at the end) is not modelled either.
- The upload service (`app/api/uploadthing/core.ts`) and `components/recaptcha-provider.tsx` are not part of this model: they only configure external libraries.
- The submit form's `submitting` and `error` flags, and the redirect after a successful post, are presentation state and are not modelled.
- A logout route is not part of this model.
