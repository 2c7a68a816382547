# Booking-app pages as verified state machines

This project models the logic under the three browser pages of a
video-consultation booking product, written in Dafny and proved.

- **Admin media form** (`app/admin/page.js`). A stylist picker and two
  ordered lists of upload slots, work images and work videos. Slots are
  keyed by ids drawn from a shared `nextInputId` counter. A submit sends
  up to three multipart uploads: profile, work images and work videos.
- **Stylist dashboard** (`app/stylist/page.js`). Log in, fetch the pending
  appointments, accept one, take the call, then end it with a notification
  to the server.
- **User dashboard** (`app/user/page.js`). Log in, fetch the stylist
  directory, request a call with a stylist, take the call, then end it
  locally.

Each page is a `class` whose fields are the page's React state and whose
methods are its handlers. Every network call is a parameter of the
handler that awaits it: `Success(fields)` when it resolves, `Failure` when it
rejects (`Net.Response`). For the uploads, the parameter is the set of
endpoints whose request rejects. On the two call pages a ghost field logs
every request the page sends, in order. On the admin page the ghost log
records the upload requests only; its mount-time directory request is not
logged. The slot-list operations are pure functions over
sequences (module `Slots`). Upload planning is a pure function (module
`Uploads`), tied to the imperative submit handler by its contract.

Modules: `Net` (shared value types), `Slots`, `Uploads`, `Admin`, `Rtc`
(the widget's parameter record), `Stylist`, `User`.

Behaviours of the code that the model keeps as they are:
- Nothing guards against connecting while a call is active.
  `HandleConnect` on both call pages works in any state, and a second
  success overwrites the call parameters.
- The three uploads are awaited one after another inside one `try`, so the
  first rejection skips the rest (`Uploads.Issued`,
  `Uploads.IssuedFirstRejection`).
- A failed directory fetch leaves the list as it was.
- The reset sets `nextInputId` back to 1, so ids are reused across
  submits. The id invariant holds between resets, and the reset
  re-establishes it.
- The stylist page's widget gets no `EndCall` callback. Only its End Call
  button runs the leave handler. The user page wires both to the same
  handler.
- Login stores whatever `token` the body carries, even none. The effect
  runs on every change of `token`, and its `if (token)` lets it fetch only
  when the new token is truthy. A resolved login whose body has no token,
  or an empty one, therefore shows the login view and fetches nothing,
  also after an earlier login succeeded.

## Model

| member | source | states |
|---|---|---|
| Slots.Appended | app/admin/page.js:67-70 | appends exactly one slot `{id: next, file: null}` at the end and keeps the existing slots; the id invariant holds afterwards with the counter one higher |
| Slots.RemoveById | app/admin/page.js:72-74 | the result keeps exactly the slots whose id differs from the removed id: every kept slot comes from the list and has another id, and every slot with another id is kept |
| Slots.RemoveConcat | app/admin/page.js:73 | removal distributes over concatenation, so the kept slots stay in their original order |
| Slots.RemoveAbsent | app/admin/page.js:73 | removing an id that no slot has is a no-op |
| Slots.RemoveKeepsAbove | app/admin/page.js:73 | removal keeps any lower bound on the ids |
| Slots.RemoveKeepsIncreasing | app/admin/page.js:73 | removal keeps ids strictly increasing, so it keeps them pairwise distinct |
| Slots.RemoveUnique | app/admin/page.js:72-74 | in a list with distinct ids, removing the id of slot k deletes that slot alone and keeps the others in order |
| Slots.SetFileById | app/admin/page.js:54-63 | same length and same ids; slots with another id are unchanged; every slot with the id gets the file and the preview |
| Slots.SetFileAbsent | app/admin/page.js:54-63 | choosing a file for an id no slot has changes nothing |
| Slots.SetFileUnique | app/admin/page.js:54-63 | in a list with distinct ids, exactly the one matching slot is replaced |
| Slots.SetFileKeepsInvariant | app/admin/page.js:79-84 | setting a file keeps both slot-list invariants (increasing ids, ids below the counter) |
| Uploads.FilesOf | app/admin/page.js:116-121 | the collected files are at most one per slot, and there are none iff no slot has a file |
| Uploads.FilesOfConcat | app/admin/page.js:116-120 | collecting files distributes over concatenation, so files come out in slot order |
| Uploads.FilesOfMembers | app/admin/page.js:116-120 | a file is collected iff some slot holds it |
| Uploads.CollectFiles | app/admin/page.js:129-134 | the `forEach` loop that fills the FormData yields exactly `FilesOf` of the slot list |
| Uploads.ProfilePart | app/admin/page.js:105-112 | definition, no contract of its own: the profile step is one upload to the profile endpoint carrying exactly the chosen image when `profileImage` is set, and nothing otherwise; `Uploads.PlanProfile` states its place in the plan |
| Uploads.BatchPart | app/admin/page.js:121-140 | definition, no contract of its own: a batch step is one upload carrying all collected files when its FormData has a `media` entry (the file list is non-empty), and nothing otherwise |
| Uploads.Plan | app/admin/page.js:103-140 | definition, no contract of its own: the uploads a submit intends to send, in the order it awaits them (profile, work images, work videos), computed from the form as it stands when submit starts; its properties are the rows `Uploads.PlanShape` to `Uploads.OnlyProfileUpload` |
| Uploads.Issued | app/admin/page.js:103-142 | the issued uploads are always a prefix of the plan |
| Uploads.PlanShape | app/admin/page.js:105-140 | at most three uploads, one per endpoint, in the order profile, work images, work videos; each for the selected stylist and with at least one file |
| Uploads.PlanProfile | app/admin/page.js:105-112 | the profile upload is planned iff a profile image is set, and it carries exactly that image |
| Uploads.PlanWorkImages | app/admin/page.js:115-126 | the work-images upload is planned iff some image slot has a file, and it carries exactly those files in slot order |
| Uploads.PlanWorkVideos | app/admin/page.js:129-140 | the work-videos upload is planned iff some video slot has a file, and it carries exactly those files in slot order |
| Uploads.NoFilesNoUploads | app/admin/page.js:105-142 | with no file anywhere nothing is uploaded and the success branch still runs |
| Uploads.OnlyProfileUpload | app/admin/page.js:105-140 | with only a profile image the one upload issued is the profile upload |
| Uploads.IssuedAllAccepted | app/admin/page.js:103-142 | when nothing rejects, every planned upload is issued |
| Uploads.IssuedFirstRejection | app/admin/page.js:103-151 | when something rejects, the issued uploads are the plan through its first rejected upload; the later ones are never sent |
| Uploads.IssuedAppend | app/admin/page.js:103-142 | a later part of the plan is reached only if nothing before it rejected; the whole succeeds iff both parts do |
| Uploads.IssuedParts | app/admin/page.js:103-142 | the same for the plan's three parts in turn |
| Uploads.IssuedSingle | app/admin/page.js:105-140 | a part of at most one upload is issued whole and succeeds iff its endpoint does not reject |
| Admin.FindStylist | app/admin/page.js:168-171 | the selection is the first listed stylist whose id is the parsed number, and none iff no stylist matches or the value does not parse |
| Admin.AdminPage.Valid | app/admin/page.js:16-18 | the slot-list invariant: in each list ids strictly increase and stay below `nextInputId`; it implies that the id the next added slot gets is used by no slot yet |
| Admin.AdminPage.FormIsInitial | app/admin/page.js:144-148 | the form as first rendered and as a full upload leaves it (no profile image or preview, one empty slot with id 0 per list, counter 1); this state satisfies `Valid` |
| Admin.AdminPage.constructor | app/admin/page.js:8-18 | the initial form: one empty slot with id 0 in each list, counter 1, no profile image; the id invariant holds |
| Admin.AdminPage.FetchStylists | app/admin/page.js:21-39 | the directory is replaced only by a resolved body that reports success |
| Admin.AdminPage.SelectStylist | app/admin/page.js:168-171 | the selection becomes the lookup result |
| Admin.AdminPage.ChooseProfileImage | app/admin/page.js:42-49 | a chosen file sets the profile image and preview; no file changes nothing |
| Admin.AdminPage.AddWorkImageInput | app/admin/page.js:67-70 | appends `{id: nextInputId, file: null, preview: null}`, raises the counter by one, changes nothing else, keeps the invariant |
| Admin.AdminPage.AddWorkVideoInput | app/admin/page.js:88-91 | appends `{id: nextInputId, file: null}`, raises the counter by one, changes nothing else, keeps the invariant |
| Admin.AdminPage.RemoveWorkImageInput | app/admin/page.js:72-74 | the image list becomes the filtered list, an absent id changes nothing, the invariant is kept |
| Admin.AdminPage.RemoveWorkVideoInput | app/admin/page.js:93-95 | the video list becomes the filtered list, an absent id changes nothing, the invariant is kept |
| Admin.AdminPage.ChooseWorkImage | app/admin/page.js:51-65 | a chosen file is set, with its preview, on the slot with that id only; no file changes nothing |
| Admin.AdminPage.ChooseWorkVideo | app/admin/page.js:76-86 | a chosen file is set on the slot with that id only; no file changes nothing |
| Admin.AdminPage.AwaitBatch | app/admin/page.js:115-140 | one batch step: the upload is sent only when no earlier upload rejected and the batch has a file; afterwards the log and the failure flag are those of the plan extended by this batch |
| Admin.AdminPage.AwaitUploads | app/admin/page.js:104-141 | the uploads sent are the plan cut after its first rejection, and the failure flag is set iff some planned upload rejected |
| Admin.AdminPage.ResetForm | app/admin/page.js:143-148 | the form returns to its initial state (no profile image or preview, one empty slot with id 0 per list, counter 1), where the id invariant holds |
| Admin.AdminPage.Submit | app/admin/page.js:98-155 | with no stylist: no change at all; otherwise the log grows by the issued uploads, `isUploading` ends false, and the form is reset to its initial state iff no upload rejected, else left as it was |
| Rtc.AppIdFrom | app/user/page.js:191 | the configured id when it is a non-empty string, else the literal fallback; never empty |
| Net.Truthy | app/stylist/page.js:23 | definition, no contract of its own: JavaScript truthiness of a string that may be `null` or `undefined`, false exactly for `null`/`undefined` and the empty string; it decides the `if (token)` and `!token` tests on both call pages, and the `HandleLogin`, `TokenEffect` and `Login` contracts state their effects through it |
| Stylist.StylistPage.LoginViewShown | app/stylist/page.js:244 | definition, no contract of its own: the login form is rendered iff the token is falsy, otherwise the appointment list; `HandleLogin` states how a login decides it |
| Stylist.StylistPage.CallViewShown | app/stylist/page.js:291 | definition, no contract of its own: the widget and the End Call button are rendered iff `videocall` is set and `rtcProps` is present; the condition sits outside the login ternary, so it does not depend on the token. `HandleConnect` on success makes it true, `HandleLeaveCall` makes it false |
| Stylist.StylistPage.constructor | app/stylist/page.js:13-20 | no token, no appointments, no call |
| Stylist.StylistPage.SetEmail | app/stylist/page.js:251 | the email input stores its value |
| Stylist.StylistPage.SetPassword | app/stylist/page.js:258 | the password input stores its value |
| Stylist.StylistPage.HandleLogin | app/stylist/page.js:28-35 | one login request; a resolved login sets the token to the body's token, a rejected one leaves it; afterwards the login view shows iff the resolved body's token is falsy, and a rejected login leaves the view as it was |
| Stylist.StylistPage.FetchPendingAppointments | app/stylist/page.js:37-47 | one request with the current token; success replaces the list wholesale, failure leaves it |
| Stylist.StylistPage.TokenEffect | app/stylist/page.js:22-26 | the fetch runs iff the token changed and is truthy; otherwise nothing happens |
| Stylist.StylistPage.Login | app/stylist/page.js:22-35 | a login click fetches the appointments iff it stored a new truthy token |
| Stylist.StylistPage.HandleConnect | app/stylist/page.js:49-74 | on success: appointment id, channel name, `rtcProps = {literal app id, channel, agoraToken, uid, 'host'}` and `videocall` are set and the call view shows, whatever the previous call state; on failure none of them changes |
| Stylist.StylistPage.OnConnectButton | app/stylist/page.js:279-284 | connecting from the list accepts that appointment's id, with the same effects as `HandleConnect`: on success the appointment id, channel name, the full `rtcProps` record and `videocall` are set; on failure none changes |
| Stylist.StylistPage.HandleLeaveCall | app/stylist/page.js:76-88 | one end request for the given id; then, however it settles, `videocall` is false and `rtcProps` null; the appointment id and token stay |
| Stylist.StylistPage.OnEndCallButton | app/stylist/page.js:297 | the End Call button ends the current appointment and hides the call view |
| User.UserPage.LoginViewShown | app/user/page.js:217 | definition, no contract of its own: the login form is rendered iff the token is falsy, otherwise the stylist list; `HandleLogin` states how a login decides it |
| User.UserPage.CallViewShown | app/user/page.js:284 | definition, no contract of its own: the widget and the End Call button are rendered iff `videocall` is set and `rtcProps` is present, independent of the token. `HandleConnect` on success makes it true, `HandleLeaveCall` makes it false |
| User.UserPage.constructor | app/user/page.js:144-150 | no token, no stylists, no call |
| User.UserPage.SetEmail | app/user/page.js:224 | the email input stores its value |
| User.UserPage.SetPassword | app/user/page.js:231 | the password input stores its value |
| User.UserPage.HandleLogin | app/user/page.js:158-165 | one login request; a resolved login sets the token to the body's token, a rejected one leaves it; afterwards the login view shows iff the resolved body's token is falsy, and a rejected login leaves the view as it was |
| User.UserPage.FetchStylists | app/user/page.js:167-178 | one request with the current token; success replaces the list wholesale, failure leaves it |
| User.UserPage.TokenEffect | app/user/page.js:152-156 | the fetch runs iff the token changed and is truthy; otherwise nothing happens |
| User.UserPage.Login | app/user/page.js:152-165 | a login click fetches the directory iff it stored a new truthy token |
| User.UserPage.HandleConnect | app/user/page.js:180-208 | on success: channel name, `rtcProps = {env-or-literal app id, channel, agoraToken, uid: userId, 'host'}` and `videocall` are set and the call view shows, whatever the previous call state; on failure none of them changes |
| User.UserPage.OnConnectButton | app/user/page.js:266-267 | connecting from the list requests that stylist's `_id`, with the same effects as `HandleConnect`: on success the channel name, the full `rtcProps` record (uid from `userId`) and `videocall` are set; on failure none changes |
| User.UserPage.HandleLeaveCall | app/user/page.js:210-213 | no request; `videocall` false and `rtcProps` null; on a page with no call it changes nothing, so it is idempotent |
| User.UserPage.OnWidgetEndCall | app/user/page.js:288 | the widget's EndCall runs the leave handler |
| User.UserPage.OnEndCallButton | app/user/page.js:291 | the End Call button runs the same leave handler, with the same effect |

## Left out

- HTTP transport: URLs, headers, JSON and FormData encoding. Each call is reduced to its settled outcome and to the fields the page reads.
- Responses that resolve without a field the page reads. The page would store `undefined` (or crash when rendering a list), and these are not distinguished. The exception is the login token, which is optional.
- Distinguishing rejection causes. axios (call pages) rejects on a network error or a non-2xx status. On the admin page `fetch` rejects only on a network error; the directory request can also reject in `response.json()` when the body does not parse (app/admin/page.js:29). All of these are `Failure`.
- Upload errors that do not reject. The three upload requests (app/admin/page.js:108, 122, 136) never read their response, so an HTTP error status from an upload endpoint resolves like a success. Such an endpoint does not belong in `rejects`, and the submit then reports success and resets the form. `rejects` holds only the endpoints whose request fails at the network level.
- The video widget and its dynamic import. Only the `rtcProps` record handed to it is modelled.
- Object URLs, the `localStorage` token read, `alert` and `console`. These are browser side effects. Previews are opaque strings passed in, and the admin's submit alert is modelled as the returned `Report`.
- JSX, styles and animation. The only render conditions modelled are the login/list switch and the call view (`LoginViewShown`, `CallViewShown`).
- The admin page shows a slot's Remove button only while its list has more than one slot. `RemoveWorkImageInput` and `RemoveWorkVideoInput` model the handlers, which have no such guard.
- React scheduling: batched state updates, stale closures and overlapping in-flight requests. Handlers run sequentially to completion. `TokenEffect` is the effect run after the render that follows a token change.
- `isUploading` while the uploads are in flight. Only its value after submit is stated. The disabled submit button is presentation.
- The admin page's unused state (`workImages`, `workVideos`, `workImagePreviews`).
- Identifiers other than integers and strings. `Net.Key` is `Number(int)` or `Text(string)`; non-integral numbers, NaN, Infinity and other types are left out. The model therefore cannot express a stylist id such as 2.5, which `parseInt` of the selected option value (app/admin/page.js:169) truncates to 2, so that stylist can never be selected.
- The admin page's directory request on mount is not logged. `Admin.AdminPage.FetchStylists` models only its effect on the list.
