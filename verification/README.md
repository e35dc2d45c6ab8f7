# Resource screens of the mental-health admin dashboard, modelled in Dafny

The admin dashboard has two near-identical resource screens, Expert and
Exercise. Each shows one page of records from a REST backend, with page
buttons under the table, and a modal form that creates a record or edits one.
This project models the view-state machine behind both screens once, in
`ResourceScreen`. It instantiates that machine twice: `Expert` uses the expert
form, the `experts` endpoints and the `avatar` file field; `Exercise` uses the
exercise form, the `exercises` endpoints and the `media_url` file field.

- `Js` (js_values.dfy) models the JavaScript values that reach the state:
  truthiness, and the text a value becomes in a template literal. A record id
  becomes part of a request path this way. Integers render in decimal, with a
  proved parse-back.
- `JsObject` (js_object.dfy) models plain objects as property lists in
  `Object.keys` order with unique keys. It covers property access, and the
  spread update `{...prev, [k]: v}` that every form edit uses.
- `Pagination` (pagination.dfy) models the page guard and the page-button
  window `[...Array(totalPages)].slice(page - 1, page + 4)`. It follows
  `Array.prototype.slice` index clamping exactly, and the RangeError that
  `Array(n)` throws for an impossible length.
- `ResourceScreen` (resource_screen.dfy) holds the screen state and one pure
  transition per handler: list fetch, page change, open, close, input edit,
  file pick and save. Each HTTP call is replaced by the response it gets,
  passed in as a value. Each transition returns the next state and the
  requests it issued. `Step`/`Run` replay any sequence of user actions. The
  invariant `Consistent` is proved to hold after every action: a closed modal
  holds the default draft and no errors, and the page is at least 1.
- `Expert` (expert.dfy) and `Exercise` (exercise.dfy) supply each screen's
  default draft, endpoint prefix, file field and failure message. They restate
  the generic results with the concrete values.

Each handler is one atomic step. The screen's `loading` flag is up only while
a request is pending, so between steps it is always down.

Three behaviours of the code are easy to misread:
- The page window is clamped at the last page. It slices an array of length
  `totalPages`, so on page 5 of 7 the buttons are 5, 6, 7 and nothing past 7
  (`Pagination.WindowNearLastPage`).
- Opening the modal never touches the error map; only closing clears it and
  only saving fills it. Because a closed modal always has empty errors, every
  create-mode open from a closed modal still starts with no errors
  (`ResourceScreen.CreateOpenStartsClean`).
- Asking for the page already shown sends no request. The handler sets the
  page state to the value it already has, React skips that unchanged update,
  and the fetch effect does not run again (`ResourceScreen.HandlePageChange`).

## Model

| member | source | states |
|---|---|---|
| `Js.FalsyValues` | mental_admin_web/src/components/dashboard/component/Expert.js:66 | a value fails the `isEdit && expertId` truthiness test exactly when it is `undefined`, `null`, `false`, `0` or `''` |
| `Js.Text` | mental_admin_web/src/components/dashboard/component/Expert.js:92 | in a template literal a string is itself, a number reads back as that number, and `null`/`undefined` spell their names |
| `Js.IntTextRoundTrip` | mental_admin_web/src/components/dashboard/component/Expert.js:115 | parsing the text a numeric id becomes in the update URL gives back that id |
| `Js.NumTextInjective` | mental_admin_web/src/components/dashboard/component/Exercise.js:108 | two numeric ids render to the same URL segment exactly when they are equal |
| `JsObject.Keys` | mental_admin_web/src/components/dashboard/component/Expert.js:110 | `Object.keys` lists one key per property, in the object's property order |
| `JsObject.Get` | mental_admin_web/src/components/dashboard/component/Expert.js:111 | a property read gives `undefined` for an absent key, and any other result is a stored property |
| `JsObject.Put` | mental_admin_web/src/components/dashboard/component/Expert.js:101 | `{...prev, [k]: v}` adds `k` to the key set, reads back `v` at `k` and keeps every other key's value; keys stay unique |
| `JsObject.PutIsMapUpdate` | mental_admin_web/src/components/dashboard/component/Exercise.js:94 | viewed as a map, the spread update is exactly a map update at one key |
| `JsObject.PutKeyOrder` | mental_admin_web/src/components/dashboard/component/Expert.js:101 | the spread update keeps key order: an existing key keeps its place, a new key is appended |
| `Pagination.Slice` | mental_admin_web/src/components/dashboard/component/Expert.js:188 | `slice` returns the elements from the clamped start up to the clamped end, or nothing when the end is not after the start |
| `Pagination.PageWindow` | mental_admin_web/src/components/dashboard/component/Exercise.js:177 | the window fails with a RangeError exactly when `totalPages` is not a valid array length |
| `Pagination.WindowShape` | mental_admin_web/src/components/dashboard/component/Expert.js:188-195 | from page >= 1 the buttons are page, page+1, ..., min(page+4, totalPages): at most five, none when page > totalPages, only the first active, all accepted by the page guard |
| `Pagination.WindowIsGuardedRange` | mental_admin_web/src/components/dashboard/component/Exercise.js:177-185 | a number is in the window if and only if it lies in page..page+4 and the page guard accepts it |
| `Pagination.WindowNearLastPage` | mental_admin_web/src/components/dashboard/component/Expert.js:188-195 | on page 5 of 7 the window is exactly 5 (active), 6, 7 |
| `ResourceScreen.FetchList` | mental_admin_web/src/components/dashboard/component/Expert.js:37-50 | one list request for the page with limit 20; success replaces rows and page count, failure keeps them; loading ends false; nothing else changes |
| `ResourceScreen.HandlePageChange` | mental_admin_web/src/components/dashboard/component/Expert.js:52-60 | the page becomes `n` exactly when `0 < n <= totalPages`; a rejected request or the current page changes nothing and sends nothing; a new page is fetched |
| `ResourceScreen.OpenModal` | mental_admin_web/src/components/dashboard/component/Expert.js:62-71 | the modal opens with the given mode and id, an undefined id stored as `null` by the parameter default; the errors are kept; without edit flag and truthy id the draft is reset and nothing is fetched; otherwise the detail is requested and a success replaces the draft, a failure keeps it |
| `ResourceScreen.CloseModal` | mental_admin_web/src/components/dashboard/component/Expert.js:73-77 | closing yields a closed modal, the default draft and no errors, with all other state kept |
| `ResourceScreen.IdArgument` | mental_admin_web/src/components/dashboard/component/Exercise.js:57 | the id parameter defaults to `null`: an undefined argument becomes `null`, any other id is kept, and truthiness is unchanged |
| `ResourceScreen.ResetForm` | mental_admin_web/src/components/dashboard/component/Expert.js:79-88 | resetting puts back the default draft and changes nothing else |
| `ResourceScreen.FetchDetails` | mental_admin_web/src/components/dashboard/component/Expert.js:90-97 | one request to `{path}/{id}/detail`; a success replaces the draft with the body, a failure changes nothing |
| `ResourceScreen.Initial` | mental_admin_web/src/components/dashboard/component/Expert.js:9-26 | the screen starts on page 1 of 1 with no rows, loading down, a closed create-mode modal, id `null`, the default draft and no errors |
| `ResourceScreen.MissingIdStoredAsNull` | mental_admin_web/src/components/dashboard/component/Expert.js:178 | an Edit click on a row without an id stores `null`, resets the form, and a later save posts to `update/null` |
| `ResourceScreen.HandleInputChange` | mental_admin_web/src/components/dashboard/component/Expert.js:99-102 | an input edit sets exactly the named key, every other draft key keeps its value, and nothing outside the draft changes |
| `ResourceScreen.HandleFileChange` | mental_admin_web/src/components/dashboard/component/Exercise.js:97-99 | a picked file sets exactly the resource's file field; every other key and all non-draft state are kept |
| `ResourceScreen.FormEntries` | mental_admin_web/src/components/dashboard/component/Expert.js:109-112 | the payload has one field per draft property, in order, with the property's key and value |
| `ResourceScreen.PayloadMatchesDraft` | mental_admin_web/src/components/dashboard/component/Exercise.js:102-105 | a name occurs in the payload if and only if it is a draft key, and its field carries the draft's value for it |
| `ResourceScreen.HandleSave` | mental_admin_web/src/components/dashboard/component/Expert.js:108-140 | posts the draft to the mode's endpoint; 200/201 close the modal and refetch the current page; another resolved status changes nothing; 400 installs `errors` or `{error}`; any other rejection installs the generic message; failures keep everything but the errors |
| `ResourceScreen.ValidationErrors` | mental_admin_web/src/components/dashboard/component/Expert.js:134-135 | a 400 body's `errors` object becomes the error map when present; otherwise the map is `{error: body.error}` |
| `ResourceScreen.SavePathIdentifiesTarget` | mental_admin_web/src/components/dashboard/component/Expert.js:114-116 | equal save URLs imply the same mode and, in edit mode, ids with the same text: create and update never collide |
| `ResourceScreen.DistinctIdsDistinctUpdatePaths` | mental_admin_web/src/components/dashboard/component/Exercise.js:107-109 | different numeric ids are saved to different update URLs |
| `ResourceScreen.EditFlagWithFalsyId` | mental_admin_web/src/components/dashboard/component/Expert.js:62-71 | opening with the edit flag and id 0 keeps edit mode but resets the draft and fetches nothing, and a later save targets `update/0` |
| `ResourceScreen.Step` | mental_admin_web/src/components/dashboard/component/Expert.js:186-242 | only an open opens the modal, and only a close or a 200/201 save closes it; only save and close change the errors; input edits, file picks and closing send no request |
| `ResourceScreen.Run` | mental_admin_web/src/components/dashboard/component/Exercise.js:174-187 | without an open a closed modal stays closed; a run of page changes alone leaves the draft, the errors and the modal as they were |
| `ResourceScreen.MountedIsConsistent` | mental_admin_web/src/components/dashboard/component/Expert.js:9-26 | the state after the first fetch has page 1, loading down, and a closed modal with the default draft and no errors |
| `ResourceScreen.StepPreservesConsistent` | mental_admin_web/src/components/dashboard/component/Expert.js:62-140 | every enabled user action keeps the page positive, loading down, and a closed modal clean |
| `ResourceScreen.RunStaysConsistent` | mental_admin_web/src/components/dashboard/component/Exercise.js:68-72 | after any sequence of actions and responses, a closed modal holds the default draft and no errors |
| `ResourceScreen.ErrorsChangeOnlyOnSaveOrClose` | mental_admin_web/src/components/dashboard/component/Expert.js:73-77 | no action other than saving or closing changes the error map |
| `ResourceScreen.CreateOpenStartsClean` | mental_admin_web/src/components/dashboard/component/Exercise.js:57-72 | a create-mode open from a closed, consistent screen gives the default draft and empty errors |
| `ResourceScreen.PageChangeIdempotent` | mental_admin_web/src/components/dashboard/component/Exercise.js:47-55 | asking for the same page twice is the same as asking once; the second request changes nothing and sends nothing |
| `ResourceScreen.WindowButtonNavigates` | mental_admin_web/src/components/dashboard/component/Exercise.js:180 | clicking any window button but the active one moves to its page and fetches that page |
| `ResourceScreen.FetchReplacesCache` | mental_admin_web/src/components/dashboard/component/Exercise.js:32-45 | after a successful fetch the screen does not depend on the rows or page count shown before |
| `ResourceScreen.FailedPageFetchKeepsRows` | mental_admin_web/src/components/dashboard/component/Expert.js:37-60 | an accepted page change whose fetch fails shows the new page number over the old rows |
| `ResourceScreen.SaveSuccessRefetchesCurrentPage` | mental_admin_web/src/components/dashboard/component/Exercise.js:119-121 | a successful save leaves a closed, clean modal and refetches the page being shown, not page 1 |
| `Expert.DefaultDraftFields` | mental_admin_web/src/components/dashboard/component/Expert.js:19-26 | the expert form starts as name '', specialization 0, bio '', contact_info '', phone_number '', avatar null, in that key order |
| `Expert.ListRequest` | mental_admin_web/src/components/dashboard/component/Expert.js:40-42 | the expert list is requested from `experts` with the page and limit 20 |
| `Expert.CreateOpenResetsForm` | mental_admin_web/src/components/dashboard/component/Expert.js:62-88 | a create-mode open shows the six-field empty expert form, keeps the errors and fetches nothing |
| `Expert.EditOpenLoadsDetail` | mental_admin_web/src/components/dashboard/component/Expert.js:90-97 | an edit-mode open requests `experts/{id}/detail`; success replaces the form with the body, failure keeps it |
| `Expert.FileChangeSetsAvatar` | mental_admin_web/src/components/dashboard/component/Expert.js:104-106 | a picked file changes `avatar` and no other key |
| `Expert.SaveTarget` | mental_admin_web/src/components/dashboard/component/Expert.js:109-116 | the save posts every draft key to `experts/update/{id}` in edit mode and to `experts/create` otherwise |
| `Expert.SaveFailureMessage` | mental_admin_web/src/components/dashboard/component/Expert.js:132-138 | a rejected save without a 400 response shows "Failed to save expert. Please try again later." |
| `Expert.ClosedModalIsClean` | mental_admin_web/src/components/dashboard/component/Expert.js:16-26 | from the mounted screen, whatever happens, a closed modal holds the empty expert form and no errors |
| `Exercise.DefaultDraftFields` | mental_admin_web/src/components/dashboard/component/Exercise.js:19-24 | the exercise form starts as title '', description '', type '', media_url null, in that key order |
| `Exercise.ListRequest` | mental_admin_web/src/components/dashboard/component/Exercise.js:35-37 | the exercise list is requested from `exercises` with the page and limit 20 |
| `Exercise.CreateOpenResetsForm` | mental_admin_web/src/components/dashboard/component/Exercise.js:57-81 | a create-mode open shows the four-field empty exercise form, keeps the errors and fetches nothing |
| `Exercise.EditOpenLoadsDetail` | mental_admin_web/src/components/dashboard/component/Exercise.js:83-90 | an edit-mode open requests `exercises/{id}/detail`; success replaces the form with the body, failure keeps it |
| `Exercise.FileChangeSetsMedia` | mental_admin_web/src/components/dashboard/component/Exercise.js:97-99 | a picked file changes `media_url` and no other key |
| `Exercise.SaveTarget` | mental_admin_web/src/components/dashboard/component/Exercise.js:102-109 | the save posts every draft key to `exercises/update/{id}` in edit mode and to `exercises/create` otherwise |
| `Exercise.SaveFailureMessage` | mental_admin_web/src/components/dashboard/component/Exercise.js:125-131 | a rejected save without a 400 response shows "Failed to save exercise. Please try again later." |
| `Exercise.ClosedModalIsClean` | mental_admin_web/src/components/dashboard/component/Exercise.js:16-24 | from the mounted screen, whatever happens, a closed modal holds the empty exercise form and no errors |

## Left out

- HTTP transport is not modelled: axios, the base URL read from `process.env`, and the multipart encoding `FormData` applies to values (for example `null` is sent as the text "null"). Requests are reported as a path plus page and limit, or as a path plus the appended `(key, value)` fields. Responses are inputs.
- Asynchronous interleavings are not modelled. Each handler is one atomic step, and the closed-modal invariant is stated under that assumption. This leaves out a detail response arriving after the modal was closed or reopened, a save resolving after a close, overlapping list fetches, and the visible `loading` phase while a request is pending.
- Rendering is not modelled: JSX, CSS, react-modal, the `<img>`/`<video>` cells, the specialization and type option lists, and the inert Delete button.
- Response bodies are assumed to have the expected shape. A list body is rows plus an integer `total_page`. A detail body is an object. The `errors` field of a 400 body is either an object or absent or null. Other shapes, such as a missing `experts` field or a truthy non-object `errors`, are not modelled. A 400 response whose body is missing makes the source throw inside its catch block; that is not modelled either.
- The screen crashing on a bad page count is not modelled. A `total_page` in a list body that is negative or above 2^32 - 1 is stored as is. The next render then throws a RangeError in `[...Array(totalPages)]`, and React unmounts the screen. `Pagination.PageWindow` reports that RangeError, but `Step` and `Run` keep accepting actions as if the screen were still shown.
- The `console.error` logging on each failure path is not modelled. It is a side channel with no effect on the screen's state. This covers the list fetch, the detail fetch, an unexpected save status and a rejected save.
- Numbers are integers. Fractional page numbers and ids are not modelled.
- `Js.IntText` always renders plain decimal. JavaScript switches to exponent notation at 10^21, far above any record id.
- `JsObject.Keys` follows insertion order. JavaScript lists integer-like keys first in ascending order; the form keys are never integer-like.
- The login screen (mental_admin_web/src/components/login/Login.js) is not modelled. It is one POST, a two-way choice of error message, and a timed redirect.
- The dashboard shell (mental_admin_web/src/components/dashboard/Dashboard.js) is not modelled. Tab selection is one assignment plus a render switch, and Logout is an alert.
