# Fitness-coaching client: session guard, login and page controllers

A Dafny model of the client-side state logic of a React single-page front end
for a fitness-coaching application. Students submit body-measurement records
and browse their history; coaches review records, annotate them, assign a
routine by name and build routines out of exercises. The model covers:

- the **session guard** (`ProtectedRoute`) and the **route table** of the
  application shell, as pure functions over the browser storage
  (`localStorage`, a `map<string, string>`);
- the **login screen**, whose delayed step writes `isLoggedIn` and `userRole`
  into a shared `LocalStorage` object and picks a landing page by role;
- the **coach's records controller**: a joined initial load of records and
  routines, an edit modal buffering `observations` and `activeRoutine`, and a
  confirm-then-apply save that replaces exactly those two fields of the
  records whose id matches;
- the **routine builder**: exercise input with `parseInt(v) || 0` for the
  counts (ECMAScript `parseInt` modelled in full, on mathematical integers),
  validated append, remove-by-index and a validated submit, with the
  invariant that every stored exercise is valid;
- the **profile form**: single-field updates and the DTO whose measurement
  dictionary holds exactly the filled-in keys;
- the **student records page** and the **routine catalogue**: load state
  machines, render precedence (loading, then error, then content) and
  select/close of a routine.

Each React component whose hooks hold state is a class whose fields are those
state variables; `Snapshot()` gathers them into a value so that every handler
states its whole new state as `old(Snapshot())` with the fields it changes.
Backend calls are parameters of type `Outcome<T>` (`Success(value)` or
`Failure(message?)`), and each handler whose call carries arguments returns
the request it would send.
A `setTimeout` step is a separate method (`Login.LoginScreen.CompleteLogin`,
`GetRecords.RecordsController.CloseTimerFires`) or a recorded pending
navigation (`CreateRoutine`).

Consequences of the code as written, proved below:

- The login step never writes `authToken`, so right after login the guard
  admits exactly when a non-empty token was already stored; from a storage
  without a token, the page login navigates to redirects straight back to
  `/login` (`Login.LoginWithoutTokenBouncesBack`).
- The redirect two seconds after a routine is created goes to `/rutinas`,
  which is not a declared route, so the router's catch-all sends it to
  `/login` (`CreateRoutine.AfterCreateRedirectEndsAtLogin`).

The bearer-token interceptor of `src/service/api.ts` is commented out, so no
credential is attached to requests; login obtains no token; the routine
selector only stores routine names as `activeRoutine`.

Files: `common.dfy` (shared types, storage, label map, render precedence),
`app.dfy`, `login.dfy`, `js_parse_int.dfy`, `create_routine.dfy`,
`get_records.dfy`, `user_profile_form.dfy`, `my_records.dfy`,
`routines_page.dfy`.

## Model

| member | source | states |
|---|---|---|
| `Common.GetItem` | src/App.tsx:26-27 | `localStorage.getItem`: a value exactly when the key is stored, and then the stored string (also src/pagesUsers/MyRecords.tsx:17 and src/pagesUsers/UserProfileForm.tsx:24) |
| `Common.Truthy` | src/App.tsx:27 | JavaScript truthiness of a `string \| null`: null and "" are falsy, and a truthy value is a non-empty string (also the `!storedUserId` test at src/pagesUsers/MyRecords.tsx:19) |
| `Common.OrElse` | src/pagesCoaches/GetRecords.tsx:31 | `s \|\| fallback` on an optional string: the string when non-empty, else the fallback; never empty when the fallback is not |
| `Common.MeasurementLabel` | src/pagesUsers/MyRecords.tsx:111-115 | the label differs from the key exactly for chest, waist, hips, arms, legs (the same expression is at src/pagesCoaches/GetRecords.tsx:185-189); any other key is shown as itself |
| `Common.MeasurementLabelSpec` | src/pagesUsers/MyRecords.tsx:111-115 | the five labels are pairwise distinct and no label is itself one of the five keys |
| `Common.LocalStorage.SetItem` | src/Manito/Login.tsx:21-22 | `localStorage.setItem`: the key takes the value, every other key keeps its value |
| `Common.RenderScreen` | src/pagesUsers/MyRecords.tsx:54-76 | loading wins over everything, a truthy error over the list, the list is shown only when neither; the same precedence is used at src/pagesCoaches/GetRecords.tsx:102-124 and src/pagesCoaches/RoutinesPage.tsx:38-44 |
| `App.IsAuthenticated` | src/App.tsx:26-29 | the session is valid exactly when `isLoggedIn` is stored as "true" and a non-empty `authToken` is stored |
| `App.ProtectedRoute` | src/App.tsx:25-34 | children rendered unchanged exactly when `isLoggedIn` is the string "true" and a non-empty `authToken` is stored; otherwise a redirect to `/login`; the storage is only read |
| `App.FlagMustBeExactlyTrue` | src/App.tsx:26-31 | "TRUE", "1", "True", "yes", "" or an absent flag deny whatever the token |
| `App.Resolve` | src/App.tsx:40-90 | undeclared paths redirect to `/login`; `/login` always shows the login page; a page other than login is shown only with a valid session, and then the declared one |
| `App.OnlyLoginIsPublic` | src/App.tsx:42-86 | `/login` is the only declared route not wrapped in the guard |
| `App.NoSessionLeadsToLogin` | src/App.tsx:25-90 | without a valid session every path ends at the login page |
| `Login.LoginTarget` | src/Manito/Login.tsx:24-28 | `/admin` exactly for role "entrenador", `/` for every other role |
| `Login.AfterLogin` | src/Manito/Login.tsx:21-22 | after the login step `isLoggedIn` is "true" and `userRole` the role; no other key is added or changed |
| `Login.LoginAdmitsOnlyWithPriorToken` | src/Manito/Login.tsx:20-31 | the token is untouched by login, so the guard admits right after login exactly when a truthy token was stored before |
| `Login.LoginWithoutTokenBouncesBack` | src/Manito/Login.tsx:20-31 | with no stored token, the landing page of any role redirects back to `/login` |
| `Login.LoginTargetIsGuarded` | src/Manito/Login.tsx:24-28 | both landing pages are declared, guarded routes |
| `Login.LoginScreen.constructor` | src/Manito/Login.tsx:9-11 | initial role "estudiante", not loading, empty error, nothing scheduled |
| `Login.LoginScreen.SelectRole` | src/Manito/Login.tsx:53 | only the role changes |
| `Login.LoginScreen.HandleLogin` | src/Manito/Login.tsx:13-37 | loading on, error "", the delayed step scheduled with the current role; nothing else changes |
| `Login.LoginScreen.CompleteLogin` | src/Manito/Login.tsx:20-31 | storage becomes `AfterLogin` of the old storage and the captured role, the target is `LoginTarget` of that role, loading off |
| `JsParseInt.ParseInt` | src/pagesCoaches/CreateRoutine.tsx:45 | a number only when the text, after leading white space, starts with a sign or a digit; a negative number only after a leading '-' |
| `JsParseInt.IntOrZero` | src/pagesCoaches/CreateRoutine.tsx:45 | NaN is stored as 0; a parsed number is stored as read (a parsed 0 stays 0) |
| `JsParseInt.DecimalRoundTrip` | src/pagesCoaches/CreateRoutine.tsx:45 | `parseInt(v) \|\| 0` of the decimal text of n is n, and of "-" and that text is -n |
| `JsParseInt.NoDigitsIsZero` | src/pagesCoaches/CreateRoutine.tsx:45 | text whose first non-blank character is not a sign or digit parses to NaN and is stored as 0 |
| `JsParseInt.NonNumericExamples` | src/pagesCoaches/CreateRoutine.tsx:45 | "" and "abc" are stored as 0 |
| `JsParseInt.DecimalThenNonDigit` | src/pagesCoaches/CreateRoutine.tsx:45 | the decimal text of n followed by nothing or by any tail whose first character is not a digit reads as n, except an 'x' or 'X' after a lone "0", which starts a hexadecimal number |
| `JsParseInt.DecimalPointExample` | src/pagesCoaches/CreateRoutine.tsx:45 | "3.7" is stored as 3 |
| `JsParseInt.HexExample` | src/pagesCoaches/CreateRoutine.tsx:45 | "0x1A" is stored as 26 |
| `CreateRoutine.ValidExercise` | src/pagesCoaches/CreateRoutine.tsx:54-57 | the reset exercise form is never addable |
| `CreateRoutine.TypedExerciseIsValid` | src/pagesCoaches/CreateRoutine.tsx:41-57 | typing a name, a description and the decimal text of two positive counts makes the exercise addable |
| `CreateRoutine.ClearedCountBlocksAdd` | src/pagesCoaches/CreateRoutine.tsx:45-57 | a cleared sets or repetitions input stores 0, and the exercise is then rejected |
| `CreateRoutine.SetRoutineField` | src/pagesCoaches/CreateRoutine.tsx:32-38 | the named field takes the value; other fields and the exercise list are unchanged |
| `CreateRoutine.SetExerciseField` | src/pagesCoaches/CreateRoutine.tsx:41-47 | `sets`/`repetitions` store `parseInt(v) \|\| 0`, the text fields store the value verbatim; every other field keeps its value |
| `CreateRoutine.TypedCountIsStored` | src/pagesCoaches/CreateRoutine.tsx:45 | typing the decimal text of a count stores that count |
| `CreateRoutine.RemoveAt` | src/pagesCoaches/CreateRoutine.tsx:77-82 | length drops by one exactly for an index in range; every remaining element was in the list |
| `CreateRoutine.RemoveAtInRange` | src/pagesCoaches/CreateRoutine.tsx:80 | an index in range deletes exactly that element and keeps the rest in order |
| `CreateRoutine.RemoveAtOutOfRange` | src/pagesCoaches/CreateRoutine.tsx:80 | an index out of range leaves the list unchanged |
| `CreateRoutine.RemoveAtKeepsValid` | src/pagesCoaches/CreateRoutine.tsx:77-82 | removal keeps every stored exercise valid |
| `CreateRoutine.SubmitError` | src/pagesCoaches/CreateRoutine.tsx:89-97 | no error exactly when name, objective, description are non-empty and there is an exercise; a missing field is reported before an empty list |
| `CreateRoutine.AfterCreateRedirectEndsAtLogin` | src/pagesCoaches/CreateRoutine.tsx:109-111 | `/rutinas` is not a declared route, so the redirect lands on `/login` |
| `CreateRoutine.RoutineBuilder.constructor` | src/pagesCoaches/CreateRoutine.tsx:8-29 | empty draft and exercise, no error, not loading, no success |
| `CreateRoutine.RoutineBuilder.HandleRoutineChange` | src/pagesCoaches/CreateRoutine.tsx:32-38 | only the draft's named field changes; the clean-list invariant holds |
| `CreateRoutine.RoutineBuilder.HandleExerciseChange` | src/pagesCoaches/CreateRoutine.tsx:41-47 | only the pending exercise changes, by `SetExerciseField` |
| `CreateRoutine.RoutineBuilder.HandleAddExercise` | src/pagesCoaches/CreateRoutine.tsx:50-74 | invalid: error set, everything else unchanged; valid: appended at the end, exercise form reset, error cleared; every stored exercise stays valid |
| `CreateRoutine.RoutineBuilder.HandleRemoveExercise` | src/pagesCoaches/CreateRoutine.tsx:77-82 | the list becomes `RemoveAt` of it; nothing else changes |
| `CreateRoutine.RoutineBuilder.HandleSubmit` | src/pagesCoaches/CreateRoutine.tsx:85-118 | a validation error is set with no call; otherwise the draft is sent; success sets `success` and schedules the redirect, failure sets the fixed error and keeps the form; loading off |
| `GetRecords.JoinFetches` | src/pagesCoaches/GetRecords.tsx:22-25 | succeeds exactly when both fetches do, with both lists; a single failure passes its message through |
| `GetRecords.ApplyUpdate` | src/pagesCoaches/GetRecords.tsx:82-86 | same length; every record keeps all fields but the two editable ones; matching ids get both buffers; other records unchanged |
| `GetRecords.ApplyUpdateIdempotent` | src/pagesCoaches/GetRecords.tsx:82-86 | applying the same confirmed update twice equals applying it once |
| `GetRecords.ApplyUpdateUnknownId` | src/pagesCoaches/GetRecords.tsx:82-86 | an id no record carries leaves the list as it was |
| `GetRecords.SaveUntouchedBuffers` | src/pagesCoaches/GetRecords.tsx:55-88 | opening a record whose two fields are set and saving untouched buffers changes no record, provided every record carrying that id is the record being edited |
| `GetRecords.SaveUntouchedAbsentField` | src/pagesCoaches/GetRecords.tsx:55-88 | a record with an absent field opens with '' in that buffer, so an untouched save stores `Some("")` there and the list changes |
| `GetRecords.RecordsController.constructor` | src/pagesCoaches/GetRecords.tsx:8-16 | loading, no error, empty lists, modal closed |
| `GetRecords.RecordsController.FetchData` | src/pagesCoaches/GetRecords.tsx:19-35 | both lists set only when both fetches succeed; otherwise neither, and the error is the message or 'Error al cargar la información'; loading off either way |
| `GetRecords.RecordsController.HandleEditRecord` | src/pagesCoaches/GetRecords.tsx:55-60 | called from the records list only (its button is at src/pagesCoaches/GetRecords.tsx:145-150); record being edited set, buffers to its fields or '', modal open and drawn; nothing else changes |
| `GetRecords.RecordsController.SetObservations` | src/pagesCoaches/GetRecords.tsx:229 | only the observations buffer changes |
| `GetRecords.RecordsController.SetActiveRoutine` | src/pagesCoaches/GetRecords.tsx:240-246 | only the routine-name buffer changes |
| `GetRecords.RecordsController.HandleCloseEditModal` | src/pagesCoaches/GetRecords.tsx:62-66 | modal closed and not drawn, no record being edited, no message; nothing else changes |
| `GetRecords.RecordsController.HandleSaveChanges` | src/pagesCoaches/GetRecords.tsx:68-100 | no record being edited: nothing sent or changed; else the payload is only the two buffers for that id; success applies `ApplyUpdate` and schedules the close; failure changes only the message, leaving list and modal |
| `GetRecords.RecordsController.CloseTimerFires` | src/pagesCoaches/GetRecords.tsx:92-94 | runs the close handler on whatever is open then |
| `GetRecords.RecordsController.View` | src/pagesCoaches/GetRecords.tsx:102-124 | loading text exactly while loading, the error exactly when not loading and the error is truthy, otherwise the records list |
| `GetRecords.RecordsController.ModalVisible` | src/pagesCoaches/GetRecords.tsx:219 | the edit modal is drawn only on the records list (never over the loading or error screen of lines 102-124), only while open and only with a record being edited |
| `UserProfileForm.KeyName` | src/pagesUsers/UserProfileForm.tsx:57-64 | every measurement input writes one of the five known keys |
| `UserProfileForm.MeasurementInputs.Set` | src/pagesUsers/UserProfileForm.tsx:43-46 | the named measurement takes the value, the other four keep theirs |
| `UserProfileForm.SetField` | src/pagesUsers/UserProfileForm.tsx:31-37 | only the named field (weight or goal; the user name input is read-only) changes; the user name and the measurements are kept |
| `UserProfileForm.SetMeasurement` | src/pagesUsers/UserProfileForm.tsx:39-48 | only the named measurement changes; every other field of the form, the user name included, is kept |
| `UserProfileForm.InitialUserName` | src/pagesUsers/UserProfileForm.tsx:24 | the stored `username` when present and non-empty, else 'Usuario' |
| `UserProfileForm.BuildBodyMeasurements` | src/pagesUsers/UserProfileForm.tsx:57-64 | the key set is exactly the names of the non-empty inputs; each key maps to the parse of its input |
| `UserProfileForm.FilledKeySet` | src/pagesUsers/UserProfileForm.tsx:57-64 | known keys present exactly for the filled-in inputs form the image of those inputs under the key names |
| `UserProfileForm.AfterSubmitShowsStatistics` | src/pagesUsers/UserProfileForm.tsx:82 | with a valid session the post-submit target shows the statistics page |
| `UserProfileForm.ProfileForm.constructor` | src/pagesUsers/UserProfileForm.tsx:8-21 | empty inputs, idle, no error |
| `UserProfileForm.ProfileForm.LoadUserName` | src/pagesUsers/UserProfileForm.tsx:23-29 | only the user name changes, to `InitialUserName` of the storage |
| `UserProfileForm.ProfileForm.HandleChange` | src/pagesUsers/UserProfileForm.tsx:31-37 | the form data becomes `SetField` of it |
| `UserProfileForm.ProfileForm.HandleMeasurementChange` | src/pagesUsers/UserProfileForm.tsx:39-48 | the form data becomes `SetMeasurement` of it |
| `UserProfileForm.ProfileForm.HandleSubmit` | src/pagesUsers/UserProfileForm.tsx:50-90 | DTO user name and goal from the form, measurements as `BuildBodyMeasurements`; success targets `/Estadisticas`; failure sets the message or the fallback; loading off; form kept |
| `MyRecords.MyRecordsPage.constructor` | src/pagesUsers/MyRecords.tsx:8-11 | loading, no error, no records, empty user id |
| `MyRecords.MyRecordsPage.FetchUserRecords` | src/pagesUsers/MyRecords.tsx:14-34 | no truthy `userId`: nothing requested, fixed error, records kept; else the stored id is kept and requested, records set on success, message or fallback on failure; loading off |
| `MyRecords.MyRecordsPage.View` | src/pagesUsers/MyRecords.tsx:54-76 | loading text exactly while loading, the error exactly when not loading and the error is truthy, otherwise the user's records |
| `RoutinesPage.RoutineListPage.constructor` | src/pagesCoaches/RoutinesPage.tsx:7-10 | empty list, loading, no error, nothing selected |
| `RoutinesPage.RoutineListPage.FetchRoutines` | src/pagesCoaches/RoutinesPage.tsx:14-25 | success: the list is the result, error untouched; failure: the fixed message, list untouched; loading off |
| `RoutinesPage.RoutineListPage.HandleRoutineClick` | src/pagesCoaches/RoutinesPage.tsx:30-32 | only the selection changes, to the clicked routine |
| `RoutinesPage.RoutineListPage.CloseRoutineDetails` | src/pagesCoaches/RoutinesPage.tsx:34-36 | only the selection changes, to none |
| `RoutinesPage.RoutineListPage.View` | src/pagesCoaches/RoutinesPage.tsx:38-44 | loading text exactly while loading, the error exactly when not loading and the error is truthy, otherwise the routine grid |
| `RoutinesPage.RoutineListPage.DetailsShown` | src/pagesCoaches/RoutinesPage.tsx:38-73 | details are drawn only with the grid (not loading, no error), for the selected routine |

## Left out

- `src/service/api.ts`: the HTTP wrapper is not modelled. Its bearer-token interceptor is commented out. Several services the pages call (`routineService`, `getALLrecords`, `updatePhysicalRecord`, `getUserPhysicalHistory`) are not in that file. Every call is an `Outcome` parameter instead.
- Timing: `Promise.all` is one joined outcome. When both fetches reject, which message wins depends on timing, so it is the `recordsRejectFirst` parameter. A response or timer arriving after the page is unmounted is not modelled.
- CreateRoutine.RoutineBuilder.HandleSubmit: the `loading = true` state during the awaited call is not a separate observable state; only the state after the call is modelled. The same holds for UserProfileForm.ProfileForm.HandleSubmit and RoutinesPage.RoutineListPage.FetchRoutines.
- JsParseInt.DecimalRoundTrip: `parseInt` returns a double, so the exact value is not kept beyond 2^53. Strings are sequences of code points, not UTF-16 code units.
- UserProfileForm.BuildBodyMeasurements: `parseFloat` is an uninterpreted parameter returning a `real`. NaN and the parsed values are not modelled.
- `formatDate`: locale date formatting is a library call. The registration date is kept as text.
- Rendering: markup, CSS and the order of measurement entries on screen are not modelled. `navigate(...)` is modelled as the returned or scheduled target path. The back-to-menu buttons only navigate. The browser's constraint validation is not modelled: the `required`, `min`, `max` and `step` attributes of the inputs (src/pagesUsers/UserProfileForm.tsx:135-138 and 228, src/pagesCoaches/CreateRoutine.tsx:151, 164 and 177) stop a submit before the handler runs, so the handler's own missing-field branch in the routine builder is not reachable from that form.
- App.Resolve: paths match by exact string equality. The router's case-insensitive matching and trailing-slash handling are not modelled.
- Login.LoginScreen.HandleLogin: the `catch` branch is not modelled. Scheduling a timer cannot throw, so that branch cannot run.
- Navigation-only pages (`GraphsPage`, `HomePage`, `HomePageAdmin`, `Header`) hold no logic and are not modelled.
- Atomic handlers: GetRecords.RecordsController.HandleSaveChanges, GetRecords.RecordsController.FetchData and MyRecords.MyRecordsPage.FetchUserRecords each run as one step, so user events that arrive while the call is pending are not interleaved. For example, the coach may close the modal while `updatePhysicalRecord` is pending. When the response arrives, the source still applies the update to the list and stores the success message, which nothing draws because the modal is closed. `handleEditRecord` does not clear `updateMessage`, so if a record is reopened before the 2-second close timer fires, the new modal shows the stale success message, and the timer then closes that modal. The model does not show this.
