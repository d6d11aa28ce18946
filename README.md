# Starset contributor app — a Dafny model

Starset is a data-collection app. Admins create tasks: audio recording, photo capture, image labelling, text annotation and surveys. Contributors pick tasks from a list, work through a consent-and-execute wizard and submit their work. Submissions go to an Express back end, which stores the files in Backblaze B2 and writes rows to a Supabase (PostgREST) database.

This project models the core of both halves.

Back end:

- `B2Upload`, the storage adapter. It keeps the upload URL and token cached. On a 401 it re-authenticates once and retries the upload once. It builds the public URL of a stored file.
- `Submissions`, the three submission routes. This covers:
  - the upload middleware: a 50 MiB limit and a MIME filter;
  - the field checks;
  - the object keys;
  - upload first, then one insert;
  - the answers.
- `AdminTasks`, `ContributorTasks` and `UserSubmissions`, the task and submission-listing routes. Database queries are modelled by `TableQuery` (equality filters, ordering newest first) and by `.single()` as PostgREST answers it.

Front end:

- `AppShell` is the application shell (`App.tsx`): its state, its handlers and what it renders. It also holds the avatar initials.
- `SidebarNav` is the navigation sidebar.
- `TaskListPage` is the task list and its filter.
- `TaskExecutionPage` is the task-execution wizard.
- `AdminCreateTaskPage` is the task-creation form.
- `LoginPage`, `SignupPage` and `CompleteProfilePage` are the sign-in, sign-up and profile-completion pages.
- `ApiConfig` is the endpoint table.
- `TaskLifecycle` connects the pieces: a task created on the admin page, inserted by the admin route, and then seen, or not seen, by contributors. It also covers a submission listed back to its user.

Modelling choices:

- **State.** Code that keeps state is modelled as classes:
  - the cached upload credentials;
  - the storage service's call log;
  - the submissions table;
  - the shell's React state;
  - the wizard's state;
  - the forms.
  Each such class has a `State()` snapshot or field-level `ensures` that tie every method to a specification function. Properties are proved about those functions.
- **Outside services.** Answers from Supabase, B2, `fetch` and the browser's media devices are given as parameters. A throw is its own case.
- **JavaScript semantics.** The following are written out explicitly:
  - truthiness;
  - `||` defaults;
  - `split`/`trim`;
  - a template string printing `undefined`;
  - `JSON.stringify` dropping `undefined` keys.

Where the code does not do what its comments, names or messages suggest, the model follows the code:

- **Rejected files.** A file with a non-audio MIME type is not answered with a client error by the route. The upload filter hands an error to the framework, and this code does not define an error handler for it. This is modelled as `Forwarded(FilterRejected)`.
- **The image route's filter.** The image route is not free of a MIME allow-list. It shares the audio filter, so no `image/*` file ever reaches its handler (`Submissions.ImageFilesNeverPass`).
- **Authentication inside `try`.** The first authentication of an upload runs inside the `try`. A 401 from that authentication therefore also takes the re-authenticate-and-retry path.

## Model

| member | source | states |
|---|---|---|
| B2Upload.PublicUrlDeterminesFileName | starset-backend/src/utils/b2Upload.ts:66-71 | The public URL of a stored file determines its file name: two files with the same URL in one bucket have the same name. |
| B2Upload.AtMostTwoAttempts | starset-backend/src/utils/b2Upload.ts:44-99 | One `uploadToB2` call makes between one and four exchanges with the storage service. At most two are authentications (each one `authorize` plus `getUploadUrl`) and at most two are uploads. |
| B2Upload.AuthenticatesFirstIffCacheMissing | starset-backend/src/utils/b2Upload.ts:50-62 | A call authenticates before its first upload exactly when the cached upload URL or token is missing. Otherwise its first call is an upload with the cached URL and token. |
| B2Upload.RetryOnlyAfter401 | starset-backend/src/utils/b2Upload.ts:72-98 | Only a 401 leads to a further call: every failed call but the last one has status 401. There is at most one such failure. |
| B2Upload.After401ReauthenticateAndRetryOnce | starset-backend/src/utils/b2Upload.ts:76-94 | The first failure with status 401 is followed by exactly one authentication. If that succeeds, exactly one more upload follows, with the fresh URL and token and the same file, and nothing after it. |
| B2Upload.OutcomeIsLastReply | starset-backend/src/utils/b2Upload.ts:72-98 | A call fails exactly when its last exchange with the service failed, and it rethrows that exchange's error unchanged. A call that returns a URL ended with a stored upload. |
| B2Upload.UrlIgnoresReplies | starset-backend/src/utils/b2Upload.ts:66-71 | Every successful call returns the same URL, built from the bucket and the file name alone, whatever the service replied on the way. |
| B2Upload.EveryPutSendsTheFile | starset-backend/src/utils/b2Upload.ts:56-62 | Every upload of a call, the retry included, sends the caller's file name and content type. |
| B2Upload.CacheAfterRun | starset-backend/src/utils/b2Upload.ts:9-11 | After a call, the cached URL and token are those of the last successful authentication. They are cleared when the re-authentication after a 401 failed. Without any authentication, or after a single failed first authentication, they are left as they were. |
| B2Upload.Single401ThenSuccess | starset-backend/src/utils/b2Upload.ts:76-94 | A single 401 followed by a successful retry returns the public URL after exactly one re-authentication (three exchanges). |
| B2Upload.Two401sPropagate | starset-backend/src/utils/b2Upload.ts:76-97 | Two 401s in a row throw the second error. There is no third upload. |
| B2Upload.AudioKeyLayout | starset-backend/src/utils/b2Upload.ts:107-111 | For ids without `/`, an audio key splits at `/` into `audio`, the user id, and a file name that starts with the task id and ends in `.webm`. |
| B2Upload.StorageService.Authenticate | starset-backend/src/utils/b2Upload.ts:16-35 | Returns the service's next authentication reply and appends it to the call log, which gains one authentication and no upload. |
| B2Upload.StorageService.UploadFile | starset-backend/src/utils/b2Upload.ts:56-62 | Returns the service's next upload reply and logs the upload with its URL, token, file name and content type. |
| B2Upload.B2Uploader.constructor | starset-backend/src/utils/b2Upload.ts:9-11 | The module starts with no cached token, URL or upload token. |
| B2Upload.B2Uploader.AuthenticateB2 | starset-backend/src/utils/b2Upload.ts:16-35 | Makes one authentication. On success it caches the granted URL and token; on failure it throws the error and leaves the cache as it was. |
| B2Upload.B2Uploader.UploadToB2 | starset-backend/src/utils/b2Upload.ts:44-99 | The result, the new cache and the calls made are exactly those of the specification `UploadRun`, from the cache and call counts the call started with. |
| B2Upload.B2Uploader.TryUpload | starset-backend/src/utils/b2Upload.ts:56-71 | The first upload with the cached credentials behaves as `FirstPut`: the URL on success, otherwise the catch block. |
| B2Upload.B2Uploader.Catch | starset-backend/src/utils/b2Upload.ts:72-98 | The catch block behaves as `Recover`. A non-401 error is rethrown at once. A 401 clears the cache, re-authenticates and uploads once more. |
| Submissions.IntakePassesOnlyAudio | starset-backend/src/routes/submissions.ts:9-22 | A request reaches a file handler exactly when it has no file, or has a file whose MIME type starts with `audio/` and whose size is at most 52428800 bytes. |
| Submissions.ImageFilesNeverPass | starset-backend/src/routes/submissions.ts:14-21 | A file whose MIME type starts with `image/` is always refused by the shared filter. |
| Submissions.ImageKeyLayout | starset-backend/src/routes/submissions.ts:119-121 | For an accepted MIME type and ids without `/`, the image key splits into `images`, the user id, and a file name from the task id, time and suffix, whose extension is the MIME subtype. |
| Submissions.FileRowsStartPending | starset-backend/src/routes/submissions.ts:62-74 | The audio and image rows start as `pending_validation` and carry the task id, the user id and the uploaded URL, each in its own column only. |
| Submissions.TextRowStartsPending | starset-backend/src/routes/submissions.ts:186-197 | The text row starts as `pending_validation` with the request's task and user. It has the text and selected-option columns exactly when the request has them, holding the request's values. |
| Submissions.InsertStatusFollowsDatabase | starset-backend/src/routes/submissions.ts:76-92 | On all three routes, an insert answers 201 exactly when the database stored the row, and 500 otherwise. A successful file submission reports the uploaded URL. |
| Submissions.SubmissionsTable.Insert | starset-backend/src/routes/submissions.ts:62-74 | Returns the table's next reply and appends the row to the rows inserted. |
| Submissions.SubmissionRoutes.PostAudio | starset-backend/src/routes/submissions.ts:28-101 | Refused files are forwarded, with no upload and no insert. Missing ids or a missing file give 400, also with no upload and no insert. Otherwise the upload runs as `UploadRun`. An upload error gives 500 with no insert. Otherwise exactly the audio row is inserted and the answer follows the database reply. |
| Submissions.SubmissionRoutes.PostImage | starset-backend/src/routes/submissions.ts:107-169 | The same sequence as the audio route, with one combined 400 check, the image key and the image row. |
| Submissions.SubmissionRoutes.PostText | starset-backend/src/routes/submissions.ts:175-222 | Missing fields give 400 and no insert. Otherwise exactly the text row is inserted and the answer follows the database reply. |
| TableQuery.Eq | starset-backend/src/routes/contributor.tasks.ts:10-16 | `.eq` keeps exactly the rows whose column holds the value. |
| TableQuery.OrderIsNewestFirstPermutation | starset-backend/src/routes/admin.tasks.ts:77-80 | Ordering by `created_at` descending returns the same rows, as a multiset, newest first. |
| AdminTasks.WhitelistKeepsTaskColumns | starset-backend/src/routes/admin.tasks.ts:13-53 | The inserted record has exactly the body's keys among the fifteen task columns, with the body's values. Whitelisting is idempotent. |
| AdminTasks.WhitelistDropsOtherColumns | starset-backend/src/routes/admin.tasks.ts:13-29 | A request body cannot set `visibility`, `is_active`, `id` or `created_at`. |
| AdminTasks.PostDependsOnlyOnTaskColumns | starset-backend/src/routes/admin.tasks.ts:9-67 | The answer depends on the body only through its task columns. It is 201 with the stored row exactly when the database stored it, and 500 with the database's message as text when the database refused it. |
| AdminTasks.GetTasksListsEveryTaskNewestFirst | starset-backend/src/routes/admin.tasks.ts:73-94 | The list is every task of the table, each once, newest first. No data gives an empty list. A database error gives 500 with its message. |
| ContributorTasks.ListsExactlyActivePublicTasks | starset-backend/src/routes/contributor.tasks.ts:9-23 | A task is listed exactly when its status is `active`, its visibility `public` and `is_active` true. It is listed as often as it occurs, newest first. |
| ContributorTasks.ErrorIsBadRequest | starset-backend/src/routes/contributor.tasks.ts:18-20 | A database error is answered with 400 and the database's message. |
| UserSubmissions.CompletedTasksMirrorSubmissions | starset-backend/src/routes/user.submissions.ts:10-50 | `completedTasks` holds the task id of each returned submission, in order and with duplicates. No data gives two empty lists, a database error 500 with its message, and an empty user id 400. |
| UserSubmissions.CompletedTasksBelongToTheUser | starset-backend/src/routes/user.submissions.ts:21-35 | Every non-null task id the list reports belongs to a submission of that user in the table. |
| UserSubmissions.CompletedIffRowReturned | starset-backend/src/routes/user.submissions.ts:56-95 | `completed` is true exactly when a row came back. Code `PGRST116` is not an error; any other error is a 500. |
| UserSubmissions.CompletedIffExactlyOneSubmission | starset-backend/src/routes/user.submissions.ts:67-86 | As written, the task check reports a task completed exactly when the user submitted it exactly once. |
| UserSubmissions.DuplicateSubmissionReadsAsIncomplete | starset-backend/src/routes/user.submissions.ts:67-86 | A task submitted twice by the same user is reported as not completed. |
| UserSubmissions.FixedCompletedIffAnySubmission | starset-backend/src/routes/user.submissions.ts:67-86 | With the corrected query, a task is completed exactly when the user has at least one submission for it. The submission returned belongs to that user and task. |
| ApiConfig.ApiUrl | config/api.ts:4 | The base URL is never empty: an unset or empty setting falls back to `http://localhost:3000`. |
| ApiConfig.FixedEndpointsAreDistinct | config/api.ts:8-16 | Each fixed endpoint starts with the API URL, and no two fixed endpoints are equal. |
| ApiConfig.CheckExtendsUserSubmissions | config/api.ts:19-21 | The task-check address is the user-submissions address followed by `/task/` and the task id. |
| ApiConfig.CheckPathSegments | config/api.ts:20-21 | For ids without `/`, the task-check path splits into the route `/user/submissions/:userId/task/:taskId` with the two ids in place. |
| ApiConfig.UserAddressesAreInjective | config/api.ts:19-21 | Different users get different submission addresses. A task-check address without stray slashes names one user and one task. |
| TaskLifecycle.CreateTaskAddressIsFixed | pages/AdminCreateTask.tsx:56-62 | The address the create-task page posts to equals the configured admin endpoint exactly when the API URL is the default. |
| Types.StatusValuesAreNotTheComparedStrings | types.ts:2-8 | No member of the status enumeration is spelled `AVAILABLE` or `active`, the strings the code compares statuses with. |
| TaskListPage.ShownTasks | pages/TaskList.tsx:16-20 | A task is shown exactly when its status is `AVAILABLE` and its type matches the filter. The list keeps the input's order and multiplicities. |
| TaskListPage.AllShowsEveryAvailableTask | pages/TaskList.tsx:16-20 | With the filter `All`, the list is exactly the `AVAILABLE` tasks in order. |
| TaskListPage.EnumerationStatusIsNeverShown | pages/TaskList.tsx:17 | A task whose status is spelled as an enumeration member is never shown. |
| TaskListPage.FilterButtons | pages/TaskList.tsx:51-54 | Six buttons: `All`, then one per task-type value. Every task type has its button and no two buttons carry the same value. |
| TaskListPage.ClearingShowsMore | pages/TaskList.tsx:186 | Clearing the filter never hides a shown task. The cleared list is empty exactly when no task is `AVAILABLE`. |
| TaskListPage.SelectAndDeleteExclusive | pages/TaskList.tsx:72-169 | No role both selects and deletes a task: a card selects only for `contributor`, the delete button acts only for `admin`. |
| TaskExecutionPage.SubmitEnabledIffWorkDone | pages/TaskExecution.tsx:204-211 | Submit is enabled exactly when nothing is being submitted and the work the task's type asks for is there. A task of any other type can never be submitted. |
| TaskExecutionPage.Pad2Shape | pages/TaskExecution.tsx:200-201 | The seconds below 60 are padded to two digits that read back as the number. |
| TaskExecutionPage.FormatTimeRoundTrip | pages/TaskExecution.tsx:198-202 | The displayed `m:ss` reads back as the number of seconds. |
| TaskExecutionPage.FormatTimeInjective | pages/TaskExecution.tsx:198-202 | Two different times are never displayed alike. |
| TaskExecutionPage.StepsFollowTheWizard | pages/TaskExecution.tsx:274-322 | Every control keeps to brief→consent→execute→submitted and consent→brief. Execution starts only with consent. The confirmation comes only from the submit timer of a submission in flight. Submitting starts only when submit is enabled. |
| TaskExecutionPage.InitialValid | pages/TaskExecution.tsx:15-41 | The mounted state is valid, on the brief, without consent. |
| TaskExecutionPage.AfterKeepsValid | pages/TaskExecution.tsx:58-196 | Every control and timer keeps the invariant. Only an audio task records, and only on the execution screen while the recorder runs. A submission is in flight only on the execution screen. |
| TaskExecutionPage.ResetDisablesSubmit | pages/TaskExecution.tsx:594-603 | After Reset, submit is disabled, the clock is zero and the camera is off. The step, the consent and the recording flag are kept. |
| TaskExecutionPage.RecordingFlags | pages/TaskExecution.tsx:71-117 | Starting a recording clears the last one and restarts the clock. Stopping marks it recorded. A denied microphone or an inactive recorder changes nothing. |
| TaskExecutionPage.TaskExecution.constructor | pages/TaskExecution.tsx:15-41 | The page mounts in the initial state for its task. |
| TaskExecutionPage.TaskExecution.ProceedToConsent | pages/TaskExecution.tsx:274 | The new state is `After(…, ProceedToConsent)`. |
| TaskExecutionPage.TaskExecution.ToggleConsent | pages/TaskExecution.tsx:305-313 | The new state is `After(…, ToggleConsent)`. |
| TaskExecutionPage.TaskExecution.BackToBrief | pages/TaskExecution.tsx:321 | The new state is `After(…, BackToBrief)`. |
| TaskExecutionPage.TaskExecution.Initialize | pages/TaskExecution.tsx:322 | The new state is `After(…, Initialize)`, a no-op without consent. |
| TaskExecutionPage.TaskExecution.HandleStartRecording | pages/TaskExecution.tsx:71-108 | The new state is `After(…, StartRecording)`. |
| TaskExecutionPage.TaskExecution.HandleStopRecording | pages/TaskExecution.tsx:110-117 | The new state is `After(…, StopRecording)`. |
| TaskExecutionPage.TaskExecution.Tick | pages/TaskExecution.tsx:58-69 | The new state is `After(…, Tick)`. |
| TaskExecutionPage.TaskExecution.StartCamera | pages/TaskExecution.tsx:145-160 | The new state is `After(…, StartCamera)`. |
| TaskExecutionPage.TaskExecution.CaptureImage | pages/TaskExecution.tsx:170-182 | The new state is `After(…, Capture)`. |
| TaskExecutionPage.TaskExecution.RetakePhoto | pages/TaskExecution.tsx:184-187 | The new state is `After(…, Retake)`. |
| TaskExecutionPage.TaskExecution.EditText | pages/TaskExecution.tsx:546 | The new state is `After(…, EditText)`. |
| TaskExecutionPage.TaskExecution.ChooseOption | pages/TaskExecution.tsx:574 | The new state is `After(…, ChooseOption)`. |
| TaskExecutionPage.TaskExecution.Reset | pages/TaskExecution.tsx:594-603 | The new state is `After(…, Reset)`. |
| TaskExecutionPage.TaskExecution.HandleSubmit | pages/TaskExecution.tsx:189-191 | The new state is `After(…, Submit)`. |
| TaskExecutionPage.TaskExecution.SubmitTimeout | pages/TaskExecution.tsx:192-195 | The new state is `After(…, SubmitDone)`. |
| AdminCreateTaskPage.RequirementsShape | pages/AdminCreateTask.tsx:49-51 | An empty text gives no requirements. Otherwise there is one trimmed piece per comma-separated part, with no comma and no surrounding space. |
| AdminCreateTaskPage.RequirementsRoundTrip | pages/AdminCreateTask.tsx:49-51 | A text whose pieces carry no surrounding space comes back unchanged when its requirements are joined with commas. |
| AdminCreateTaskPage.NewTaskKeepsTheForm | pages/AdminCreateTask.tsx:34-52 | Two forms give the same record only when all other fields agree and their requirements read the same. |
| AdminCreateTaskPage.BodyStatus | pages/AdminCreateTask.tsx:40 | The posted body's status is `AVAILABLE`. |
| AdminCreateTaskPage.AdminCreateTask.constructor | pages/AdminCreateTask.tsx:13-29 | The form's defaults, and not loading. |
| AdminCreateTaskPage.AdminCreateTask.Change | pages/AdminCreateTask.tsx:108-250 | A field's `onChange` replaces that field. |
| AdminCreateTaskPage.AdminCreateTask.StartSubmit | pages/AdminCreateTask.tsx:31-237 | A request is posted exactly when the form passes the browser's checks: nine required fields, compensation at least 0 and time at least 1. It then raises the loading flag and posts the record's body to the fixed address. A refused form changes nothing. |
| TaskLifecycle.AcceptedFormsInsertBoundedTasks | pages/AdminCreateTask.tsx:97-237 | A form the browser lets through inserts a task with a non-empty title, compensation at least 0 and estimated time at least one minute. |
| AdminCreateTaskPage.AdminCreateTask.FinishSubmit | pages/AdminCreateTask.tsx:64-79 | Lowers the loading flag on every answer and returns `Outcome(reply)`. |
| TaskLifecycle.CreatedTaskIsInsertedWhole | pages/AdminCreateTask.tsx:34-52 | The page's body names only task columns, so the admin route inserts it whole, status `AVAILABLE` included. |
| TaskLifecycle.CreateRoundTrip | starset-backend/src/routes/admin.tasks.ts:31-61 | Posting a form to the admin route hands `onSave` exactly the row the database stored, and nothing when the database refused it. |
| TaskLifecycle.CreatedTasksNeverReachContributors | starset-backend/src/routes/contributor.tasks.ts:10-16 | A row that keeps the status the create page wrote is never listed by the contributor route. |
| TaskLifecycle.SubmittedTaskIsListed | starset-backend/src/routes/user.submissions.ts:21-41 | Once an audio submission's row is in the table, the list route reports its task among the user's completed tasks. |
| CompleteProfilePage.ValidateAcceptsExactly | pages/CompleteProfile.tsx:24-32 | A form passes exactly when every field is filled and the age is between 18 and 100. An empty field is reported first. |
| CompleteProfilePage.UpdateWritesBothSpellings | pages/CompleteProfile.tsx:64-80 | Each field is written under both its suffixed and its plain column, with the form's value, and the profile is marked completed. |
| CompleteProfilePage.CompletesOnlyAfterAnUpdatedRow | pages/CompleteProfile.tsx:19-105 | `onComplete` runs exactly when the form is valid, a user is signed in and the update returned a row. Nothing is sent for an invalid form or a missing user, and each leaves a message. An update error shows its message. |
| CompleteProfilePage.CompleteProfile.constructor | pages/CompleteProfile.tsx:11-17 | An empty form, no error, not loading. |
| CompleteProfilePage.CompleteProfile.Change | pages/CompleteProfile.tsx:146-220 | A field's change replaces that field of the form and keeps the others; an emptied age is no age. |
| CompleteProfilePage.CompleteProfile.HandleSubmit | pages/CompleteProfile.tsx:19-105 | Loading is down again on every exit. The error, the update sent and the completion are those of `Submit`. |
| LoginPage.StoredRole | pages/Login.tsx:80 | The role checked is never empty: an absent or empty `role_text` reads as `contributor`. |
| LoginPage.RoleAuthorisation | pages/Login.tsx:45-103 | Admin entry happens only in admin mode with a stored `admin` role. Contributor mode always enters as contributor. A refused admin is signed out, and told so unless the sign-out throws. Every attempt that does not log in leaves a non-empty error. |
| LoginPage.FailedSignInStops | pages/Login.tsx:54-58 | A failed sign-in shows its error, or "Login failed", and goes no further. |
| LoginPage.Login.constructor | pages/Login.tsx:34-41 | Empty form, contributor mode, no error, not loading. |
| LoginPage.Login.HandleLogin | pages/Login.tsx:45-205 | The handler runs exactly when the required e-mail and password are filled in; otherwise nothing changes. When it runs, loading is down on every exit, and the error, the `onLogin` call and the sign-out are those of `HandleLoginSpec`. |
| LoginPage.Login.SetEmail | pages/Login.tsx:193 | The e-mail input's change sets the e-mail and nothing else. |
| LoginPage.Login.SetPassword | pages/Login.tsx:209 | The password input's change sets the password and nothing else. |
| LoginPage.Login.ToggleLoginMode | pages/Login.tsx:106-113 | Switches to the other mode and clears the error, the e-mail and the password. |
| SignupPage.SignupBranches | pages/Signup.tsx:27-103 | A profile is written exactly when sign-up succeeded with a user. It is keyed on the new user's id, a contributor's, and not completed. "already registered" switches to sign-in at once. The later switch happens exactly after a successful upsert. An account without identities is reported as existing. |
| SignupPage.Signup.constructor | pages/Signup.tsx:18-25 | The default form, with language English, and not loading. |
| SignupPage.Signup.Change | pages/Signup.tsx:153-192 | A field's change replaces that field of the form and keeps the others. |
| SignupPage.Signup.HandleSubmit | pages/Signup.tsx:27-199 | There is an outcome exactly when the name, e-mail and password are filled in and the terms box is ticked; otherwise nothing changes. When there is one, loading is down on every exit and the outcome is that of `SignupSpec`. |
| SignupPage.AcceptedFormsWriteNamedProfiles | pages/Signup.tsx:65-199 | A form the browser lets through writes a profile whose name, e-mail and full name are all non-empty. |
| SidebarNav.ItemsFollowTheRole | components/Sidebar.tsx:45-61 | `admin` gets the four admin items; every other role gets the six contributor items. No item repeats and none is the execution page. |
| SidebarNav.AtMostOneActive | components/Sidebar.tsx:97 | At most one item is highlighted for any page. |
| SidebarNav.ClickHighlightsTheItem | components/Sidebar.tsx:71-104 | After a click on item k, the page is that item, only item k is highlighted and the mobile menu is closed. The overlay only closes the menu. |
| AppShell.RenderGating | App.tsx:351-385 | The public view shows the public page. A signed-out user sees the sign-up form exactly in sign-up mode, and the sign-in form otherwise. The application is shown only to a signed-in user. |
| AppShell.PagesFollowTheStoredRole | App.tsx:387-687 | Task creation is rendered only for the `admin` role, and execution only for other roles with an active task. Without an active task, execution falls back to the task list. |
| AppShell.SidebarItemsReachTheirPages | App.tsx:389-685 | Every sidebar item offered for the stored role renders its own page, not the fallback dashboard. |
| AppShell.StoredRole | App.tsx:268-270 | A non-empty text `role_text` is the role. A missing, `null` or empty one reads as `contributor`. The role is never empty. |
| AppShell.LoginNeedsAProfile | App.tsx:233-284 | The state changes only once a profile has loaded, and then only the profile (with the e-mail), the stored role, the sign-in flag and the page. Every failure alerts and changes nothing. |
| AppShell.AdminSignedInAsContributorSeesAdminViews | App.tsx:268-279 | An admin signing in in contributor mode lands on `dashboard` with role `admin` and sees the admin dashboard. |
| AppShell.DeleteRemovesExactlyTheId | App.tsx:336-338 | Deleting removes exactly the tasks with the id, keeps the order of the others, and is idempotent. |
| AppShell.DeleteUndoesCreate | App.tsx:324-338 | Deleting a just-created task with a fresh id restores the list. |
| AppShell.App.constructor | App.tsx:49-60 | The public home page, signed out, sign-in mode, contributor role, dashboard page, no task, dark theme. |
| AppShell.App.HandleEnterApp | App.tsx:197-200 | The application view in sign-in mode; nothing else changes. |
| AppShell.App.HandleStartSignup | App.tsx:206-209 | The application view in sign-up mode; nothing else changes. |
| AppShell.App.SetAuthMode | App.tsx:364-385 | Only the auth mode changes. |
| AppShell.App.HandleExitApp | App.tsx:215-220 | The public home page, signed out, page reset to the dashboard. |
| AppShell.App.HandleLogin | App.tsx:233-284 | The new state and the alert are those of `LoginSpec`. |
| AppShell.App.HandleLogout | App.tsx:293-298 | Signed out, no active task, public home page; the current page is kept. |
| AppShell.App.HandleSelectTask | App.tsx:305-308 | The task is active on the execution page. A signed-in contributor sees that task. |
| AppShell.App.HandleCompleteTask | App.tsx:314-317 | No active task, on the task list. |
| AppShell.App.HandleCreateTask | App.tsx:324-327 | The task goes first in the list and the task list is shown. |
| AppShell.App.HandleDeleteTask | App.tsx:336-338 | Only the task list changes, to `WithoutTask`. |
| AppShell.App.HandlePublicNavigate | App.tsx:345-348 | Only the public page changes. |
| AppShell.App.Navigate | App.tsx:693-703 | Only the current page changes. |
| AppShell.App.SetMobileNavOpen | App.tsx:718-719 | Only the mobile-menu flag changes. |
| AppShell.App.ToggleTheme | App.tsx:189-191 | Only the theme flips. |
| AppShell.InitialsOfSpacedNames | App.tsx:593-599 | As written, "Ann " gets the initials "AUNDEFINED" and " Ann" gets "UNDEFINEDA". |
| AppShell.Words | App.tsx:595 | The words of a name are non-empty and contain no space. |
| AppShell.InitialsAreOneOrTwoLetters | App.tsx:593-599 | The corrected initials are one or two characters: "U" without words, otherwise the upper-cased first letters of the first two words, never a space. They agree with the written version on names without stray spaces. |

## Left out

- Timers, media and scrolling in the shell: the inactivity timer and its events (`App.tsx:149-179`) and the scroll to the top on public navigation.
- The two fetch effects of the shell (`App.tsx:72-126`). They read the task list and the completed tasks. The routes they call are modelled.
- The wizard's audio blob, object URL and playback. Only the flags the page keeps are modelled.
- `alert` and `confirm` are values: `confirm` is the `confirmed` parameter, and alerts are returned strings.
- Presentational pages and components: dashboards, earnings, landing and public pages, buttons, logo, and the admin account page markup.
- The authentication context beyond the result of its sign-in call.
- Mounting of the server and the routers (`app.ts`, `server.ts`). The submissions router is not mounted in `app.ts`; its handlers are modelled on their own.
- Concurrency between requests, and React's batching of updates.
- Numbers: JSON numbers and form numbers are integers. `Number(...)` of non-numeric text (NaN), fractions and floats are not modelled.
- Characters are Dafny `char`. UTF-16 code units, case mapping beyond ASCII, and the definition of white space beyond ASCII are not modelled.
- A `role_text` column that holds a non-string value.
- The framework's default error handler, which answers the middleware's forwarded errors.
- B2Upload.StorageService: the network exchange with Backblaze is an oracle of replies indexed by call count. Only the request fields named in the log are modelled. One authentication exchange stands for the pair `authorize` and `getUploadUrl`.
- Submissions.InsertReply: a throw from the database client during the insert is not a case. Only the `{ error }` answer is modelled.
- UserSubmissions: the `catch` blocks of both routes are not modelled. When the database client throws, they answer 500 with "Failed to fetch user submissions" (`user.submissions.ts:43-48`) or "Internal server error" (`user.submissions.ts:88-95`). Only the `{ data, error }` answers of the queries are.
- The upload middleware's "Unexpected field" error, for a file sent under another form field name, is not modelled.
- SignupPage.SignupSpec: the `full_name` and `language` metadata sent with the sign-up request are not modelled. Only the reply is.
- CompleteProfilePage.CompleteProfile.HandleSubmit: the browser's `required`, `min="18"` and `max="100"` checks on the form are not modelled. The handler repeats them itself, and that check is modelled. Fractional ages, which the browser refuses by step, do not arise: the age is an integer here.
- The browser's syntax check of `type="email"` inputs is not modelled. The forms' `FormAccepted` predicates check only that the e-mail is non-empty.

## Findings

| source | as written | input that shows it | evidently intended | confidence | as-written member | corrected member |
|---|---|---|---|---|---|---|
| App.tsx:593-599 | `getInitials` takes the first character of the pieces of `name.split(' ')`, empty pieces included; an empty piece prints `undefined` in the template string | the name "Ann " (trailing space) gives "AUNDEFINED"; " Ann" gives "UNDEFINEDA" | the initials of the name's first two words: one or two letters | not executed | AppShell.GetInitialsAsWritten (AppShell.InitialsOfSpacedNames) | AppShell.GetInitials (AppShell.InitialsAreOneOrTwoLetters) |
| starset-backend/src/routes/user.submissions.ts:67-86 | the task check reads the user's submissions for the task with `.single()`, which fails with `PGRST116` unless exactly one row matches; that code is read as "not completed" | two submissions by user "u" for task "t" give `completed: false` | a task is completed when the user has at least one submission for it | not executed | UserSubmissions.CheckTaskCompletion (UserSubmissions.DuplicateSubmissionReadsAsIncomplete) | UserSubmissions.CheckTaskCompletionFixed (UserSubmissions.FixedCompletedIffAnySubmission) |
