# BridgeSync AI front end — a Dafny model

BridgeSync AI is a role-based web front end. Sales staff upload call
recordings, project managers review AI summaries and turn them into tasks,
and developers work through the tasks assigned to them. This project models
the behaviour of its pages and states properties of that behaviour:

- **Static pages** become pure functions over role tags and lists: the role
  menu, the home page, the dashboard, the task list and the summary list.
  Their filters, counters, badges and role tables are proved to agree with
  each other.
- **Stateful pages** become classes whose fields are the page's React state.
  Each handler is a method with a `modifies` clause: the menu toggle, the
  simulated upload with its progress interval, the storage upload, the
  uploads list and the profile form.
- **The Supabase client** is one `Backend.Client` object. Each of its
  methods returns an arbitrary response and appends the call, with its
  arguments and that response, to a ghost `log`. Each page method about the
  backend is proved against a trace predicate over the piece of log it adds:
  `StorageUpload.UploadRun`, `MyUploads.FetchRun` or
  `CompleteProfile.SubmitRun`. Lemmas about those predicates state the
  safety facts: a call chain stops at its first failure, nothing is written
  without a user, and storage keys and rows belong to the user who
  made them.

Modules:

- `Wrappers`: `Option`.
- `Collections`: the `All`/`Only` filter selection, a prefix-order `Filter`
  with membership, order and multiplicity lemmas, and `Count`.
- `Text`: prefixes; `split(sep)[0]` and `split(sep).pop()` as `FirstSegment`
  and `LastSegment`.
- `Roles`: the `sales`/`pm`/`dev` tags and their fallback.
- `Files`: the browser's `File` record.
- `Backend`: the client and its call log.
- One module per page: `TasksPage`, `SummariesPage`, `Navigation`,
  `DashboardPage`, `HomePage`, `SimulatedUpload`, `StorageUpload`,
  `MyUploads` and `CompleteProfile`.

A role tag the pages do not recognise is kept as `Roles.Unrecognised(tag)`.
That lets each `switch (role)` fall through to its `default` exactly as the
source does. The React `label` field is named `caption` here, because
`label` is a Dafny keyword.

## Model

| member | source | states |
|---|---|---|
| Roles.RoleOf | src/components/Navigation.tsx:7 | Every tag maps to a well-formed role, and mapping back gives the same tag. The role is unrecognised exactly when the tag is not `sales`, `pm` or `dev`. |
| Roles.RoleOfTag | src/components/Navigation.tsx:7 | A well-formed role survives the round trip through its tag. |
| Collections.Filter | src/app/tasks/page.tsx:91-95 | `Array.filter`: the result keeps exactly the elements satisfying the predicate, in their original order, and is no longer than the input. |
| Collections.FilterKeepsAll | src/app/summaries/page.tsx:76 | A predicate true of every element keeps the whole list. |
| Collections.FilterKeepsNone | src/app/summaries/page.tsx:177 | A predicate false of every element gives the empty list. |
| Collections.FilterMultiplicity | src/app/summaries/page.tsx:75-78 | Filtering keeps every copy of a kept element and no copy of a dropped one. |
| Collections.FilterNarrows | src/app/tasks/page.tsx:92-94 | A stronger predicate selects a subsequence of what a weaker one selects, so it never shows more. |
| Text.ConcatStartsWith | app/upload/page.tsx:34 | A concatenation starts with its first part. |
| Text.FirstSegment | app/my-uploads/page.tsx:84 | `split(sep)[0]` is a prefix free of the separator, and it ends at the first separator or at the end of the string. |
| Text.LastSegment | app/my-uploads/page.tsx:84 | `split(sep).pop()` is a suffix free of the separator, and it starts after the last separator or at the start of the string. |
| Text.FirstSegmentOfSepFree | app/my-uploads/page.tsx:84 | When `s` has no separator, the first segment of `s + sep + rest` is `s`, and so is the first segment of `s`. |
| Text.LastSegmentAfterSep | app/my-uploads/page.tsx:84 | When `s` has no separator, the last segment of `front + sep + s` is `s`. |
| TasksPage.FilteredTasks | src/app/tasks/page.tsx:91-95 | A task is listed exactly when it is in the list and matches both the status and the priority selection. The list keeps the source order, with every copy of a matching task and none of the others. |
| TasksPage.FilterAllShowsEverything | src/app/tasks/page.tsx:92-93 | With both selections on `all`, the whole list is shown. |
| TasksPage.NarrowingStatusShrinks | src/app/tasks/page.tsx:92 | Choosing one status shows a subsequence of what `all` shows under the same priority selection. |
| TasksPage.NarrowingPriorityShrinks | src/app/tasks/page.tsx:93 | Choosing one priority shows a subsequence of what `all` shows under the same status selection. |
| TasksPage.PriorityColor | src/app/tasks/page.tsx:97-105 | The grey badge is used exactly for strings other than the four priority names. |
| TasksPage.StatusColor | src/app/tasks/page.tsx:107-115 | The grey badge is used exactly for strings other than the four status names. |
| TasksPage.BadgesDistinguishValues | src/app/tasks/page.tsx:97-115 | No real priority or status gets the grey badge. Different priorities get different badges, and so do different statuses. |
| TasksPage.ShowsStatusSelector | src/app/tasks/page.tsx:203 | Definition: the selector shows for a developer on a task that is not completed. Its consequences are stated by `TasksPage.StatusSelectorOnlyForOpenDevTasks`. |
| TasksPage.StatusSelectorOnlyForOpenDevTasks | src/app/tasks/page.tsx:203 | A project manager is never shown the status selector, and no completed task shows it to anyone. |
| TasksPage.CountStatus | src/app/tasks/page.tsx:233-241 | Definition: the number of tasks with one status, over the unfiltered list. Its properties are stated by `TasksPage.StatusCountsPartition` and `TasksPage.Statistics`. |
| TasksPage.StatusCountsPartition | src/app/tasks/page.tsx:233-242 | The pending, in-progress, completed and blocked counts add up to the number of tasks. |
| TasksPage.Statistics | src/app/tasks/page.tsx:229-242 | The total is the number of tasks. The three counts shown, plus the blocked tasks, make up the total, so they never exceed it. |
| TasksPage.HandleStatusUpdate | src/app/tasks/page.tsx:117-120 | Definition: the handler only logs, so the task list is returned as it was. Its effect on the page is stated by `TasksPage.StatusUpdateChangesNothingShown`. |
| TasksPage.StatusUpdateChangesNothingShown | src/app/tasks/page.tsx:117-120 | A status update leaves the filtered list and the statistics as they were. |
| SummariesPage.FilteredSummaries | src/app/summaries/page.tsx:75-78 | `all` shows every summary. Otherwise a summary is shown exactly when its status is the chosen one, in source order and with every copy kept. |
| SummariesPage.CountStatus | src/app/summaries/page.tsx:198-202 | Definition: the number of summaries with one status, over the unfiltered list. Its properties are stated by `SummariesPage.StatusCountsPartition`, `SummariesPage.ButtonCountMatchesList` and `SummariesPage.EmptyStateMatchesCounts`. |
| SummariesPage.StatusCountsPartition | src/app/summaries/page.tsx:194-203 | The completed, processing and error counts add up to the number of summaries. |
| SummariesPage.Counts | src/app/summaries/page.tsx:194-203 | The total is the number of summaries, and the completed and processing counts, with the errors, make it up. The counts take no filter, so they do not change with the chosen filter. |
| SummariesPage.ButtonCountMatchesList | src/app/summaries/page.tsx:105-119 | The number on each filter button equals the length of the list that button shows. |
| SummariesPage.CreateTaskEnabled | src/app/summaries/page.tsx:164 | Definition: Create Task is enabled exactly for a completed summary. Its consequences under the filters are stated by `SummariesPage.CreateTaskUnderFilters`. |
| SummariesPage.CreateTaskUnderFilters | src/app/summaries/page.tsx:164 | Under `completed` every shown summary can create a task. Under `processing` none can. |
| SummariesPage.EmptyState | src/app/summaries/page.tsx:177-186 | The empty card appears exactly when the filtered list is empty. Its text depends on whether the filter is `all` or one status. |
| SummariesPage.EmptyStateMatchesCounts | src/app/summaries/page.tsx:105-119 | The empty card appears exactly when the matching button shows zero. |
| Navigation.Hrefs | src/components/Navigation.tsx:62-65 | The links, one per item, in menu order. |
| Navigation.MenuItems | src/components/Navigation.tsx:20-44 | Every role's menu starts with Home and has distinct links. Sales, project manager and developer get their own links; any other tag gets Home alone. |
| Navigation.ResolveProps | src/components/Navigation.tsx:14 | A missing role defaults to sales and a missing name to `User`. |
| Navigation.IsActive | src/components/Navigation.tsx:18 | Definition: an item is active exactly when the path equals its link. Its consequences are stated by `Navigation.AtMostOneActive`. |
| Navigation.AtMostOneActive | src/components/Navigation.tsx:18 | With distinct links, at most one item is highlighted. One is highlighted exactly when the path is one of the links. |
| Navigation.MenuHighlightsAtMostOne | src/components/Navigation.tsx:62-75 | No role's menu highlights two items, and on `/` Home is the one highlighted. |
| Navigation.MenuState.constructor | src/components/Navigation.tsx:15 | The mobile menu starts closed. |
| Navigation.MenuState.ToggleMenu | src/components/Navigation.tsx:82 | The menu button flips the open flag. |
| Navigation.MenuState.SelectMobileItem | src/components/Navigation.tsx:117 | Choosing a mobile link closes the menu. |
| Navigation.MenuState.MobileItems | src/components/Navigation.tsx:105-125 | A closed menu lists nothing. An open one lists the role's full menu. |
| DashboardPage.DashboardFor | src/app/dashboard/page.tsx:11-66 | Each known role gets four stat cards and two charts. Any other tag gets the empty `Dashboard` page. |
| DashboardPage.TitleIdentifiesRole | src/app/dashboard/page.tsx:11-66 | Two roles get the same title exactly when they are the same role, or both are unrecognised. |
| DashboardPage.DisplayName | src/app/dashboard/page.tsx:71 | `Project Manager` exactly for pm, `Developer` exactly for dev, otherwise `Sales`. |
| HomePage.RoleContentFor | src/app/page.tsx:11-62 | Every role gets three features. The primary and secondary links are the ones each role is given, including the default. |
| HomePage.ActionsAgreeWithMenu | src/app/page.tsx:22-59 | A known role's two home links both appear in its menu. Neither of the default's appears in the Home-only menu. |
| SimulatedUpload.NextProgress | src/app/upload/page.tsx:35-43 | From a legal progress value the next is legal and no smaller. It is 100 exactly from 90 or 100. |
| SimulatedUpload.ProgressAfterTicks | src/app/upload/page.tsx:34-44 | After `n` ticks from 0 the bar shows `10n` when `n <= 10`, and 100 from then on; every value on the way is legal. |
| SimulatedUpload.IsAudio | src/app/upload/page.tsx:16 | Definition: the MIME type starts with `audio/`. Its use is stated by `SimulatedUpload.UploadPage.HandleFileSelect`. |
| SimulatedUpload.StatusMessage | src/app/upload/page.tsx:58-71 | Definition: one message per upload status. Its properties are stated by `SimulatedUpload.StatusMessageIdentifiesStatus`. |
| SimulatedUpload.StatusMessageIdentifiesStatus | src/app/upload/page.tsx:58-71 | Different statuses have different messages, and idle reads `Ready to upload`. |
| SimulatedUpload.UploadPage.constructor | src/app/upload/page.tsx:9-12 | No file, not uploading, zero progress, idle. |
| SimulatedUpload.UploadPage.HandleFileSelect | src/app/upload/page.tsx:14-21 | Only an audio file replaces the selection. Anything else, including no file, raises the alert and leaves the state alone. |
| SimulatedUpload.UploadPage.HandleUpload | src/app/upload/page.tsx:23-32 | Without a file it only alerts and changes nothing. With one, the upload starts at zero. |
| SimulatedUpload.UploadPage.ProgressTick | src/app/upload/page.tsx:34-44 | Progress advances by the updater. When the updater sees 100 it ends the upload as completed. Progress stays legal. |
| SimulatedUpload.UploadPage.ProcessingTimeout | src/app/upload/page.tsx:47-49 | Only the status changes, to processing. |
| SimulatedUpload.UploadPage.HandleReset | src/app/upload/page.tsx:52-56 | Selection, progress and status are cleared. The uploading flag is untouched. |
| SimulatedUpload.UploadPage.UploadDisabled | src/app/upload/page.tsx:132 | Definition: disabled without a file or while uploading. Its use is stated by `SimulatedUpload.UploadPage.PressUpload`. |
| SimulatedUpload.UploadPage.PressUpload | src/app/upload/page.tsx:129-132 | An enabled Upload button always starts an upload and then disables itself. |
| Backend.Client.GetUser | app/upload/page.tsx:25 | The call and its response are appended to the log. |
| Backend.Client.UploadObject | app/upload/page.tsx:41 | The write, its arguments and its result are appended to the log. |
| Backend.Client.CreateSignedUrl | app/upload/page.tsx:50 | The request, its arguments and its response are appended to the log. |
| Backend.Client.InsertUpload | app/upload/page.tsx:61-66 | The insert, its row and its result are appended to the log. |
| Backend.Client.SelectUploads | app/my-uploads/page.tsx:29 | The query, its filter, its ordering and its response are appended to the log. |
| Backend.Client.UpsertProfile | src/app/complete-profile/page.tsx:45-52 | The upsert, its row and its result are appended to the log. |
| Backend.SignedInUser | app/upload/page.tsx:27 | Definition: the user, unless the answer carries an error or no user. Its use is stated by `StorageUpload.NoEffectWithoutFileOrUser`, `StorageUpload.KeyBelongsToUser` and `MyUploads.ListedFollowsQuery`. |
| StorageUpload.StoragePath | app/upload/page.tsx:34 | The key starts with the user id and `/`, followed by exactly the file name. |
| StorageUpload.StoragePathDecomposes | app/upload/page.tsx:34 | For an id without `/`, the owner is recovered as the part before the first `/`. For a file name without `/`, the name is recovered as the part after the last. |
| StorageUpload.Alerts | app/upload/page.tsx:28-69 | No file means no alert, and success shows exactly two. |
| StorageUpload.UploadRun | app/upload/page.tsx:19-73 | Definition of one press of Upload as its calls and ending. Its properties are stated by `StorageUpload.StepsInOrder`, `StorageUpload.NoEffectWithoutFileOrUser`, `StorageUpload.KeyBelongsToUser`, `StorageUpload.InsertedRowOwnedByUser` and `StorageUpload.FailuresShortCircuit`. |
| StorageUpload.StepsInOrder | app/upload/page.tsx:19-73 | The calls are getUser, upload, signed URL and insert, in that order and each at most once. The number made is fixed by how the run ended. |
| StorageUpload.NoEffectWithoutFileOrUser | app/upload/page.tsx:20-31 | A run makes no call exactly when no file was selected. Without a user nothing is written and no URL is requested. |
| StorageUpload.KeyBelongsToUser | app/upload/page.tsx:34-66 | Every write and URL request happens only for a signed-in user. All of them use that user's `<id>/<name>` key in `audio-files`, and the storage write uses upsert. The URL lasts 3600 s. The row is `(user id, key)` in `audio_uploads`. |
| StorageUpload.InsertedRowOwnedByUser | app/upload/page.tsx:61-66 | Every inserted row's `file_path` begins with its own `user_id` and `/`. |
| StorageUpload.FailuresShortCircuit | app/upload/page.tsx:43-58 | A failed write requests no URL and inserts no row. A failed URL inserts no row. A row is inserted exactly on success. |
| StorageUpload.UploadPage.constructor | app/upload/page.tsx:8-9 | No file selected and not uploading. |
| StorageUpload.UploadPage.HandleFileChange | app/upload/page.tsx:11-17 | A chosen file replaces the selection, whatever its type. No file keeps the old one. |
| StorageUpload.UploadPage.HandleUpload | app/upload/page.tsx:19-73 | The calls it adds to the log form one `UploadRun` of the selected file. Uploading ends false unless the run stopped for lack of a file. The selection is cleared only on success. |
| MyUploads.WithSignedUrls | app/my-uploads/page.tsx:41-54 | One entry per row, in row order, each keeping its row and carrying its minted URL. A failed mint gives `""`. |
| MyUploads.UrlOrEmpty | app/my-uploads/page.tsx:51 | Definition: the minted URL, or `""` when there is none. Its use per row is stated by `MyUploads.WithSignedUrls`. |
| MyUploads.FetchRun | app/my-uploads/page.tsx:21-57 | Definition of one run of `fetchUploads` as its calls and ending. Its properties are stated by `MyUploads.ListedFollowsQuery`. |
| MyUploads.ListedFollowsQuery | app/my-uploads/page.tsx:22-54 | Listing writes nothing. A listed result has one entry per queried row, in order. It makes one mint per row, for that row's own key in `audio-files`, lasting 3600 s. Early exits make at most two calls. |
| MyUploads.AlertAsWritten | app/my-uploads/page.tsx:25-37 | Definition: the early-exit alerts exactly as written, with the query-failure text not interpolated. Its defect is stated by `MyUploads.AlertAsWrittenLosesMessage`. |
| MyUploads.AlertAsWrittenLosesMessage | app/my-uploads/page.tsx:32 | As written, two different query errors show the same alert. |
| MyUploads.Alert | app/my-uploads/page.tsx:25-37 | Every early exit alerts and a listing does not. A query failure names its error. |
| MyUploads.AlertNamesError | app/my-uploads/page.tsx:32 | With the message interpolated, different errors show different alerts. |
| MyUploads.RawName | app/my-uploads/page.tsx:84 | The shown name is never empty and contains no `/` or `?`. An empty URL shows `Unknown File`. |
| MyUploads.DisplayName | app/my-uploads/page.tsx:84 | Definition: the decoded `MyUploads.RawName` of the URL. Its results are stated by `MyUploads.DisplayNameOfObjectUrl` and `MyUploads.UploadedFileListedByName`. |
| MyUploads.DisplayNameOfObjectUrl | app/my-uploads/page.tsx:84 | A URL `<base>/<name>?<query>` shows the decoded `name`. |
| MyUploads.UploadedFileListedByName | app/my-uploads/page.tsx:84 | A file stored under `<user id>/<file name>` and served at `<base>/<key>?<query>` is listed under its decoded file name. |
| MyUploads.MyUploadsPage.constructor | app/my-uploads/page.tsx:17-18 | The page starts empty and loading. |
| MyUploads.MyUploadsPage.FetchUploads | app/my-uploads/page.tsx:20-59 | The calls it adds form one `FetchRun`, and its alert is `Alert` of the outcome. Only a full listing replaces the list and clears `loading`. Every early exit leaves both as they were. |
| CompleteProfile.RoleOptionsAgreeWithRoles | src/app/complete-profile/page.tsx:9-13 | The selector offers exactly the recognised tags, including the default `sales`. Each is captioned with the name the dashboard uses for that role. |
| CompleteProfile.SubmitRun | src/app/complete-profile/page.tsx:38-59 | Definition of one submit as its calls and ending. Its properties are stated by `CompleteProfile.ProfileWrittenOnlyForUser` and `CompleteProfile.SubmitIgnoresAuthError`. |
| CompleteProfile.ErrorText | src/app/complete-profile/page.tsx:36-56 | The error line is empty after a save, and after any other exit only when the backend's message is empty. |
| CompleteProfile.NextRoute | src/app/complete-profile/page.tsx:59 | The page moves on to `/` exactly after a save. |
| CompleteProfile.ProfileWrittenOnlyForUser | src/app/complete-profile/page.tsx:38-52 | Nothing is written exactly when there is no user. Any write is that user's own profile row, with the form's name and role. |
| CompleteProfile.SubmitIgnoresAuthError | src/app/complete-profile/page.tsx:38-43 | An auth error beside a present user does not stop the save. |
| CompleteProfile.CompleteProfilePage.constructor | src/app/complete-profile/page.tsx:16-19 | Empty name, role `sales`, not loading, no error. |
| CompleteProfile.CompleteProfilePage.CheckAuth | src/app/complete-profile/page.tsx:24-29 | One user lookup. A missing user pushes `/login`, and the form state is untouched. |
| CompleteProfile.CompleteProfilePage.HandleCompleteProfile | src/app/complete-profile/page.tsx:33-60 | The calls it adds form one `SubmitRun` of the form's name and role. While each call is awaited the form shows loading and an empty error line. Loading always ends false. The error line shows why the submit stopped. Only a save pushes `/`. |

## Left out

- Rendering: markup, CSS classes and icons beyond the text the page logic picks. The `Layout` wrapper, `Card`/`Button` components, and the avatar initial (`charAt(0).toUpperCase()` needs Unicode case mapping).
- Timers: the 500 ms interval and the 3 s timeout are separate methods with no clock. Any order of calls is allowed, so their race is covered but their timing is not.
- MyUploads.MyUploadsPage.FetchUploads: `Promise.all` starts the mints concurrently. The model mints them one after another in row order; the resulting list is the same.
- MyUploads.MyUploadsPage.FetchUploads: its alert is the corrected `MyUploads.Alert`, which names the query error. The page as written shows `MyUploads.AlertAsWritten`, with the literal `${error.message}` (see Findings).
- MyUploads.DisplayName: `decodeURIComponent` is a function parameter, since percent-decoding and its exception on malformed input are not modelled.
- Supabase semantics: the backend's responses are unconstrained. The model does not capture that a query returns the rows that were inserted, sorted by `timestamp`, so the upload-then-list round trip is stated only for the storage key and displayed name.
- `alert` and `console.log`: alerts are returned as values; logging is dropped.
- StorageUpload.UploadPage.HandleUpload: `uploading` is true while the calls are awaited, but the contract states only its final value.
- HTML form validation is not modelled: `required` on the profile name and `accept="audio/*"` on the file inputs. Neither is the `disabled` attribute of the second upload page's button.
- TasksPage.HandleStatusUpdate: the source only logs, so the model returns the list unchanged.
- Login, sign-up and test pages, `src/lib/supabase.ts`, the type declarations and the `my-bridgesync-app` scaffold are not part of this model.

## Findings

| source | as written | input that shows it | evidently intended | confidence | as-written member | corrected member |
|---|---|---|---|---|---|---|
| app/my-uploads/page.tsx:32 | The query-failure alert is a single-quoted string, so `${error.message}` is shown literally. | Any failing query, e.g. errors `permission denied` and `timeout` give the same alert. | A template literal that shows the error's message. | high (not executed) | MyUploads.AlertAsWrittenLosesMessage | MyUploads.AlertNamesError |
