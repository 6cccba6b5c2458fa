# Project manager demo: a Dafny model

The repository holds two small browser versions of one project manager. Each keeps a
tree in memory: a list of users, and a list of projects that each hold tasks. In the
root version, tasks also hold time-log entries. Every operation replaces that tree with
a new one built from the old one by order-preserving `map`, `filter` and append. Every
view is a `reduce`, `flatMap` or `filter` over it. This project models both versions and
keeps their vocabularies apart:

| | roles | assignment field | completion |
|---|---|---|---|
| root version (`src/App.jsx`) | `Admin`, `PM`, `Editor` | `editorId` | `started` / `completed` flags |
| `client/` version | `admin`, `pm`, `user` | `assignedTo` | `status`, one of `Started`, `In Progress`, `Completed` |

Modules:

- `Wrappers`: `Option` and `Result`.
- `Seqs`: JavaScript's `Array.prototype.map` and `filter` as recursive functions, with
  lemmas about appending, keeping all, dropping all, partitioning, fusion and inverses.
- `JsText`: `String.prototype.trim` with ECMAScript's full white-space set, plus
  `split` and `join` on one separator.
- `ClientModel`: the `client/` data (users, projects, tasks) and the pure rewrites that
  `client/src/context/AppContext.jsx` passes to `setState`. A JavaScript spread is
  modelled as a field-by-field override: a payload or patch field is an `Option`, and
  `None` keeps the old value.
- `AppContext`: the context provider as a class holding `state` and `currentUser`. Each
  operation is a method that assigns the result of a `ClientModel` rewrite. `login`
  fails without changing anything.
- `Dashboard`: the views of `client/src/pages/Dashboard.jsx`:
  - the summary counts;
  - the flattened task list;
  - the per-user workload snapshot;
  - the role-to-panel gate;
  - the avatar initials.
- `TaskOverview`: the signed-in user's task list, its empty state, and the status picker
  of `client/src/components/TaskOverview.jsx`.
- `RootModel`: the data of `src/App.jsx` and the pure parts of its component:
  - the rewrites its handlers pass to `setData`;
  - the project-form row edits;
  - the time-logger guard;
  - the summary badges and logged-minute totals;
  - the editor's task view and the current-user fallback.
- `RootApp`: the `App` component's state as a class holding `data`, `selectedUserId`,
  `newUser` and `newProject`, with one method per handler.

Generated ids (`generateId`, `crypto.randomUUID`) are parameters of the operations. What
`localStorage` held and parsed to is a parameter of the constructors, as an `Option`.
`Number(minutes)` reaches the time logger as an `Option<int>`, where `None` means "not a
number".

## Model

| member | source | states |
|---|---|---|
| ClientModel.DefaultState | client/src/context/AppContext.jsx:7-32 | The seed has three users and no projects. Their ids, emails and roles are pairwise distinct, and the roles are exactly `admin`, `pm` and `user`. |
| Seqs.FirstIndex | client/src/context/AppContext.jsx:88 | `find` stops at the first position whose element satisfies the predicate, or gives `None` when no element does. The login's email lookup and the root variant's id lookups use it. |
| Seqs.FilterAt | client/src/context/AppContext.jsx:120-125 | A kept element sits in the filter at the position given by the number of kept elements before it. |
| Seqs.FilterPrefixGrows | client/src/context/AppContext.jsx:120-125 | A later prefix has more kept elements than an earlier one whenever the element at the earlier end is kept. |
| Seqs.FilterKeepsOrder | client/src/context/AppContext.jsx:120-125 | Any two kept elements appear in the filter in their original order. |
| ClientModel.Authenticate | client/src/context/AppContext.jsx:87-93 | Login succeeds exactly when the first user whose email equals the trimmed email has exactly the given password. On success the signed-in user is that first match. A later user with the same email is never tried. On failure the result is the "Invalid credentials" message. |
| ClientModel.WrongPasswordFails | client/src/context/AppContext.jsx:87-93 | On the seed, a demo email with a wrong password fails with the message. |
| ClientModel.RightPasswordLogsIn | client/src/context/AppContext.jsx:87-93 | On the seed, `admin@demo.com` with `admin123` signs in the admin. |
| ClientModel.PaddedPasswordFails | client/src/context/AppContext.jsx:88-89 | The password is not trimmed: on the seed, `pm@demo.com` with `pm123 ` (a trailing space) is rejected with the message. |
| ClientModel.AddUser | client/src/context/AppContext.jsx:97-100 | Exactly one user is appended at the end. Earlier users and all projects are unchanged. The new user carries the payload's fields, and the generated id applies only when the payload has none. |
| ClientModel.CreateProject | client/src/context/AppContext.jsx:102-109 | Exactly one project is appended at the end. Its `tasks` is empty unless the payload brings tasks. Users and existing projects are unchanged. |
| ClientModel.UpdateProject | client/src/context/AppContext.jsx:111-118 | Projects with the id become the project overridden by the patch. Every other project and all users are unchanged. |
| ClientModel.UpdateProjectAbsentIsNoOp | client/src/context/AppContext.jsx:111-118 | With an id no project has, the state is unchanged. |
| ClientModel.UpdateProjectNoChanges | client/src/context/AppContext.jsx:111-118 | `updateProject(id, {})` leaves the state equal. |
| ClientModel.DeleteProject | client/src/context/AppContext.jsx:120-125 | The remaining projects are the order-preserving filter of the projects with a different id: every one of those stays, every remaining project was there before, and their order is kept (`ClientModel.DeleteProjectKeepsOrder`). |
| ClientModel.DeleteProjectKeepsOrder | client/src/context/AppContext.jsx:120-125 | Two kept projects appear in the result in the order they had before. |
| ClientModel.DeleteProjectCount | client/src/context/AppContext.jsx:120-125 | The project count drops by exactly the number of projects with the id. |
| ClientModel.DeleteProjectWithUniqueIds | client/src/context/AppContext.jsx:120-125 | With unique project ids, the count drops by 1 when the id is present and by 0 otherwise. |
| ClientModel.CreateTask | client/src/context/AppContext.jsx:127-136 | Each project with the id gets the new task appended at the end of its tasks. Every other project is unchanged. |
| ClientModel.CreateTaskAbsentIsNoOp | client/src/context/AppContext.jsx:127-136 | With an id no project has, the state is unchanged. |
| ClientModel.CreatedTaskStatus | client/src/context/AppContext.jsx:132 | The appended task is the last one, and its task count grew by one. Its status is `Started` unless the payload brings one. Its id is the generated one unless the payload brings one. |
| ClientModel.UpdateTask | client/src/context/AppContext.jsx:138-149 | Only tasks with the task id inside projects with the project id change, and they become the task overridden by the patch. A task with that id in another project is untouched. Every project keeps its other fields and its task count. |
| ClientModel.UpdateTaskNoChanges | client/src/context/AppContext.jsx:138-149 | `updateTask(pid, tid, {})` is the identity. |
| ClientModel.DeleteTask | client/src/context/AppContext.jsx:151-159 | Inside projects with the project id, the tasks with the task id are filtered out. Every other project is unchanged, and the project count stays the same. |
| ClientModel.AddUserKeepsIdsUnique | client/src/context/AppContext.jsx:97-100 | A fresh generated id keeps user ids unique. |
| ClientModel.CreateProjectKeepsIdsUnique | client/src/context/AppContext.jsx:102-109 | A fresh generated id keeps project ids unique. |
| ClientModel.CreateTaskKeepsIdsUnique | client/src/context/AppContext.jsx:127-136 | A fresh generated id keeps every project's task ids unique. |
| AppContext.InitialState | client/src/context/AppContext.jsx:51-61 | The stored state when one parsed, otherwise exactly the seed `ClientModel.DefaultState()`. |
| AppContext.AppProvider.constructor | client/src/context/AppContext.jsx:51-73 | The provider starts with the initial state and the stored user, if any. |
| AppContext.AppProvider.Login | client/src/context/AppContext.jsx:87-93 | On success the matching user becomes the current user. On failure the message is returned and the current user is unchanged. |
| AppContext.AppProvider.Logout | client/src/context/AppContext.jsx:95 | Afterwards no user is signed in. |
| AppContext.AppProvider.AddUser | client/src/context/AppContext.jsx:97-100 | The state becomes `ClientModel.AddUser` of the old state. |
| AppContext.AppProvider.CreateProject | client/src/context/AppContext.jsx:102-109 | The state becomes `ClientModel.CreateProject` of the old state. |
| AppContext.AppProvider.UpdateProject | client/src/context/AppContext.jsx:111-118 | The state becomes `ClientModel.UpdateProject` of the old state. |
| AppContext.AppProvider.DeleteProject | client/src/context/AppContext.jsx:120-125 | The state becomes `ClientModel.DeleteProject` of the old state. |
| AppContext.AppProvider.CreateTask | client/src/context/AppContext.jsx:127-136 | The state becomes `ClientModel.CreateTask` of the old state. |
| AppContext.AppProvider.UpdateTask | client/src/context/AppContext.jsx:138-149 | The state becomes `ClientModel.UpdateTask` of the old state. |
| AppContext.AppProvider.DeleteTask | client/src/context/AppContext.jsx:151-159 | The state becomes `ClientModel.DeleteTask` of the old state. |
| Dashboard.FlattenLength | client/src/pages/Dashboard.jsx:21-28 | The flattened list has exactly `totalTasks` entries. |
| Dashboard.TotalProjects | client/src/pages/Dashboard.jsx:20 | Defined as the number of projects. Its behaviour under the rewrites is `Dashboard.ProjectCountAfterRewrites`. |
| Dashboard.ProjectCountAfterRewrites | client/src/pages/Dashboard.jsx:20 | `createProject` raises the project count by one and `deleteProject` lowers it by the number of projects with the id. The user and task rewrites and `updateProject` keep it. |
| Dashboard.TotalTasks | client/src/pages/Dashboard.jsx:21 | Defined as the sum of the projects' task counts. It is the flattened length (`Dashboard.FlattenLength`) and bounds the completed count (`Dashboard.CompletedAtMostTotal`). |
| Dashboard.CompletedTasks | client/src/pages/Dashboard.jsx:22-25 | Defined as the sum over projects of their `Completed` tasks. Its meaning is `Dashboard.CompletedCountsCompletedTasks`. |
| Dashboard.FlattenTasks | client/src/pages/Dashboard.jsx:26-28 | Defined as each project's tasks tagged with that project, concatenated. Its properties are `Dashboard.FlattenLength`, `Dashboard.FlattenAt` and `Dashboard.FlattenedFromParent`. |
| Dashboard.FlattenAt | client/src/pages/Dashboard.jsx:26-28 | The list is in project order, then task order. Task `j` of project `i` sits after all tasks of the earlier projects and is tagged with its own project's id and name. |
| Dashboard.FlattenedFromParent | client/src/pages/Dashboard.jsx:26-28 | Every entry of the flattened list is some project's task, tagged with that project. |
| Dashboard.CompletedCountsCompletedTasks | client/src/pages/Dashboard.jsx:22-25 | `completedTasks` is the number of flattened tasks whose status is `Completed`. |
| Dashboard.CompletedAtMostTotal | client/src/pages/Dashboard.jsx:21-25 | `completedTasks` is at most `totalTasks`. |
| Dashboard.DeletedProjectLeavesNoTasks | client/src/pages/Dashboard.jsx:26-28 | After a project is deleted, no flattened task is tagged with its id. |
| Dashboard.Workload | client/src/pages/Dashboard.jsx:109-111 | Each card is a user from `state.users`. Its tasks are exactly the flattened tasks assigned to that user, in order, and the list is never empty. |
| Dashboard.WorkloadListsEveryBusyUser | client/src/pages/Dashboard.jsx:109-111 | Every user with at least one assigned task has a card. |
| Dashboard.WorkloadOrder | client/src/pages/Dashboard.jsx:109-111 | The cards' users are exactly the users with work, in `state.users` order. |
| Dashboard.VisiblePanels | client/src/pages/Dashboard.jsx:87-102 | In page order, `admin` sees user management, the project board and the workload snapshot; `pm` sees the project board and the workload snapshot; `user` sees the task overview; any other role sees no panel. Each panel shows exactly for the roles its condition names. |
| Dashboard.Initials | client/src/pages/Dashboard.jsx:36-39 | Defined as the first characters of the `split(' ')` pieces, joined. Its meaning is `Dashboard.InitialsAreWordStarts`. |
| Dashboard.WordStarts | client/src/pages/Dashboard.jsx:36-39 | The reference initials are no longer than the name and contain no space. |
| Dashboard.FirstCharsOfSplit | client/src/pages/Dashboard.jsx:36-39 | Joining the first characters of the `split(' ')` pieces gives the characters that start a word. |
| Dashboard.InitialsAreWordStarts | client/src/pages/Dashboard.jsx:36-39 | The initials are the first characters of the space-separated words, in order. Empty words contribute nothing. |
| TaskOverview.AssignedTasks | client/src/components/TaskOverview.jsx:15-19 | The list is the order-preserving filter of the flattened tasks assigned to the current user: never longer than the flattened tasks, every entry assigned to the user, and in the flattened order (`TaskOverview.AssignedTasksKeepOrder`). |
| TaskOverview.AssignedTasksKeepOrder | client/src/components/TaskOverview.jsx:15-19 | Two of the user's tasks are listed in the order they have in the flattened list, that is, project order, then task order. |
| TaskOverview.ListedTaskHasParent | client/src/components/TaskOverview.jsx:15-19 | Each listed entry is some project's task, tagged with that project. |
| TaskOverview.AssignedTasksExactly | client/src/components/TaskOverview.jsx:15-19 | Every listed entry is a project's task tagged with its parent. Every task assigned to the user, in any project, is listed. |
| TaskOverview.EmptyStateIff | client/src/components/TaskOverview.jsx:21-34 | The "no tasks" card shows exactly when no task of any project is assigned to the current user. |
| TaskOverview.SnapshotCardIsOverview | client/src/pages/Dashboard.jsx:109-111 | A user's card in the workload snapshot lists exactly what that user's task overview lists, in order, and that overview is never the empty state. |
| TaskOverview.ChangeStatus | client/src/components/TaskOverview.jsx:57 | Defined as `updateTask` with the `{ status }` patch on the listed task's project and id. Its properties are `TaskOverview.ChangeStatusOnlyTouchesStatus`, `TaskOverview.ChangeStatusOfListedTask` and `TaskOverview.PickedStatusKeepsStatusesKnown`. |
| TaskOverview.ChangeStatusOnlyTouchesStatus | client/src/components/TaskOverview.jsx:57 | A status change rewrites only `status`, and only of tasks with the listed task's id inside projects with its project id. |
| TaskOverview.ChangeStatusOfTaskAt | client/src/components/TaskOverview.jsx:57 | With unique ids, changing the status of task `j` of project `i` sets exactly that task's status, and every other task stays as it was. |
| TaskOverview.ChangeStatusOfListedTask | client/src/components/TaskOverview.jsx:57 | With unique ids, exactly one task changes, and it is the listed task in its own parent project, with the new status. |
| TaskOverview.PickedStatusKeepsStatusesKnown | client/src/components/TaskOverview.jsx:57-63 | When every status is one of `TASK_STATUSES`, picking one of the offered statuses keeps it so. |
| JsText.LeadingSpaces | client/src/context/AppContext.jsx:88 | The count of leading characters that are white space: all of them are, and the next character, if any, is not. |
| JsText.TrailingSpaces | client/src/context/AppContext.jsx:88 | The count of trailing characters that are white space: all of them are, and the character before them, if any, is not. |
| JsText.Trim | client/src/context/AppContext.jsx:88 | The trim is never longer than the input. |
| JsText.TrimIsSlice | client/src/context/AppContext.jsx:88 | The trim is a slice of the input. Unless it is empty, its first and last characters are not white space. Everything cut off at either end is white space. |
| JsText.TrimUnique | client/src/context/AppContext.jsx:88 | Any slice with those three properties is the trim, so the trim is determined by them. |
| JsText.TrimKeepsTrimmed | client/src/context/AppContext.jsx:88 | A string without white space at its ends is its own trim. |
| JsText.TrimBlankIff | src/App.jsx:204 | The trim is empty exactly when every character is white space. |
| JsText.Split | client/src/pages/Dashboard.jsx:37 | `split` always yields at least one piece. |
| JsText.SplitPiecesHaveNoSeparator | client/src/pages/Dashboard.jsx:37 | No piece contains the separator. |
| JsText.JoinSplit | client/src/pages/Dashboard.jsx:37 | Joining the pieces with the separator gives the string back. |
| RootModel.DefaultData | src/App.jsx:6-13 | The seed has three users with distinct ids, one per role in the order `Admin`, `PM`, `Editor`, and no projects. |
| RootModel.InitialData | src/App.jsx:15-26 | The cached data when it parsed, otherwise the seed. |
| RootModel.AddUser | src/App.jsx:202-210 | A blank name changes nothing. Otherwise one user is appended with the untrimmed name and the chosen role, and projects are unchanged. |
| RootModel.AddUserUnchangedIff | src/App.jsx:202-210 | The data stays the same exactly when the name is all white space. |
| RootModel.RemoveUser | src/App.jsx:212-223 | The users are the order-preserving filter of those with other ids: exactly those remain, with their order and repeats kept (`RootModel.RemoveUserKeepsOrder`). `editorId` becomes empty on exactly the tasks the user edited. Every other task, every task count and every project's other fields stay the same. |
| RootModel.RemoveUserKeepsOrder | src/App.jsx:212-223 | Two remaining users appear in the order they were stored in. |
| RootModel.RemovedUserEditsNothing | src/App.jsx:212-223 | Afterwards no task has the removed user's id as `editorId`. |
| RootModel.RemovedUsersTasksUnassigned | src/App.jsx:212-223 | After the removal, each task of the removed user has no editor name to show. |
| RootModel.ChangeRow | src/App.jsx:225-230 | Only rows with the id get the new title or editor. Every other row and the form's other fields are kept. |
| RootModel.AddRow | src/App.jsx:232-237 | One blank row with the fresh id is appended. |
| RootModel.RemoveRow | src/App.jsx:239-244 | The rows with the id go, and the others keep their order. |
| RootModel.RemoveAddedRow | src/App.jsx:232-244 | Removing a row just added with a fresh id gives the form back. |
| RootModel.NewProject | src/App.jsx:246-266 | Defined as the project the guards let through: trimmed name and description, the prepared non-blank rows. Its properties are `RootModel.NewProjectRejectedIff`, `RootModel.NewProjectShape` and `RootModel.NewProjectFromOneRow`. |
| RootModel.CreateProject | src/App.jsx:246-269 | The new project, if any, is appended. Otherwise the data is unchanged. Users are unchanged either way. |
| RootModel.NewProjectRejectedIff | src/App.jsx:246-258 | No project is created exactly when the trimmed name is empty or every row's trimmed title is empty. The latter includes having no rows. |
| RootModel.NewProjectShape | src/App.jsx:248-266 | The created project has the trimmed name and description. Its tasks are the rows with non-blank titles, in order, each not started, not completed and with an empty log. |
| RootModel.PreparedTasksRoundTrip | src/App.jsx:248-255 | Reading each prepared task back as a row gives exactly the rows with non-blank titles, in order. Every prepared task is not started, not completed and has an empty log. |
| RootModel.NewProjectFromOneRow | src/App.jsx:246-266 | A named form whose one row has a title creates a project holding that row, prepared. |
| RootModel.UpdateTask | src/App.jsx:271-282 | The updater is applied only to tasks with the task id inside projects with the project id. Every other task, every task count and every project's other fields are kept. |
| RootModel.TaskToggle | src/App.jsx:284-286 | Defined as `updateTask` with an updater that sets one flag. Its properties are `RootModel.TaskToggleChangesOnlyTheFlag` and `RootModel.OtherRewritesKeepLogsPositive`. |
| RootModel.TaskToggleChangesOnlyTheFlag | src/App.jsx:284-286 | A toggle sets only the named flag of the target tasks, and nothing else changes. |
| RootModel.TotalMinutes | src/App.jsx:85 | Defined as the sum of the entries' minutes. Its property is `RootModel.TotalMinutesAppend`. |
| RootModel.LogTime | src/App.jsx:288-300 | Defined as `updateTask` with an updater that appends one entry. Its properties are `RootModel.LogTimeAppendsOneEntry`, `RootModel.LogTwice` and `RootModel.SubmittedTimeKeepsLogsPositive`. |
| RootModel.TotalMinutesAppend | src/App.jsx:85 | Appending an entry adds its minutes to the logged total. |
| RootModel.LogTimeAppendsOneEntry | src/App.jsx:288-300 | Each target task's log grows by exactly one entry at the end, with the given minutes and note. Its total grows by exactly the minutes. Every other task is unchanged. |
| RootModel.LogTwice | src/App.jsx:288-300 | Starting from an empty log, logging 30 and then 15 minutes leaves 2 entries totalling 45. |
| RootModel.SubmitTime | src/App.jsx:142-149 | The time is logged exactly when the parsed minutes are a number greater than 0, and always with the trimmed note. |
| RootModel.UpdateTaskKeepsLogsPositive | src/App.jsx:271-282 | A task update whose updater keeps logs positive keeps every logged entry of the data positive. |
| RootModel.OtherRewritesKeepLogsPositive | src/App.jsx:212-223 | Removing a user and toggling a flag keep every logged entry positive. |
| RootModel.CreationKeepsLogsPositive | src/App.jsx:246-269 | Adding a user and creating a project keep every logged entry positive, since created tasks start with an empty log. |
| RootModel.SubmittedTimeKeepsLogsPositive | src/App.jsx:288-300 | Logging what the guard lets through keeps every logged entry positive. |
| RootModel.TotalTasks | src/App.jsx:47 | Defined as the sum of the projects' task counts. Its properties are `RootModel.TotalTasksByCounts`, `RootModel.TaskRewritesKeepTotal` and `RootModel.CompletedAtMostTotal`. |
| RootModel.CompletedTasks | src/App.jsx:48-51 | Defined as the number of tasks whose `completed` flag is set. It is bounded by `RootModel.CompletedAtMostTotal`. |
| RootModel.CompletedAtMostTotal | src/App.jsx:47-51 | The completed badge is never more than the task total. |
| RootModel.TotalTasksByCounts | src/App.jsx:47 | Project lists with the same per-project task counts have the same total. |
| RootModel.TaskRewritesKeepTotal | src/App.jsx:212-223 | Removing a user and any task update leave the task total unchanged. |
| RootModel.Editors | src/App.jsx:200 | The editor picker is the order-preserving filter of the users whose role is `Editor`: exactly those, in their stored order (`RootModel.EditorsKeepOrder`). |
| RootModel.EditorsKeepOrder | src/App.jsx:200 | Two editors are listed in the order they were stored in. |
| RootModel.EditorName | src/App.jsx:84 | No name is shown exactly when no user has the task's `editorId`. Otherwise the name shown is that of the first user with that id. |
| RootModel.EditorTasks | src/App.jsx:302-314 | The view is empty unless the current user's role is `Editor`. |
| RootModel.TasksEditedBy | src/App.jsx:302-314 | Defined as each project's tasks with the user's `editorId`, tagged with the project. Its meaning is `RootModel.TasksEditedByIsFilter`. |
| RootModel.TasksEditedByIsFilter | src/App.jsx:302-314 | For an editor, the view is exactly the tagged tasks whose `editorId` is the user's id, in project-then-task order. Each is tagged with its project's name and id. |
| RootModel.CurrentUser | src/App.jsx:195-198 | When some user has the selected id, it is the first such user. Otherwise it falls back to the first user. It is `None` only when there are no users. |
| RootApp.App.constructor | src/App.jsx:180-187 | The app starts with the initial data, the first user selected, an empty user form with role `Editor`, and one blank project row. |
| RootApp.App.Current | src/App.jsx:195-198 | A current user exists exactly when there are users. |
| RootApp.App.SelectUser | src/App.jsx:329 | The picked id becomes the selected id. |
| RootApp.App.EditUserName | src/App.jsx:413 | Only the form's name changes, to the typed value. |
| RootApp.App.EditUserRole | src/App.jsx:421 | Only the form's role changes, to the picked value. |
| RootApp.App.EditProjectName | src/App.jsx:352 | Only the project form's name changes, to the typed value. |
| RootApp.App.EditProjectDescription | src/App.jsx:361 | Only the project form's description changes, to the typed value. |
| RootApp.App.ChangeTaskRow | src/App.jsx:225-230 | The form becomes `RootModel.ChangeRow` of the old form. |
| RootApp.App.AddTaskRow | src/App.jsx:232-237 | The form becomes `RootModel.AddRow` of the old form. |
| RootApp.App.RemoveTaskRow | src/App.jsx:239-244 | The form becomes `RootModel.RemoveRow` of the old form. |
| RootApp.App.HandleAddUser | src/App.jsx:202-210 | The data becomes `RootModel.AddUser` of the old data. The form resets only when a user was added. |
| RootApp.App.HandleRemoveUser | src/App.jsx:212-223 | The data becomes `RootModel.RemoveUser` of the old data. |
| RootApp.App.HandleCreateProject | src/App.jsx:246-269 | The data becomes `RootModel.CreateProject` of the old data. The form resets to one fresh blank row only when a project was created. |
| RootApp.App.HandleTaskToggle | src/App.jsx:284-286 | The data becomes the toggle of the old data. |
| RootApp.App.HandleLogTime | src/App.jsx:288-300 | The data becomes `RootModel.LogTime` of the old data. |
| RootApp.App.SubmitTimeLog | src/App.jsx:142-149 | What the guard lets through is logged. Anything else leaves the data unchanged. |

## Left out

- Browser storage: the `localStorage` reads and writes and the `JSON.parse` / `JSON.stringify` round trip are I/O. The constructors take the parsed value as an `Option` instead, where `None` means nothing was stored or it did not parse.
- Id generation: `generateId`, `crypto.randomUUID` and `Math.random` are nondeterministic, so every operation takes its ids as parameters.
- Ids generated inside an updater: `createTask` calls `generateId` once per project with the id, and `handleLogTime` calls `crypto.randomUUID` once per matching task (the updater runs for each task with the id inside each project with the id). So in JavaScript, two projects sharing an id get different new task ids, and two tasks sharing an id inside one project get different entry ids, but the model gives all of them the one id it is passed.
- React effects and scheduling: hooks, re-render timing and the effect that resets `selectedUserId` are not modelled (`src/App.jsx:189-193`). `CurrentUser` models the fallback that the page reads in the meantime.
- Rendering: all JSX, MUI, styling and theming, and the files that only forward form input to the core: `client/src/App.jsx`, `LoginPage.jsx`, `UserManagement.jsx`, `TaskDialog.jsx` and `ProjectBoard.jsx`.
- `Number()` parsing in the time logger: it arrives already parsed as an `Option<int>`. Fractional minutes, `Infinity` and numeric strings such as `"1e2"` are not modelled.
- The time logger's own `minutes` and `note` input state and its reset after a submit are not modelled.
- Text: JavaScript strings are sequences of UTF-16 code units, but Dafny `char` is a Unicode scalar value. Initials are not modelled for a name in which any space-separated word starts with an astral character: there `word[0]` is half a surrogate pair, while the model takes the whole character.
- The plaintext password check is modelled only as an equality test. How secure it is, is not modelled.
- The root version's role-dependent panels and buttons are rendering decisions and are not modelled.
- Payload fields: the forms always supply some payload fields. Those are plain fields. Only fields a spread may or may not carry are `Option` (`id` and `tasks` for projects, `id` and `status` for tasks, every field of a patch). A payload with extra keys is not modelled.
- Optional chaining on `task.timeLog?.length` and `task.timeLog?.reduce`: every task in the model has a log, so a missing `timeLog` is not modelled.
- RootModel.RemovedUserEditsNothing: it requires a non-empty user id. The empty id is what "unassigned" means, so removing id `""` leaves the unassigned tasks with `editorId` `""`.
- RootModel.EditorTasks: its own contract states only the non-editor case. The editor case is stated by `RootModel.TasksEditedByIsFilter`.
