/** The data of the root variant and the pure parts of its single component
    (src/App.jsx): the rewrites its handlers pass to `setData`, the time-logger guard,
    the summary counts and the editor's task view. */
module RootModel {
  import opened Wrappers
  import opened Seqs
  import JsText

  /** The roles the user form offers. */
  const Roles: seq<string> := ["Admin", "PM", "Editor"]
  const EditorRole: string := "Editor"

  datatype User = User(id: string, name: string, role: string)

  datatype TimeEntry = TimeEntry(id: string, minutes: int, note: string)

  datatype Task = Task(
    id: string, title: string, editorId: string, started: bool, completed: bool,
    timeLog: seq<TimeEntry>)

  datatype Project = Project(id: string, name: string, description: string, tasks: seq<Task>)

  datatype Data = Data(users: seq<User>, projects: seq<Project>)

  /** The user form (`newUser`). */
  datatype UserForm = UserForm(name: string, role: string)

  /** A task row of the project form. */
  datatype TaskRow = TaskRow(id: string, title: string, editorId: string)

  /** The project form (`newProject`). */
  datatype ProjectForm = ProjectForm(name: string, description: string, tasks: seq<TaskRow>)

  /** The seed data: one user per role, in the order of `Roles`, and no projects. */
  function DefaultData(): (d: Data)
    ensures |d.users| == 3 && d.projects == []
    ensures forall i, j :: 0 <= i < j < |d.users| ==> d.users[i].id != d.users[j].id
    ensures forall i :: 0 <= i < |d.users| ==> d.users[i].role == Roles[i]
  {
    Data([ User("u-admin", "Alice Admin", "Admin"),
           User("u-pm", "Patrick PM", "PM"),
           User("u-editor", "Eden Editor", "Editor") ],
         [])
  }

  /** The user form after a successful submission. */
  const EmptyUserForm: UserForm := UserForm("", EditorRole)

  /** The project form with one blank row, as the app starts it and resets it. */
  function EmptyProjectForm(rowId: string): ProjectForm {
    ProjectForm("", "", [TaskRow(rowId, "", "")])
  }

  /** `usePersistentData`'s initial value: the cached data when it parsed (`cached` is
      `None` when nothing is stored or the text is not valid JSON), otherwise the seed. */
  function InitialData(cached: Option<Data>): (d: Data)
    ensures cached.Some? ==> d == cached.value
    ensures cached.None? ==> d == DefaultData()
  {
    cached.GetOr(DefaultData())
  }

  // handleAddUser

  /** `!newUser.name.trim()`. */
  predicate IsBlank(s: string) {
    JsText.Trim(s) == []
  }

  /** `handleAddUser`: nothing when the name is blank, otherwise a user with the
      untrimmed name and the chosen role appended at the end. */
  function AddUser(data: Data, form: UserForm, freshId: string): (r: Data)
    ensures r.projects == data.projects
    ensures r.users == if IsBlank(form.name) then data.users else data.users + [User(freshId, form.name, form.role)]
  {
    if IsBlank(form.name) then data
    else Data(data.users + [User(freshId, form.name, form.role)], data.projects)
  }

  /** The data stays the same exactly when the name is nothing but white space. */
  lemma AddUserUnchangedIff(data: Data, form: UserForm, freshId: string)
    ensures AddUser(data, form, freshId) == data <==>
      forall k :: 0 <= k < |form.name| ==> JsText.IsSpace(form.name[k])
  {
    JsText.TrimBlankIff(form.name);
    if !IsBlank(form.name) {
      assert |AddUser(data, form, freshId).users| == |data.users| + 1;
    }
  }

  // handleRemoveUser

  function UserIsNot(userId: string): User -> bool {
    (u: User) => u.id != userId
  }

  /** `task.editorId === userId ? { ...task, editorId: '' } : task`. */
  function ClearEditor(t: Task, userId: string): Task {
    if t.editorId == userId then t.(editorId := "") else t
  }

  /** `handleRemoveUser`: the users with the id go, and every task they edited becomes
      unassigned; nothing else changes. */
  function RemoveUser(data: Data, userId: string): (r: Data)
    ensures forall k :: 0 <= k < |r.users| ==> r.users[k].id != userId && r.users[k] in data.users
    ensures forall k :: 0 <= k < |data.users| && data.users[k].id != userId ==> data.users[k] in r.users
    ensures r.users == Filter(data.users, UserIsNot(userId))
    ensures |r.projects| == |data.projects|
    ensures forall i :: 0 <= i < |data.projects| ==>
      r.projects[i].(tasks := data.projects[i].tasks) == data.projects[i]
      && |r.projects[i].tasks| == |data.projects[i].tasks|
    ensures forall i, j :: 0 <= i < |data.projects| && 0 <= j < |data.projects[i].tasks| ==>
      var t := data.projects[i].tasks[j];
      r.projects[i].tasks[j] == if t.editorId == userId then t.(editorId := "") else t
  {
    Data(Filter(data.users, UserIsNot(userId)),
         Map(data.projects, (p: Project) => p.(tasks := Map(p.tasks, (t: Task) => ClearEditor(t, userId)))))
  }

  /** Afterwards no task is edited by the removed user (user ids are never empty: the
      empty id is what "unassigned" means). */
  lemma RemovedUserEditsNothing(data: Data, userId: string)
    requires userId != ""
    ensures var r := RemoveUser(data, userId);
      forall i, j :: 0 <= i < |r.projects| && 0 <= j < |r.projects[i].tasks| ==>
        r.projects[i].tasks[j].editorId != userId
  {
  }

  // The project form's rows

  /** The two editable fields of a row. */
  datatype RowField = TitleField | EditorField

  function SetRowField(row: TaskRow, field: RowField, value: string): TaskRow {
    match field
    case TitleField => row.(title := value)
    case EditorField => row.(editorId := value)
  }

  /** `handleProjectTaskChange`: the rows with `rowId` get the new title or editor. */
  function ChangeRow(form: ProjectForm, rowId: string, field: RowField, value: string): (r: ProjectForm)
    ensures r.name == form.name && r.description == form.description && |r.tasks| == |form.tasks|
    ensures forall k :: 0 <= k < |form.tasks| ==>
      r.tasks[k] == if form.tasks[k].id == rowId then SetRowField(form.tasks[k], field, value) else form.tasks[k]
  {
    form.(tasks := Map(form.tasks, (row: TaskRow) => if row.id == rowId then SetRowField(row, field, value) else row))
  }

  /** `addTaskRow`: a blank row with a fresh id at the end. */
  function AddRow(form: ProjectForm, freshId: string): (r: ProjectForm)
    ensures r.name == form.name && r.description == form.description
    ensures r.tasks == form.tasks + [TaskRow(freshId, "", "")]
  {
    form.(tasks := form.tasks + [TaskRow(freshId, "", "")])
  }

  function RowIsNot(rowId: string): TaskRow -> bool {
    (row: TaskRow) => row.id != rowId
  }

  /** `removeTaskRow`: every row with `rowId` goes, the others keep their order. */
  function RemoveRow(form: ProjectForm, rowId: string): (r: ProjectForm)
    ensures r.name == form.name && r.description == form.description
    ensures r.tasks == Filter(form.tasks, RowIsNot(rowId))
  {
    form.(tasks := Filter(form.tasks, RowIsNot(rowId)))
  }

  /** Removing a row that was just added with an id no other row has gives the form back. */
  lemma RemoveAddedRow(form: ProjectForm, freshId: string)
    requires forall k :: 0 <= k < |form.tasks| ==> form.tasks[k].id != freshId
    ensures RemoveRow(AddRow(form, freshId), freshId) == form
  {
    FilterAppend(form.tasks, [TaskRow(freshId, "", "")], RowIsNot(freshId));
    FilterKeepsAll(form.tasks, RowIsNot(freshId));
    FilterDropsAll([TaskRow(freshId, "", "")], RowIsNot(freshId));
  }

  // handleCreateProject

  /** `task.title.trim()` is not empty. */
  function KeepRow(): TaskRow -> bool {
    (row: TaskRow) => !IsBlank(row.title)
  }

  /** `{ ...task, started: false, completed: false, timeLog: [] }`. */
  function PrepareRow(): TaskRow -> Task {
    (row: TaskRow) => Task(row.id, row.title, row.editorId, false, false, [])
  }

  /** The row a prepared task came from. */
  function RowOf(): Task -> TaskRow {
    (t: Task) => TaskRow(t.id, t.title, t.editorId)
  }

  /** `preparedTasks`. */
  function PreparedTasks(rows: seq<TaskRow>): seq<Task> {
    Map(Filter(rows, KeepRow()), PrepareRow())
  }

  /** The project `handleCreateProject` builds, or nothing when one of its guards returns early. */
  function NewProject(form: ProjectForm, freshId: string): Option<Project> {
    if IsBlank(form.name) || |form.tasks| == 0 then None
    else
      var prepared := PreparedTasks(form.tasks);
      if |prepared| == 0 then None
      else Some(Project(freshId, JsText.Trim(form.name), JsText.Trim(form.description), prepared))
  }

  /** `handleCreateProject`'s effect on the data: the new project, if any, appended. */
  function CreateProject(data: Data, form: ProjectForm, freshId: string): (r: Data)
    ensures r.users == data.users
    ensures r.projects == match NewProject(form, freshId)
      case None => data.projects
      case Some(p) => data.projects + [p]
  {
    match NewProject(form, freshId)
    case None => data
    case Some(p) => Data(data.users, data.projects + [p])
  }

  /** No project is created exactly when the trimmed name is empty or every row's trimmed
      title is empty (which includes having no rows). */
  lemma NewProjectRejectedIff(form: ProjectForm, freshId: string)
    ensures NewProject(form, freshId).None? <==>
      IsBlank(form.name) || forall k :: 0 <= k < |form.tasks| ==> IsBlank(form.tasks[k].title)
  {
    var kept := Filter(form.tasks, KeepRow());
    assert |PreparedTasks(form.tasks)| == |kept|;
    if forall k :: 0 <= k < |form.tasks| ==> IsBlank(form.tasks[k].title) {
      FilterDropsAll(form.tasks, KeepRow());
      assert kept == [];
    } else {
      var k :| 0 <= k < |form.tasks| && !IsBlank(form.tasks[k].title);
      assert KeepRow()(form.tasks[k]);
      assert form.tasks[k] in kept;
      assert |kept| > 0;
    }
  }

  /** The prepared tasks are the kept rows, each not started, not completed and with an
      empty log: dropping those three fields gives the kept rows back. */
  lemma PreparedTasksRoundTrip(rows: seq<TaskRow>)
    ensures Map(PreparedTasks(rows), RowOf()) == Filter(rows, KeepRow())
    ensures var tasks := PreparedTasks(rows);
      forall k :: 0 <= k < |tasks| ==> !tasks[k].started && !tasks[k].completed && tasks[k].timeLog == []
  {
    MapInverse(Filter(rows, KeepRow()), PrepareRow(), RowOf());
  }

  /** A created project carries the trimmed name and description, and its tasks are the
      rows with a non-blank title, in their original order, each not started, not
      completed and with an empty time log. */
  lemma NewProjectShape(form: ProjectForm, freshId: string)
    requires NewProject(form, freshId).Some?
    ensures var p := NewProject(form, freshId).value;
      && p.id == freshId && p.name == JsText.Trim(form.name) && p.description == JsText.Trim(form.description)
      && Map(p.tasks, RowOf()) == Filter(form.tasks, KeepRow())
      && forall k :: 0 <= k < |p.tasks| ==> !p.tasks[k].started && !p.tasks[k].completed && p.tasks[k].timeLog == []
  {
    assert NewProject(form, freshId).value.tasks == PreparedTasks(form.tasks);
    PreparedTasksRoundTrip(form.tasks);
  }

  /** A form with a non-blank name and a single row with a non-blank title creates a
      project whose only task is that row, prepared. */
  lemma NewProjectFromOneRow(form: ProjectForm, freshId: string)
    requires !IsBlank(form.name) && |form.tasks| == 1 && !IsBlank(form.tasks[0].title)
    ensures NewProject(form, freshId) ==
      Some(Project(freshId, JsText.Trim(form.name), JsText.Trim(form.description), [PrepareRow()(form.tasks[0])]))
  {
    assert form.tasks == [form.tasks[0]];
    FilterKeepsAll(form.tasks, KeepRow());
    var prepared := PreparedTasks(form.tasks);
    assert |prepared| == 1 && prepared[0] == PrepareRow()(form.tasks[0]);
    assert prepared == [PrepareRow()(form.tasks[0])];
  }

  // updateTask, handleTaskToggle, handleLogTime

  /** `updateTask`: `updater` is applied to the tasks with `taskId` inside the projects
      with `projectId`; every other task and every project field is kept. */
  function UpdateTask(data: Data, projectId: string, taskId: string, updater: Task -> Task): (r: Data)
    ensures r.users == data.users && |r.projects| == |data.projects|
    ensures forall i :: 0 <= i < |data.projects| ==>
      r.projects[i].(tasks := data.projects[i].tasks) == data.projects[i]
      && |r.projects[i].tasks| == |data.projects[i].tasks|
    ensures forall i, j :: 0 <= i < |data.projects| && 0 <= j < |data.projects[i].tasks| ==>
      r.projects[i].tasks[j] ==
        if data.projects[i].id == projectId && data.projects[i].tasks[j].id == taskId
        then updater(data.projects[i].tasks[j])
        else data.projects[i].tasks[j]
  {
    Data(data.users, Map(data.projects, (p: Project) =>
      if p.id != projectId then p
      else p.(tasks := Map(p.tasks, (t: Task) => if t.id == taskId then updater(t) else t))))
  }

  /** The two check boxes of a task. */
  datatype Flag = Started | Completed

  /** `{ ...task, [field]: value }`. */
  function SetFlag(field: Flag, value: bool): Task -> Task {
    (t: Task) => match field
      case Started => t.(started := value)
      case Completed => t.(completed := value)
  }

  /** `handleTaskToggle`. */
  function TaskToggle(data: Data, projectId: string, taskId: string, field: Flag, value: bool): Data {
    UpdateTask(data, projectId, taskId, SetFlag(field, value))
  }

  /** A toggle sets the named flag of the targeted tasks and changes nothing else. */
  lemma TaskToggleChangesOnlyTheFlag(data: Data, projectId: string, taskId: string, field: Flag, value: bool)
    ensures var r := TaskToggle(data, projectId, taskId, field, value);
      forall i, j :: 0 <= i < |data.projects| && 0 <= j < |data.projects[i].tasks| ==>
        var t := data.projects[i].tasks[j];
        var t' := r.projects[i].tasks[j];
        if data.projects[i].id == projectId && t.id == taskId
        then (field == Started ==> t' == t.(started := value)) && (field == Completed ==> t' == t.(completed := value))
        else t' == t
  {
  }

  /** `{ ...task, timeLog: [...task.timeLog, entry] }`. */
  function AppendEntry(entry: TimeEntry): Task -> Task {
    (t: Task) => t.(timeLog := t.timeLog + [entry])
  }

  /** `handleLogTime`; `entryId` stands for the generated id. */
  function LogTime(data: Data, projectId: string, taskId: string, minutes: int, note: string, entryId: string): Data {
    UpdateTask(data, projectId, taskId, AppendEntry(TimeEntry(entryId, minutes, note)))
  }

  /** `task.timeLog.reduce((sum, entry) => sum + entry.minutes, 0)`; 0 for an empty log. */
  function TotalMinutes(log: seq<TimeEntry>): int {
    if log == [] then 0 else log[0].minutes + TotalMinutes(log[1..])
  }

  /** Appending an entry adds its minutes to the total. */
  lemma {:induction false} TotalMinutesAppend(log: seq<TimeEntry>, e: TimeEntry)
    ensures TotalMinutes(log + [e]) == TotalMinutes(log) + e.minutes
  {
    if log != [] {
      assert (log + [e])[1..] == log[1..] + [e];
      TotalMinutesAppend(log[1..], e);
    }
  }

  /** Logging time grows each targeted task's log by exactly one entry at the end, keeps
      the earlier entries, and raises its logged total by exactly `minutes`; every other
      task is unchanged. */
  lemma LogTimeAppendsOneEntry(data: Data, projectId: string, taskId: string, minutes: int, note: string, entryId: string)
    ensures var r := LogTime(data, projectId, taskId, minutes, note, entryId);
      forall i, j :: 0 <= i < |data.projects| && 0 <= j < |data.projects[i].tasks| ==>
        var t := data.projects[i].tasks[j];
        var t' := r.projects[i].tasks[j];
        if data.projects[i].id == projectId && t.id == taskId
        then t' == t.(timeLog := t.timeLog + [TimeEntry(entryId, minutes, note)])
             && TotalMinutes(t'.timeLog) == TotalMinutes(t.timeLog) + minutes
        else t' == t
  {
    var r := LogTime(data, projectId, taskId, minutes, note, entryId);
    forall i, j | 0 <= i < |data.projects| && 0 <= j < |data.projects[i].tasks|
      && data.projects[i].id == projectId && data.projects[i].tasks[j].id == taskId
      ensures TotalMinutes(r.projects[i].tasks[j].timeLog) == TotalMinutes(data.projects[i].tasks[j].timeLog) + minutes
    {
      TotalMinutesAppend(data.projects[i].tasks[j].timeLog, TimeEntry(entryId, minutes, note));
    }
  }

  /** Two entries of 30 and 15 minutes on a task with an empty log make 45 minutes in 2 entries. */
  lemma LogTwice(data: Data, i: nat, j: nat, e1: string, e2: string)
    requires i < |data.projects| && j < |data.projects[i].tasks|
    requires data.projects[i].tasks[j].timeLog == []
    ensures var p := data.projects[i];
      var r := LogTime(LogTime(data, p.id, p.tasks[j].id, 30, "draft", e1), p.id, p.tasks[j].id, 15, "", e2);
      |r.projects[i].tasks[j].timeLog| == 2 && TotalMinutes(r.projects[i].tasks[j].timeLog) == 45
  {
    var p := data.projects[i];
    var once := LogTime(data, p.id, p.tasks[j].id, 30, "draft", e1);
    LogTimeAppendsOneEntry(data, p.id, p.tasks[j].id, 30, "draft", e1);
    LogTimeAppendsOneEntry(once, p.id, p.tasks[j].id, 15, "", e2);
    assert once.projects[i].id == p.id && once.projects[i].tasks[j].id == p.tasks[j].id;
  }

  // TimeLogger.handleSubmit

  /** What the time logger passes to `onLog`. */
  datatype LogRequest = LogRequest(minutes: int, note: string)

  /** `handleSubmit`: `parsed` is `Number(minutes)`, with `None` for a value that is not a
      number. Zero, non-numbers and negatives stop at `if (!parsed || parsed <= 0) return`;
      otherwise the minutes and the trimmed note are logged. */
  function SubmitTime(parsed: Option<int>, note: string): (r: Option<LogRequest>)
    ensures r.Some? <==> parsed.Some? && parsed.value > 0
    ensures r.Some? ==> r.value.minutes == parsed.value && r.value.note == JsText.Trim(note)
  {
    if parsed.None? || parsed.value == 0 || parsed.value <= 0 then None
    else Some(LogRequest(parsed.value, JsText.Trim(note)))
  }

  /** Every entry of a task's log is a positive number of minutes. */
  predicate PositiveLog(t: Task) {
    forall k :: 0 <= k < |t.timeLog| ==> t.timeLog[k].minutes > 0
  }

  /** Every logged entry of every task is a positive number of minutes. */
  predicate PositiveLogs(data: Data) {
    forall i, j :: 0 <= i < |data.projects| && 0 <= j < |data.projects[i].tasks| ==>
      PositiveLog(data.projects[i].tasks[j])
  }

  /** A task update whose updater keeps logs positive keeps every log positive. */
  lemma UpdateTaskKeepsLogsPositive(data: Data, projectId: string, taskId: string, updater: Task -> Task)
    requires PositiveLogs(data)
    requires forall t :: PositiveLog(t) ==> PositiveLog(updater(t))
    ensures PositiveLogs(UpdateTask(data, projectId, taskId, updater))
  {
  }

  /** Logging what the time logger lets through keeps every entry positive. */
  lemma SubmittedTimeKeepsLogsPositive(data: Data, projectId: string, taskId: string, parsed: Option<int>, note: string, entryId: string)
    requires PositiveLogs(data)
    requires SubmitTime(parsed, note).Some?
    ensures var req := SubmitTime(parsed, note).value;
      PositiveLogs(LogTime(data, projectId, taskId, req.minutes, req.note, entryId))
  {
    var req := SubmitTime(parsed, note).value;
    var entry := TimeEntry(entryId, req.minutes, req.note);
    forall t | PositiveLog(t)
      ensures PositiveLog(AppendEntry(entry)(t))
    {
      assert AppendEntry(entry)(t).timeLog == t.timeLog + [entry];
    }
    UpdateTaskKeepsLogsPositive(data, projectId, taskId, AppendEntry(entry));
  }

  /** Removing a user and toggling a flag leave every log as it was, so they keep it positive. */
  lemma OtherRewritesKeepLogsPositive(data: Data, userId: string, projectId: string, taskId: string, field: Flag, value: bool)
    requires PositiveLogs(data)
    ensures PositiveLogs(RemoveUser(data, userId))
    ensures PositiveLogs(TaskToggle(data, projectId, taskId, field, value))
  {
    var removed := RemoveUser(data, userId);
    forall i, j | 0 <= i < |removed.projects| && 0 <= j < |removed.projects[i].tasks|
      ensures PositiveLog(removed.projects[i].tasks[j])
    {
      assert removed.projects[i].tasks[j].timeLog == data.projects[i].tasks[j].timeLog;
    }
    forall t | PositiveLog(t)
      ensures PositiveLog(SetFlag(field, value)(t))
    {
      assert SetFlag(field, value)(t).timeLog == t.timeLog;
    }
    UpdateTaskKeepsLogsPositive(data, projectId, taskId, SetFlag(field, value));
  }

  /** Adding a user keeps every log, and a created project's tasks all start with an empty
      log, so both keep every logged entry positive. */
  lemma CreationKeepsLogsPositive(data: Data, userForm: UserForm, projectForm: ProjectForm, freshId: string)
    requires PositiveLogs(data)
    ensures PositiveLogs(AddUser(data, userForm, freshId))
    ensures PositiveLogs(CreateProject(data, projectForm, freshId))
  {
    if NewProject(projectForm, freshId).Some? {
      NewProjectShape(projectForm, freshId);
    }
  }

  // SummaryBadges

  /** `totalTasks`: the sum of the projects' task counts. */
  function TotalTasks(projects: seq<Project>): nat {
    if projects == [] then 0 else |projects[0].tasks| + TotalTasks(projects[1..])
  }

  function IsCompleted(): Task -> bool {
    (t: Task) => t.completed
  }

  /** `completedTasks`: the sum of the projects' counts of completed tasks. */
  function CompletedTasks(projects: seq<Project>): nat {
    if projects == [] then 0 else |Filter(projects[0].tasks, IsCompleted())| + CompletedTasks(projects[1..])
  }

  /** The badge never shows more completed tasks than tasks. */
  lemma {:induction false} CompletedAtMostTotal(projects: seq<Project>)
    ensures CompletedTasks(projects) <= TotalTasks(projects)
  {
    if projects != [] {
      CompletedAtMostTotal(projects[1..]);
    }
  }

  /** Two project lists whose projects have the same task counts have the same total. */
  lemma {:induction false} TotalTasksByCounts(a: seq<Project>, b: seq<Project>)
    requires |a| == |b| && forall i :: 0 <= i < |a| ==> |a[i].tasks| == |b[i].tasks|
    ensures TotalTasks(a) == TotalTasks(b)
  {
    if a != [] {
      TotalTasksByCounts(a[1..], b[1..]);
    }
  }

  /** Removing a user, toggling a flag and logging time keep every task count, so the
      total badge is unchanged. */
  lemma TaskRewritesKeepTotal(data: Data, userId: string, projectId: string, taskId: string, updater: Task -> Task)
    ensures TotalTasks(RemoveUser(data, userId).projects) == TotalTasks(data.projects)
    ensures TotalTasks(UpdateTask(data, projectId, taskId, updater).projects) == TotalTasks(data.projects)
  {
    TotalTasksByCounts(RemoveUser(data, userId).projects, data.projects);
    TotalTasksByCounts(UpdateTask(data, projectId, taskId, updater).projects, data.projects);
  }

  /** `editors`: the users offered in a row's editor picker. */
  function IsEditor(): User -> bool {
    (u: User) => u.role == EditorRole
  }

  function Editors(users: seq<User>): (r: seq<User>)
    ensures forall k :: 0 <= k < |r| ==> r[k] in users && r[k].role == EditorRole
    ensures forall k :: 0 <= k < |users| && users[k].role == EditorRole ==> users[k] in r
    ensures r == Filter(users, IsEditor())
  {
    Filter(users, IsEditor())
  }

  /** The editor picker lists the editors in their stored order. */
  lemma EditorsKeepOrder(users: seq<User>, i: nat, j: nat)
    requires i < j < |users| && users[i].role == EditorRole && users[j].role == EditorRole
    ensures var r := Editors(users);
      exists a, b :: 0 <= a < b < |r| && r[a] == users[i] && r[b] == users[j]
  {
    var r := Editors(users);
    assert IsEditor()(users[i]) && IsEditor()(users[j]);
    FilterKeepsOrder(users, IsEditor(), i, j);
    var a, b :| 0 <= a < b < |r| && r[a] == users[i] && r[b] == users[j];
  }

  /** Removing a user keeps the other users in their stored order. */
  lemma RemoveUserKeepsOrder(data: Data, userId: string, i: nat, j: nat)
    requires i < j < |data.users| && data.users[i].id != userId && data.users[j].id != userId
    ensures var r := RemoveUser(data, userId).users;
      exists a, b :: 0 <= a < b < |r| && r[a] == data.users[i] && r[b] == data.users[j]
  {
    var r := RemoveUser(data, userId).users;
    assert r == Filter(data.users, UserIsNot(userId));
    assert UserIsNot(userId)(data.users[i]) && UserIsNot(userId)(data.users[j]);
    FilterKeepsOrder(data.users, UserIsNot(userId), i, j);
  }

  /** The name a task card shows: the first user whose id is the task's `editorId`, or
      `None` for "Unassigned". */
  function EditorName(users: seq<User>, t: Task): (r: Option<string>)
    ensures r.None? <==> forall k :: 0 <= k < |users| ==> users[k].id != t.editorId
    ensures r.Some? ==> exists k :: IsFirst(users, k, HasId(t.editorId)) && r.value == users[k].name
  {
    match FirstIndex(users, HasId(t.editorId))
    case None => None
    case Some(k) => Some(users[k].name)
  }

  /** After a user is removed, every task that user edited shows as unassigned (no user
      has the empty id). */
  lemma RemovedUsersTasksUnassigned(data: Data, userId: string, i: nat, j: nat)
    requires forall k :: 0 <= k < |data.users| ==> data.users[k].id != ""
    requires i < |data.projects| && j < |data.projects[i].tasks| && data.projects[i].tasks[j].editorId == userId
    ensures var r := RemoveUser(data, userId);
      EditorName(r.users, r.projects[i].tasks[j]).None?
  {
    var r := RemoveUser(data, userId);
    forall k | 0 <= k < |r.users|
      ensures r.users[k].id != ""
    {
      assert r.users[k] in data.users;
    }
  }

  // The editor's task view and the current user

  /** A task as the editor view lists it: `{ ...task, projectName, projectId }`. */
  datatype EditorTask = EditorTask(task: Task, projectName: string, projectId: string)

  function EditedBy(userId: string): Task -> bool {
    (t: Task) => t.editorId == userId
  }

  function TagWith(p: Project): Task -> EditorTask {
    (t: Task) => EditorTask(t, p.name, p.id)
  }

  /** `projects.flatMap((project) => project.tasks.filter(edited by user).map(tag))`. */
  function TasksEditedBy(projects: seq<Project>, userId: string): seq<EditorTask> {
    if projects == [] then []
    else Map(Filter(projects[0].tasks, EditedBy(userId)), TagWith(projects[0])) + TasksEditedBy(projects[1..], userId)
  }

  /** `editorTasks`: empty unless the current user is an editor, otherwise the tasks that
      user edits. */
  function EditorTasks(data: Data, currentUser: Option<User>): (r: seq<EditorTask>)
    ensures currentUser.None? || currentUser.value.role != EditorRole ==> r == []
  {
    if currentUser.None? || currentUser.value.role != EditorRole then []
    else TasksEditedBy(data.projects, currentUser.value.id)
  }

  /** Reference definition: every task of every project, tagged, in project-then-task order. */
  function AllTagged(projects: seq<Project>): seq<EditorTask> {
    if projects == [] then [] else Map(projects[0].tasks, TagWith(projects[0])) + AllTagged(projects[1..])
  }

  function TaggedEditedBy(userId: string): EditorTask -> bool {
    (et: EditorTask) => et.task.editorId == userId
  }

  /** For an editor, the view is exactly the tagged tasks whose `editorId` is the user's id,
      in project-then-task order. */
  lemma {:induction false} TasksEditedByIsFilter(projects: seq<Project>, userId: string)
    ensures TasksEditedBy(projects, userId) == Filter(AllTagged(projects), TaggedEditedBy(userId))
  {
    if projects != [] {
      var p := projects[0];
      TasksEditedByIsFilter(projects[1..], userId);
      FilterAppend(Map(p.tasks, TagWith(p)), AllTagged(projects[1..]), TaggedEditedBy(userId));
      FilterMapCommute(p.tasks, TagWith(p), TaggedEditedBy(userId), EditedBy(userId));
    }
  }

  /** The predicate `u.id === id` handed to `find`. */
  function HasId(id: string): User -> bool {
    (u: User) => u.id == id
  }

  /** `currentUser`: the first user with the selected id, falling back to the first user
      (`None` when there are no users; `selectedUserId` is `None` while it is undefined). */
  function CurrentUser(users: seq<User>, selectedUserId: Option<string>): (r: Option<User>)
    ensures r.None? <==> users == []
    ensures selectedUserId.Some? && (exists k :: 0 <= k < |users| && users[k].id == selectedUserId.value) ==>
      exists k :: IsFirst(users, k, HasId(selectedUserId.value)) && r == Some(users[k])
    ensures (selectedUserId.None? || forall k :: 0 <= k < |users| ==> users[k].id != selectedUserId.value) && users != [] ==>
      r == Some(users[0])
  {
    var found := if selectedUserId.None? then None else FirstIndex(users, HasId(selectedUserId.value));
    match found
    case Some(k) => Some(users[k])
    case None => if users == [] then None else Some(users[0])
  }
}
