/** The state of the `client/` variant and the pure rewrites that its context
    provider hands to `setState` (client/src/context/AppContext.jsx). */
module ClientModel {
  import opened Wrappers
  import opened Seqs
  import JsText

  /** The task statuses the context exposes, in the order the status pickers list them. */
  const TaskStatuses: seq<string> := ["Started", "In Progress", "Completed"]
  /** The status a created task gets when its payload carries none. */
  const DefaultStatus: string := "Started"
  /** The message the failed login throws. */
  const InvalidCredentials: string := "Invalid credentials. Try one of the demo accounts."

  datatype User = User(id: string, name: string, email: string, role: string, password: string)

  datatype Task = Task(
    id: string, title: string, description: string, dueDate: string,
    assignedTo: string, status: string)

  datatype Project = Project(
    id: string, name: string, description: string, ownerId: string, dueDate: string,
    tasks: seq<Task>)

  datatype State = State(users: seq<User>, projects: seq<Project>)

  /** What `addUser` receives: the user form's fields, and possibly an `id`. */
  datatype UserPayload = UserPayload(
    id: Option<string>, name: string, email: string, role: string, password: string)

  /** What `createProject` receives: the project form's fields, and possibly an `id` or `tasks`. */
  datatype ProjectPayload = ProjectPayload(
    id: Option<string>, name: string, description: string, ownerId: string, dueDate: string,
    tasks: Option<seq<Task>>)

  /** What `createTask` receives: the task dialog's fields, and possibly an `id` or a `status`. */
  datatype TaskPayload = TaskPayload(
    id: Option<string>, title: string, description: string, dueDate: string,
    assignedTo: string, status: Option<string>)

  /** The `updates` object of `updateProject`: any subset of a project's fields. */
  datatype ProjectPatch = ProjectPatch(
    id: Option<string>, name: Option<string>, description: Option<string>,
    ownerId: Option<string>, dueDate: Option<string>, tasks: Option<seq<Task>>)

  /** The `updates` object of `updateTask`: any subset of a task's fields. */
  datatype TaskPatch = TaskPatch(
    id: Option<string>, title: Option<string>, description: Option<string>,
    dueDate: Option<string>, assignedTo: Option<string>, status: Option<string>)

  /** The empty object `{}`. */
  const NoProjectChanges: ProjectPatch := ProjectPatch(None, None, None, None, None, None)
  const NoTaskChanges: TaskPatch := TaskPatch(None, None, None, None, None, None)

  /** `{ status }`, the patch the task overview sends. */
  function StatusPatch(status: string): TaskPatch {
    NoTaskChanges.(status := Some(status))
  }

  /** `{ ...project, ...updates }`: every field the patch carries overrides the project's. */
  function PatchProject(p: Project, u: ProjectPatch): Project {
    Project(u.id.GetOr(p.id), u.name.GetOr(p.name), u.description.GetOr(p.description),
            u.ownerId.GetOr(p.ownerId), u.dueDate.GetOr(p.dueDate), u.tasks.GetOr(p.tasks))
  }

  /** `{ ...task, ...updates }`. */
  function PatchTask(t: Task, u: TaskPatch): Task {
    Task(u.id.GetOr(t.id), u.title.GetOr(t.title), u.description.GetOr(t.description),
         u.dueDate.GetOr(t.dueDate), u.assignedTo.GetOr(t.assignedTo), u.status.GetOr(t.status))
  }

  /** `{ id: generateId('user'), ...payload }`. */
  function NewUser(payload: UserPayload, freshId: string): User {
    User(payload.id.GetOr(freshId), payload.name, payload.email, payload.role, payload.password)
  }

  /** `{ id: generateId('project'), tasks: [], ...payload }`. */
  function NewProject(payload: ProjectPayload, freshId: string): Project {
    Project(payload.id.GetOr(freshId), payload.name, payload.description, payload.ownerId,
            payload.dueDate, payload.tasks.GetOr([]))
  }

  /** `{ id: generateId('task'), status: 'Started', ...payload }`. */
  function NewTask(payload: TaskPayload, freshId: string): Task {
    Task(payload.id.GetOr(freshId), payload.title, payload.description, payload.dueDate,
         payload.assignedTo, payload.status.GetOr(DefaultStatus))
  }

  /** The seed state: three demo accounts, one per role, and no projects. */
  function DefaultState(): (s: State)
    ensures |s.users| == 3 && s.projects == []
    ensures forall i, j :: 0 <= i < j < |s.users| ==> s.users[i].id != s.users[j].id
    ensures forall i, j :: 0 <= i < j < |s.users| ==> s.users[i].role != s.users[j].role
    ensures forall i, j :: 0 <= i < j < |s.users| ==> s.users[i].email != s.users[j].email
    ensures {s.users[0].role, s.users[1].role, s.users[2].role} == {"admin", "pm", "user"}
  {
    State(
      [ User("u-admin", "Avery Admin", "admin@demo.com", "admin", "admin123"),
        User("u-pm", "Peyton PM", "pm@demo.com", "pm", "pm123"),
        User("u-user", "Uri User", "user@demo.com", "user", "user123") ],
      [])
  }

  predicate UniqueUserIds(users: seq<User>) {
    forall i, j :: 0 <= i < j < |users| ==> users[i].id != users[j].id
  }

  predicate UniqueProjectIds(projects: seq<Project>) {
    forall i, j :: 0 <= i < j < |projects| ==> projects[i].id != projects[j].id
  }

  predicate UniqueTaskIds(tasks: seq<Task>) {
    forall i, j :: 0 <= i < j < |tasks| ==> tasks[i].id != tasks[j].id
  }

  /** The predicate `u.email === email` that `login` hands to `find`. */
  function HasEmail(email: string): User -> bool {
    (u: User) => u.email == email
  }

  /** The check `login` makes: the first user whose email equals the trimmed email must
      have exactly the given password; a later user with the same email is never tried. */
  function Authenticate(users: seq<User>, email: string, password: string): (r: Result<User, string>)
    ensures r.Ok? <==> (exists i :: IsFirst(users, i, HasEmail(JsText.Trim(email))) && users[i].password == password)
    ensures r.Ok? ==> exists i :: IsFirst(users, i, HasEmail(JsText.Trim(email))) && r.value == users[i] && users[i].password == password
    ensures r.Err? ==> r.error == InvalidCredentials
  {
    match FirstIndex(users, HasEmail(JsText.Trim(email)))
    case None => Err(InvalidCredentials)
    case Some(i) => if users[i].password != password then Err(InvalidCredentials) else Ok(users[i])
  }

  /** `addUser`: one user appended at the end; everything else is kept. */
  function AddUser(s: State, payload: UserPayload, freshId: string): (r: State)
    ensures |r.users| == |s.users| + 1 && r.users[..|s.users|] == s.users
    ensures r.projects == s.projects
    ensures r.users[|s.users|] == NewUser(payload, freshId)
  {
    State(s.users + [NewUser(payload, freshId)], s.projects)
  }

  /** `createProject`: one project appended at the end; everything else is kept. */
  function CreateProject(s: State, payload: ProjectPayload, freshId: string): (r: State)
    ensures |r.projects| == |s.projects| + 1 && r.projects[..|s.projects|] == s.projects
    ensures r.users == s.users
    ensures r.projects[|s.projects|] == NewProject(payload, freshId)
  {
    State(s.users, s.projects + [NewProject(payload, freshId)])
  }

  /** `updateProject`: the projects with the id are overridden by the patch, the others kept. */
  function UpdateProject(s: State, projectId: string, updates: ProjectPatch): (r: State)
    ensures r.users == s.users && |r.projects| == |s.projects|
    ensures forall i :: 0 <= i < |s.projects| && s.projects[i].id != projectId ==>
      r.projects[i] == s.projects[i]
    ensures forall i :: 0 <= i < |s.projects| && s.projects[i].id == projectId ==>
      r.projects[i] == PatchProject(s.projects[i], updates)
  {
    State(s.users, Map(s.projects, (p: Project) => if projectId == p.id then PatchProject(p, updates) else p))
  }

  /** The predicate `project.id !== projectId` of `deleteProject`, and its negation. */
  function ProjectIsNot(projectId: string): Project -> bool {
    (p: Project) => p.id != projectId
  }

  function ProjectIs(projectId: string): Project -> bool {
    (p: Project) => p.id == projectId
  }

  /** `deleteProject`: the projects with a different id, in their original order. */
  function DeleteProject(s: State, projectId: string): (r: State)
    ensures r.users == s.users
    ensures forall i :: 0 <= i < |r.projects| ==> r.projects[i].id != projectId && r.projects[i] in s.projects
    ensures forall i :: 0 <= i < |s.projects| && s.projects[i].id != projectId ==> s.projects[i] in r.projects
    ensures r.projects == Filter(s.projects, ProjectIsNot(projectId))
  {
    State(s.users, Filter(s.projects, ProjectIsNot(projectId)))
  }

  /** `createTask`: the task is appended to the task list of each project with the id. */
  function CreateTask(s: State, projectId: string, payload: TaskPayload, freshId: string): (r: State)
    ensures r.users == s.users && |r.projects| == |s.projects|
    ensures forall i :: 0 <= i < |s.projects| && s.projects[i].id != projectId ==>
      r.projects[i] == s.projects[i]
    ensures forall i :: 0 <= i < |s.projects| && s.projects[i].id == projectId ==>
      r.projects[i] == s.projects[i].(tasks := s.projects[i].tasks + [NewTask(payload, freshId)])
  {
    State(s.users, Map(s.projects, (p: Project) =>
      if p.id != projectId then p else p.(tasks := p.tasks + [NewTask(payload, freshId)])))
  }

  /** The task rewrite `updateTask` applies inside a matching project. */
  function PatchTasks(tasks: seq<Task>, taskId: string, updates: TaskPatch): seq<Task> {
    Map(tasks, (t: Task) => if t.id == taskId then PatchTask(t, updates) else t)
  }

  /** `updateTask`: inside the projects with `projectId`, the tasks with `taskId` are
      overridden by the patch; every other task and every project field is kept. */
  function UpdateTask(s: State, projectId: string, taskId: string, updates: TaskPatch): (r: State)
    ensures r.users == s.users && |r.projects| == |s.projects|
    ensures forall i :: 0 <= i < |s.projects| ==>
      r.projects[i].(tasks := s.projects[i].tasks) == s.projects[i]
      && |r.projects[i].tasks| == |s.projects[i].tasks|
    ensures forall i, j :: 0 <= i < |s.projects| && 0 <= j < |s.projects[i].tasks| ==>
      r.projects[i].tasks[j] ==
        if s.projects[i].id == projectId && s.projects[i].tasks[j].id == taskId
        then PatchTask(s.projects[i].tasks[j], updates)
        else s.projects[i].tasks[j]
  {
    State(s.users, Map(s.projects, (p: Project) =>
      if p.id != projectId then p else p.(tasks := PatchTasks(p.tasks, taskId, updates))))
  }

  /** The task filter `deleteTask` applies inside a matching project. */
  function TaskIsNot(taskId: string): Task -> bool {
    (t: Task) => t.id != taskId
  }

  /** `deleteTask`: inside the projects with `projectId`, the tasks with `taskId` are
      dropped; every other project is kept. */
  function DeleteTask(s: State, projectId: string, taskId: string): (r: State)
    ensures r.users == s.users && |r.projects| == |s.projects|
    ensures forall i :: 0 <= i < |s.projects| && s.projects[i].id != projectId ==>
      r.projects[i] == s.projects[i]
    ensures forall i :: 0 <= i < |s.projects| && s.projects[i].id == projectId ==>
      r.projects[i] == s.projects[i].(tasks := Filter(s.projects[i].tasks, TaskIsNot(taskId)))
  {
    State(s.users, Map(s.projects, (p: Project) =>
      if p.id != projectId then p else p.(tasks := Filter(p.tasks, TaskIsNot(taskId)))))
  }

  // Properties of the rewrites

  /** Login with a seed account's email and a wrong password fails with the message. */
  lemma WrongPasswordFails()
    ensures Authenticate(DefaultState().users, "admin@demo.com", "wrong") == Err(InvalidCredentials)
  {
    JsText.TrimKeepsTrimmed("admin@demo.com");
    assert FirstIndex(DefaultState().users, HasEmail("admin@demo.com")) == Some(0);
  }

  /** Login with a seed account's email and its own password signs that account in. */
  lemma RightPasswordLogsIn()
    ensures Authenticate(DefaultState().users, "admin@demo.com", "admin123") == Ok(DefaultState().users[0])
  {
    JsText.TrimKeepsTrimmed("admin@demo.com");
    assert FirstIndex(DefaultState().users, HasEmail("admin@demo.com")) == Some(0);
  }

  /** Login compares the password exactly: a trailing space makes it fail. */
  lemma PaddedPasswordFails()
    ensures Authenticate(DefaultState().users, "pm@demo.com", "pm123 ") == Err(InvalidCredentials)
  {
    JsText.TrimKeepsTrimmed("pm@demo.com");
    assert FirstIndex(DefaultState().users, HasEmail("pm@demo.com")) == Some(1);
  }

  /** `updateProject` with an id no project has changes nothing. */
  lemma UpdateProjectAbsentIsNoOp(s: State, projectId: string, updates: ProjectPatch)
    requires forall i :: 0 <= i < |s.projects| ==> s.projects[i].id != projectId
    ensures UpdateProject(s, projectId, updates) == s
  {
    assert UpdateProject(s, projectId, updates).projects == s.projects;
  }

  /** `updateProject(id, {})` leaves the state equal. */
  lemma UpdateProjectNoChanges(s: State, projectId: string)
    ensures UpdateProject(s, projectId, NoProjectChanges) == s
  {
    assert UpdateProject(s, projectId, NoProjectChanges).projects == s.projects;
  }

  /** `deleteProject` removes exactly the projects with the id: the count drops by their number. */
  lemma DeleteProjectCount(s: State, projectId: string)
    ensures |DeleteProject(s, projectId).projects| == |s.projects| - |Filter(s.projects, ProjectIs(projectId))|
  {
    FilterPartition(s.projects, ProjectIs(projectId), ProjectIsNot(projectId));
  }

  /** `deleteProject` keeps the remaining projects in their original order: two kept
      projects appear in the result in the order they had before. */
  lemma DeleteProjectKeepsOrder(s: State, projectId: string, i: nat, j: nat)
    requires i < j < |s.projects| && s.projects[i].id != projectId && s.projects[j].id != projectId
    ensures var r := DeleteProject(s, projectId).projects;
      exists a, b :: 0 <= a < b < |r| && r[a] == s.projects[i] && r[b] == s.projects[j]
  {
    FilterKeepsOrder(s.projects, ProjectIsNot(projectId), i, j);
  }

  /** With unique project ids, `deleteProject` removes one project when the id is present
      and none otherwise. */
  lemma DeleteProjectWithUniqueIds(s: State, projectId: string)
    requires UniqueProjectIds(s.projects)
    ensures |DeleteProject(s, projectId).projects| ==
      |s.projects| - (if exists i :: 0 <= i < |s.projects| && s.projects[i].id == projectId then 1 else 0)
  {
    DeleteProjectCount(s, projectId);
    if k :| 0 <= k < |s.projects| && s.projects[k].id == projectId {
      FilterExactlyOne(s.projects, ProjectIs(projectId), k);
    } else {
      FilterDropsAll(s.projects, ProjectIs(projectId));
    }
  }

  /** `createTask` on an id no project has changes nothing. */
  lemma CreateTaskAbsentIsNoOp(s: State, projectId: string, payload: TaskPayload, freshId: string)
    requires forall i :: 0 <= i < |s.projects| ==> s.projects[i].id != projectId
    ensures CreateTask(s, projectId, payload, freshId) == s
  {
    assert CreateTask(s, projectId, payload, freshId).projects == s.projects;
  }

  /** The task `createTask` appends is `'Started'` unless the payload brings a status. */
  lemma CreatedTaskStatus(s: State, projectId: string, payload: TaskPayload, freshId: string, i: nat)
    requires i < |s.projects| && s.projects[i].id == projectId
    ensures var tasks := CreateTask(s, projectId, payload, freshId).projects[i].tasks;
      && |tasks| == |s.projects[i].tasks| + 1
      && tasks[|tasks| - 1].status == (if payload.status.Some? then payload.status.value else "Started")
      && tasks[|tasks| - 1].id == (if payload.id.Some? then payload.id.value else freshId)
  {
  }

  /** `updateTask(pid, tid, {})` is the identity. */
  lemma UpdateTaskNoChanges(s: State, projectId: string, taskId: string)
    ensures UpdateTask(s, projectId, taskId, NoTaskChanges) == s
  {
    var r := UpdateTask(s, projectId, taskId, NoTaskChanges);
    forall i | 0 <= i < |s.projects|
      ensures r.projects[i] == s.projects[i]
    {
      assert r.projects[i].tasks == s.projects[i].tasks;
    }
    assert r.projects == s.projects;
  }

  /** A fresh generated id keeps the user ids unique. */
  lemma AddUserKeepsIdsUnique(s: State, payload: UserPayload, freshId: string)
    requires UniqueUserIds(s.users) && payload.id.None?
    requires forall i :: 0 <= i < |s.users| ==> s.users[i].id != freshId
    ensures UniqueUserIds(AddUser(s, payload, freshId).users)
  {
    var r := AddUser(s, payload, freshId);
    assert forall i :: 0 <= i < |s.users| ==> r.users[i] == s.users[i];
  }

  /** A fresh generated id keeps the project ids unique. */
  lemma CreateProjectKeepsIdsUnique(s: State, payload: ProjectPayload, freshId: string)
    requires UniqueProjectIds(s.projects) && payload.id.None?
    requires forall i :: 0 <= i < |s.projects| ==> s.projects[i].id != freshId
    ensures UniqueProjectIds(CreateProject(s, payload, freshId).projects)
  {
    var r := CreateProject(s, payload, freshId);
    assert forall i :: 0 <= i < |s.projects| ==> r.projects[i] == s.projects[i];
  }

  /** A fresh generated id keeps every project's task ids unique. */
  lemma CreateTaskKeepsIdsUnique(s: State, projectId: string, payload: TaskPayload, freshId: string)
    requires forall i :: 0 <= i < |s.projects| ==> UniqueTaskIds(s.projects[i].tasks)
    requires payload.id.None?
    requires forall i, j :: 0 <= i < |s.projects| && 0 <= j < |s.projects[i].tasks| ==>
      s.projects[i].tasks[j].id != freshId
    ensures var r := CreateTask(s, projectId, payload, freshId);
      forall i :: 0 <= i < |r.projects| ==> UniqueTaskIds(r.projects[i].tasks)
  {
    var r := CreateTask(s, projectId, payload, freshId);
    forall i | 0 <= i < |r.projects|
      ensures UniqueTaskIds(r.projects[i].tasks)
    {
      if s.projects[i].id == projectId {
        var before := s.projects[i].tasks;
        assert r.projects[i].tasks == before + [NewTask(payload, freshId)];
      }
    }
  }
}
