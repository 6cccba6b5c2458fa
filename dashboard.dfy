/** The derived views of the `client/` dashboard (client/src/pages/Dashboard.jsx):
    the summary counts, the flattened task list, the workload snapshot, the panels a
    role sees and the avatar initials. */
module Dashboard {
  import opened Seqs
  import opened ClientModel
  import JsText

  /** A task tagged with the project that holds it, as `{ ...task, projectId, projectName }`. */
  datatype FlatTask = FlatTask(task: Task, projectId: string, projectName: string)

  /** One project's tasks, each tagged with that project. */
  function Tagged(p: Project): seq<FlatTask> {
    Map(p.tasks, (t: Task) => FlatTask(t, p.id, p.name))
  }

  /** `flattenedTasks`: `projects.flatMap(tagged tasks)`. */
  function FlattenTasks(projects: seq<Project>): seq<FlatTask> {
    if projects == [] then [] else Tagged(projects[0]) + FlattenTasks(projects[1..])
  }

  /** `totalTasks`: the sum of the projects' task counts. */
  function TotalTasks(projects: seq<Project>): nat {
    if projects == [] then 0 else |projects[0].tasks| + TotalTasks(projects[1..])
  }

  function IsCompleted(): Task -> bool {
    (t: Task) => t.status == "Completed"
  }

  function FlatIsCompleted(): FlatTask -> bool {
    (ft: FlatTask) => ft.task.status == "Completed"
  }

  /** `completedTasks`: the sum over projects of their tasks whose status is `'Completed'`. */
  function CompletedTasks(projects: seq<Project>): nat {
    if projects == [] then 0
    else |Filter(projects[0].tasks, IsCompleted())| + CompletedTasks(projects[1..])
  }

  /** `totalProjects`. */
  function TotalProjects(s: State): nat {
    |s.projects|
  }

  /** The flattened list has one entry per task: its length is `totalTasks`. */
  lemma {:induction false} FlattenLength(projects: seq<Project>)
    ensures |FlattenTasks(projects)| == TotalTasks(projects)
  {
    if projects != [] {
      FlattenLength(projects[1..]);
    }
  }

  /** Project order, then task order: task `j` of project `i` sits after all tasks of the
      projects before `i`, tagged with project `i`'s own id and name. */
  lemma {:induction false} FlattenAt(projects: seq<Project>, i: nat, j: nat)
    requires i < |projects| && j < |projects[i].tasks|
    ensures TotalTasks(projects[..i]) + j < |FlattenTasks(projects)|
    ensures FlattenTasks(projects)[TotalTasks(projects[..i]) + j] ==
      FlatTask(projects[i].tasks[j], projects[i].id, projects[i].name)
  {
    var head := Tagged(projects[0]);
    if i == 0 {
      assert projects[..0] == [];
    } else {
      FlattenAt(projects[1..], i - 1, j);
      assert projects[..i][1..] == projects[1..][..i - 1];
      assert TotalTasks(projects[..i]) == |head| + TotalTasks(projects[1..][..i - 1]);
    }
  }

  /** `ft` is task `j` of project `i`, tagged with that project. */
  predicate IsTaskOf(projects: seq<Project>, i: int, j: int, ft: FlatTask) {
    && 0 <= i < |projects| && 0 <= j < |projects[i].tasks|
    && ft == FlatTask(projects[i].tasks[j], projects[i].id, projects[i].name)
  }

  /** `ft` is some project's task, tagged with that project. */
  ghost predicate HasParent(projects: seq<Project>, ft: FlatTask) {
    exists i, j :: IsTaskOf(projects, i, j, ft)
  }

  /** Every entry of the flattened list is a task of some project, tagged with that project. */
  lemma {:induction false} FlattenedFromParent(projects: seq<Project>, k: nat)
    requires k < |FlattenTasks(projects)|
    ensures HasParent(projects, FlattenTasks(projects)[k])
  {
    var head := Tagged(projects[0]);
    if k < |head| {
      assert FlattenTasks(projects)[k] == head[k];
      assert IsTaskOf(projects, 0, k, FlattenTasks(projects)[k]);
    } else {
      FlattenedFromParent(projects[1..], k - |head|);
      var i, j :| IsTaskOf(projects[1..], i, j, FlattenTasks(projects[1..])[k - |head|]);
      assert IsTaskOf(projects, i + 1, j, FlattenTasks(projects)[k]);
    }
  }

  /** `completedTasks` counts exactly the flattened tasks whose status is `'Completed'`. */
  lemma {:induction false} CompletedCountsCompletedTasks(projects: seq<Project>)
    ensures CompletedTasks(projects) == |Filter(FlattenTasks(projects), FlatIsCompleted())|
  {
    if projects != [] {
      var p := projects[0];
      CompletedCountsCompletedTasks(projects[1..]);
      FilterAppend(Tagged(p), FlattenTasks(projects[1..]), FlatIsCompleted());
      FilterMapLength(p.tasks, (t: Task) => FlatTask(t, p.id, p.name), FlatIsCompleted(), IsCompleted());
    }
  }

  /** The completed count never exceeds the total. */
  lemma CompletedAtMostTotal(projects: seq<Project>)
    ensures CompletedTasks(projects) <= TotalTasks(projects)
  {
    CompletedCountsCompletedTasks(projects);
    FlattenLength(projects);
  }

  /** After `deleteProject(id)` no task in the flattened list is tagged with `id`. */
  lemma DeletedProjectLeavesNoTasks(s: State, projectId: string)
    ensures var flat := FlattenTasks(DeleteProject(s, projectId).projects);
      forall k :: 0 <= k < |flat| ==> flat[k].projectId != projectId
  {
    var ps := DeleteProject(s, projectId).projects;
    forall k | 0 <= k < |FlattenTasks(ps)|
      ensures FlattenTasks(ps)[k].projectId != projectId
    {
      FlattenedFromParent(ps, k);
    }
  }

  /** `totalProjects` follows the context's rewrites: `createProject` adds one,
      `deleteProject` drops the projects with the id, and the task and user rewrites
      keep it. */
  lemma ProjectCountAfterRewrites(s: State, projectId: string, taskId: string, freshId: string,
                                  user: UserPayload, project: ProjectPayload, task: TaskPayload,
                                  projectPatch: ProjectPatch, taskPatch: TaskPatch)
    ensures TotalProjects(CreateProject(s, project, freshId)) == TotalProjects(s) + 1
    ensures TotalProjects(DeleteProject(s, projectId)) ==
      TotalProjects(s) - |Filter(s.projects, ProjectIs(projectId))|
    ensures TotalProjects(AddUser(s, user, freshId)) == TotalProjects(s)
    ensures TotalProjects(UpdateProject(s, projectId, projectPatch)) == TotalProjects(s)
    ensures TotalProjects(CreateTask(s, projectId, task, freshId)) == TotalProjects(s)
    ensures TotalProjects(UpdateTask(s, projectId, taskId, taskPatch)) == TotalProjects(s)
    ensures TotalProjects(DeleteTask(s, projectId, taskId)) == TotalProjects(s)
  {
    DeleteProjectCount(s, projectId);
  }

  // The workload snapshot

  /** `task.assignedTo === userId`. */
  function AssignedTo(userId: string): FlatTask -> bool {
    (ft: FlatTask) => ft.task.assignedTo == userId
  }

  /** One card of the snapshot: a user and the tasks assigned to them. */
  datatype WorkloadEntry = WorkloadEntry(user: User, tasks: seq<FlatTask>)

  /** `users.map(...)` with the users that own no task returning `null`. */
  function Workload(users: seq<User>, flat: seq<FlatTask>): (r: seq<WorkloadEntry>)
    ensures |r| <= |users|
    ensures forall k :: 0 <= k < |r| ==>
      r[k].user in users && r[k].tasks == Filter(flat, AssignedTo(r[k].user.id)) && r[k].tasks != []
  {
    if users == [] then []
    else
      var owned := Filter(flat, AssignedTo(users[0].id));
      (if owned == [] then [] else [WorkloadEntry(users[0], owned)]) + Workload(users[1..], flat)
  }

  /** The users the snapshot lists. */
  function HasWork(flat: seq<FlatTask>): User -> bool {
    (u: User) => Filter(flat, AssignedTo(u.id)) != []
  }

  function EntryUser(): WorkloadEntry -> User {
    (e: WorkloadEntry) => e.user
  }

  /** The snapshot lists exactly the users with at least one task, in `state.users` order. */
  lemma {:induction false} WorkloadOrder(users: seq<User>, flat: seq<FlatTask>)
    ensures Map(Workload(users, flat), EntryUser()) == Filter(users, HasWork(flat))
  {
    if users != [] {
      WorkloadOrder(users[1..], flat);
      var owned := Filter(flat, AssignedTo(users[0].id));
      var head := if owned == [] then [] else [WorkloadEntry(users[0], owned)];
      var rest := Workload(users[1..], flat);
      assert Map(head + rest, EntryUser()) == Map(head, EntryUser()) + Map(rest, EntryUser());
    }
  }

  /** Every user with at least one assigned task has a card. */
  lemma WorkloadListsEveryBusyUser(users: seq<User>, flat: seq<FlatTask>, i: nat)
    requires i < |users| && Filter(flat, AssignedTo(users[i].id)) != []
    ensures exists k :: 0 <= k < |Workload(users, flat)| && Workload(users, flat)[k].user == users[i]
  {
    WorkloadOrder(users, flat);
    var listed := Map(Workload(users, flat), EntryUser());
    assert HasWork(flat)(users[i]);
    assert users[i] in listed;
    var k :| 0 <= k < |listed| && listed[k] == users[i];
    assert Workload(users, flat)[k].user == users[i];
  }

  /** The snapshot the dashboard renders. */
  function WorkloadSnapshot(s: State): seq<WorkloadEntry> {
    Workload(s.users, FlattenTasks(s.projects))
  }

  // The role gate

  datatype Panel = UserManagement | ProjectBoard | TaskOverview | WorkloadSnapshotPanel

  /** The panels the dashboard renders for a role, in page order. */
  function VisiblePanels(role: string): (r: seq<Panel>)
    ensures UserManagement in r <==> role == "admin"
    ensures ProjectBoard in r <==> role == "admin" || role == "pm"
    ensures TaskOverview in r <==> role == "user"
    ensures WorkloadSnapshotPanel in r <==> role == "admin" || role == "pm"
    ensures role != "admin" && role != "pm" && role != "user" ==> r == []
    ensures role == "admin" ==> r == [UserManagement, ProjectBoard, WorkloadSnapshotPanel]
    ensures role == "pm" ==> r == [ProjectBoard, WorkloadSnapshotPanel]
    ensures role == "user" ==> r == [TaskOverview]
  {
    (if role == "admin" then [UserManagement] else [])
    + (if role in ["pm", "admin"] then [ProjectBoard] else [])
    + (if role == "user" then [TaskOverview] else [])
    + (if role in ["pm", "admin"] then [WorkloadSnapshotPanel] else [])
  }

  // The avatar initials

  /** `word[0]`, which `join('')` writes as nothing when the word is empty. */
  function FirstChar(word: string): string {
    if word == [] then [] else [word[0]]
  }

  function JoinFirstChars(words: seq<string>): string {
    if words == [] then [] else FirstChar(words[0]) + JoinFirstChars(words[1..])
  }

  /** `name.split(' ').map((word) => word[0]).join('')`. */
  function Initials(name: string): string {
    JoinFirstChars(JsText.Split(name, ' '))
  }

  /** Reference definition: the characters of `s` that begin a word, that is, that are not
      a space and come first or right after a space (`atStart` says whether the text
      before `s` ended a word). */
  function WordStarts(s: string, atStart: bool): (r: string)
    ensures |r| <= |s|
    ensures ' ' !in r
  {
    if s == [] then []
    else if s[0] == ' ' then WordStarts(s[1..], true)
    else (if atStart then [s[0]] else []) + WordStarts(s[1..], false)
  }

  lemma {:induction false} FirstCharsOfSplit(s: string)
    ensures JoinFirstChars(JsText.Split(s, ' ')) == WordStarts(s, true)
    ensures JoinFirstChars(JsText.Split(s, ' ')[1..]) == WordStarts(s, false)
  {
    if s != [] {
      FirstCharsOfSplit(s[1..]);
      var rest := JsText.Split(s[1..], ' ');
      if s[0] == ' ' {
        assert JsText.Split(s, ' ') == [[]] + rest;
        assert ([[]] + rest)[1..] == rest;
      } else {
        var words := [[s[0]] + rest[0]] + rest[1..];
        assert JsText.Split(s, ' ') == words;
        assert words[1..] == rest[1..];
        assert JoinFirstChars(rest) == FirstChar(rest[0]) + JoinFirstChars(rest[1..]);
      }
    }
  }

  /** The initials are the first characters of the space-separated words, in order;
      empty words (from repeated, leading or trailing spaces) contribute nothing. */
  lemma InitialsAreWordStarts(name: string)
    ensures Initials(name) == WordStarts(name, true)
  {
    FirstCharsOfSplit(name);
  }
}
