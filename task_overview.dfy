/** The task list a `'user'` sees (client/src/components/TaskOverview.jsx): the flattened
    tasks assigned to the signed-in user, and the status picker that updates one of them. */
module TaskOverview {
  import opened Seqs
  import opened ClientModel
  import opened Dashboard

  /** `assignedTasks`: the flattened tasks (the same flattening as the dashboard's)
      whose `assignedTo` is the current user's id, in the same order. */
  function AssignedTasks(s: State, currentUser: User): (r: seq<FlatTask>)
    ensures |r| <= |FlattenTasks(s.projects)|
    ensures forall k :: 0 <= k < |r| ==> r[k].task.assignedTo == currentUser.id
    ensures r == Filter(FlattenTasks(s.projects), AssignedTo(currentUser.id))
  {
    Filter(FlattenTasks(s.projects), AssignedTo(currentUser.id))
  }

  /** The list keeps the dashboard's order: two of the user's tasks appear in the order
      they have in the flattened list (project order, then task order). */
  lemma AssignedTasksKeepOrder(s: State, currentUser: User, i: nat, j: nat)
    requires var flat := FlattenTasks(s.projects);
      i < j < |flat| && flat[i].task.assignedTo == currentUser.id && flat[j].task.assignedTo == currentUser.id
    ensures var flat := FlattenTasks(s.projects);
      var r := AssignedTasks(s, currentUser);
      exists a, b :: 0 <= a < b < |r| && r[a] == flat[i] && r[b] == flat[j]
  {
    var flat := FlattenTasks(s.projects);
    var r := AssignedTasks(s, currentUser);
    assert AssignedTo(currentUser.id)(flat[i]) && AssignedTo(currentUser.id)(flat[j]);
    FilterKeepsOrder(flat, AssignedTo(currentUser.id), i, j);
    var a, b :| 0 <= a < b < |r| && r[a] == flat[i] && r[b] == flat[j];
  }

  /** The "no tasks assigned" card is shown instead of the list. */
  predicate ShowsEmptyState(s: State, currentUser: User) {
    AssignedTasks(s, currentUser) == []
  }

  lemma ListedTaskHasParent(s: State, currentUser: User, k: nat)
    requires k < |AssignedTasks(s, currentUser)|
    ensures HasParent(s.projects, AssignedTasks(s, currentUser)[k])
  {
    var flat := FlattenTasks(s.projects);
    var r := AssignedTasks(s, currentUser);
    var m :| 0 <= m < |flat| && flat[m] == r[k];
    FlattenedFromParent(s.projects, m);
  }

  /** Every listed task is a task of some project, tagged with that project, and every
      task assigned to the user in any project is listed. */
  lemma AssignedTasksExactly(s: State, currentUser: User)
    ensures forall k :: 0 <= k < |AssignedTasks(s, currentUser)| ==>
      HasParent(s.projects, AssignedTasks(s, currentUser)[k])
    ensures forall i, j ::
      (0 <= i < |s.projects| && 0 <= j < |s.projects[i].tasks| && s.projects[i].tasks[j].assignedTo == currentUser.id) ==>
      FlatTask(s.projects[i].tasks[j], s.projects[i].id, s.projects[i].name) in AssignedTasks(s, currentUser)
  {
    var flat := FlattenTasks(s.projects);
    var r := AssignedTasks(s, currentUser);
    forall k | 0 <= k < |r|
      ensures HasParent(s.projects, r[k])
    {
      ListedTaskHasParent(s, currentUser, k);
    }
    forall i, j | 0 <= i < |s.projects| && 0 <= j < |s.projects[i].tasks|
      && s.projects[i].tasks[j].assignedTo == currentUser.id
      ensures FlatTask(s.projects[i].tasks[j], s.projects[i].id, s.projects[i].name) in r
    {
      FlattenAt(s.projects, i, j);
    }
  }

  /** The empty-state branch is taken exactly when no task of any project is assigned
      to the current user. */
  lemma EmptyStateIff(s: State, currentUser: User)
    ensures ShowsEmptyState(s, currentUser) <==>
      forall i, j :: 0 <= i < |s.projects| && 0 <= j < |s.projects[i].tasks| ==>
        s.projects[i].tasks[j].assignedTo != currentUser.id
  {
    AssignedTasksExactly(s, currentUser);
    var r := AssignedTasks(s, currentUser);
    if r != [] {
      var i, j :| IsTaskOf(s.projects, i, j, r[0]);
      assert s.projects[i].tasks[j].assignedTo == currentUser.id;
    }
  }

  /** A user's card in the dashboard's workload snapshot lists exactly the tasks that
      user's task overview lists, in the same order. */
  lemma SnapshotCardIsOverview(s: State, k: nat)
    requires k < |WorkloadSnapshot(s)|
    ensures WorkloadSnapshot(s)[k].tasks == AssignedTasks(s, WorkloadSnapshot(s)[k].user)
    ensures !ShowsEmptyState(s, WorkloadSnapshot(s)[k].user)
  {
  }

  /** The picker's `updateTask(task.projectId, task.id, { status })`. */
  function ChangeStatus(s: State, ft: FlatTask, status: string): State {
    UpdateTask(s, ft.projectId, ft.task.id, StatusPatch(status))
  }

  /** A status change rewrites only the `status` field, and only of the tasks with the
      listed task's id inside projects with the listed task's project id; every project
      keeps its other fields and its task count. */
  lemma ChangeStatusOnlyTouchesStatus(s: State, ft: FlatTask, status: string)
    ensures var r := ChangeStatus(s, ft, status);
      && r.users == s.users && |r.projects| == |s.projects|
      && (forall i :: 0 <= i < |s.projects| ==>
            r.projects[i].(tasks := s.projects[i].tasks) == s.projects[i]
            && |r.projects[i].tasks| == |s.projects[i].tasks|)
      && (forall i, j :: 0 <= i < |s.projects| && 0 <= j < |s.projects[i].tasks| ==>
            r.projects[i].tasks[j] ==
              if s.projects[i].id == ft.projectId && s.projects[i].tasks[j].id == ft.task.id
              then s.projects[i].tasks[j].(status := status)
              else s.projects[i].tasks[j])
  {
  }

  /** Every task's status is one of `TASK_STATUSES`, the values the pickers offer. */
  predicate KnownStatuses(s: State) {
    forall i, j :: 0 <= i < |s.projects| && 0 <= j < |s.projects[i].tasks| ==>
      s.projects[i].tasks[j].status in TaskStatuses
  }

  /** Picking one of the offered statuses keeps every status known. */
  lemma PickedStatusKeepsStatusesKnown(s: State, ft: FlatTask, status: string)
    requires KnownStatuses(s) && status in TaskStatuses
    ensures KnownStatuses(ChangeStatus(s, ft, status))
  {
    ChangeStatusOnlyTouchesStatus(s, ft, status);
  }

  /** With unique project ids and unique task ids per project, changing the status of
      task `j` of project `i` changes exactly that task. */
  lemma ChangeStatusOfTaskAt(s: State, i: nat, j: nat, ft: FlatTask, status: string)
    requires UniqueProjectIds(s.projects)
    requires forall i :: 0 <= i < |s.projects| ==> UniqueTaskIds(s.projects[i].tasks)
    requires IsTaskOf(s.projects, i, j, ft)
    ensures var r := ChangeStatus(s, ft, status);
      && r.projects[i].tasks[j] == ft.task.(status := status)
      && forall i', j' ::
           (0 <= i' < |s.projects| && 0 <= j' < |s.projects[i'].tasks| && (i', j') != (i, j)) ==> r.projects[i'].tasks[j'] == s.projects[i'].tasks[j']
  {
    ChangeStatusOnlyTouchesStatus(s, ft, status);
    var r := ChangeStatus(s, ft, status);
    forall i', j' | 0 <= i' < |s.projects| && 0 <= j' < |s.projects[i'].tasks| && (i', j') != (i, j)
      ensures r.projects[i'].tasks[j'] == s.projects[i'].tasks[j']
    {
      if i' != i {
        assert s.projects[i'].id != ft.projectId;
      } else {
        assert s.projects[i].tasks[j'].id != ft.task.id;
      }
    }
  }

  /** With unique project ids and unique task ids per project, changing the status of a
      listed task changes exactly that task, in its own parent project. */
  lemma ChangeStatusOfListedTask(s: State, currentUser: User, k: nat, status: string)
    requires UniqueProjectIds(s.projects)
    requires forall i :: 0 <= i < |s.projects| ==> UniqueTaskIds(s.projects[i].tasks)
    requires k < |AssignedTasks(s, currentUser)|
    ensures var ft := AssignedTasks(s, currentUser)[k];
      var r := ChangeStatus(s, ft, status);
      exists i, j :: IsTaskOf(s.projects, i, j, ft)
        && r.projects[i].tasks[j] == ft.task.(status := status)
        && forall i', j' ::
             (0 <= i' < |s.projects| && 0 <= j' < |s.projects[i'].tasks| && (i', j') != (i, j)) ==> r.projects[i'].tasks[j'] == s.projects[i'].tasks[j']
  {
    var ft := AssignedTasks(s, currentUser)[k];
    ListedTaskHasParent(s, currentUser, k);
    var i, j :| IsTaskOf(s.projects, i, j, ft);
    ChangeStatusOfTaskAt(s, i, j, ft, status);
  }
}
