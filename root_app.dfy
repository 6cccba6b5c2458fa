/** The state of the root variant's `App` component (src/App.jsx): the persisted data,
    the selected user and the two forms, with one method per handler. */
module RootApp {
  import opened Wrappers
  import opened RootModel
  import JsText

  class App {
    var data: Data
    /** `None` while `selectedUserId` is undefined. */
    var selectedUserId: Option<string>
    var newUser: UserForm
    var newProject: ProjectForm

    /** `cached` is what `localStorage` held and parsed to, if anything; `rowId` stands for
        the initial blank row's generated id. */
    constructor (cached: Option<Data>, rowId: string)
      ensures data == InitialData(cached)
      ensures selectedUserId == if data.users == [] then None else Some(data.users[0].id)
      ensures newUser == EmptyUserForm
      ensures newProject == EmptyProjectForm(rowId)
    {
      var initial := InitialData(cached);
      data := initial;
      selectedUserId := if initial.users == [] then None else Some(initial.users[0].id);
      newUser := EmptyUserForm;
      newProject := EmptyProjectForm(rowId);
    }

    /** The user the page is viewed as. */
    function Current(): (r: Option<User>)
      reads this
      ensures r.None? <==> data.users == []
    {
      CurrentUser(data.users, selectedUserId)
    }

    /** The "View as" picker's `onChange`. */
    method SelectUser(userId: string)
      modifies this`selectedUserId
      ensures selectedUserId == Some(userId)
    {
      selectedUserId := Some(userId);
    }

    /** The user form's name input: `{ ...newUser, name }`. */
    method EditUserName(name: string)
      modifies this`newUser
      ensures newUser == old(newUser).(name := name)
    {
      newUser := newUser.(name := name);
    }

    /** The user form's role picker: `{ ...newUser, role }`. */
    method EditUserRole(role: string)
      modifies this`newUser
      ensures newUser == old(newUser).(role := role)
    {
      newUser := newUser.(role := role);
    }

    /** `handleProjectTaskChange`. */
    method ChangeTaskRow(rowId: string, field: RowField, value: string)
      modifies this`newProject
      ensures newProject == ChangeRow(old(newProject), rowId, field, value)
    {
      newProject := ChangeRow(newProject, rowId, field, value);
    }

    /** `addTaskRow`; `rowId` stands for the generated id. */
    method AddTaskRow(rowId: string)
      modifies this`newProject
      ensures newProject == AddRow(old(newProject), rowId)
    {
      newProject := AddRow(newProject, rowId);
    }

    /** `removeTaskRow`. */
    method RemoveTaskRow(rowId: string)
      modifies this`newProject
      ensures newProject == RemoveRow(old(newProject), rowId)
    {
      newProject := RemoveRow(newProject, rowId);
    }

    /** The project form's name input: `{ ...newProject, name }`. */
    method EditProjectName(name: string)
      modifies this`newProject
      ensures newProject == old(newProject).(name := name)
    {
      newProject := newProject.(name := name);
    }

    /** The project form's description input: `{ ...newProject, description }`. */
    method EditProjectDescription(description: string)
      modifies this`newProject
      ensures newProject == old(newProject).(description := description)
    {
      newProject := newProject.(description := description);
    }

    /** `handleAddUser`: a blank name changes nothing; otherwise the user is appended and
        the form is reset. */
    method HandleAddUser(freshId: string)
      modifies this`data, this`newUser
      ensures data == AddUser(old(data), old(newUser), freshId)
      ensures newUser == if IsBlank(old(newUser).name) then old(newUser) else EmptyUserForm
    {
      if IsBlank(newUser.name) {
        return;
      }
      data := AddUser(data, newUser, freshId);
      newUser := EmptyUserForm;
    }

    /** `handleRemoveUser`. */
    method HandleRemoveUser(userId: string)
      modifies this`data
      ensures data == RemoveUser(old(data), userId)
    {
      data := RemoveUser(data, userId);
    }

    /** `handleCreateProject`: when a guard returns early nothing changes; otherwise the
        project is appended and the form is reset to one blank row with `rowId`. */
    method HandleCreateProject(freshProjectId: string, rowId: string)
      modifies this`data, this`newProject
      ensures data == CreateProject(old(data), old(newProject), freshProjectId)
      ensures newProject == if NewProject(old(newProject), freshProjectId).None? then old(newProject) else EmptyProjectForm(rowId)
    {
      var project := NewProject(newProject, freshProjectId);
      if project.None? {
        return;
      }
      data := CreateProject(data, newProject, freshProjectId);
      newProject := EmptyProjectForm(rowId);
    }

    /** `handleTaskToggle`. */
    method HandleTaskToggle(projectId: string, taskId: string, field: Flag, value: bool)
      modifies this`data
      ensures data == TaskToggle(old(data), projectId, taskId, field, value)
    {
      data := TaskToggle(data, projectId, taskId, field, value);
    }

    /** `handleLogTime`; `entryId` stands for the generated id. */
    method HandleLogTime(projectId: string, taskId: string, minutes: int, note: string, entryId: string)
      modifies this`data
      ensures data == LogTime(old(data), projectId, taskId, minutes, note, entryId)
    {
      data := LogTime(data, projectId, taskId, minutes, note, entryId);
    }

    /** The time logger of one task card: what `handleSubmit` lets through reaches
        `handleLogTime`, anything else changes nothing. */
    method SubmitTimeLog(projectId: string, taskId: string, parsed: Option<int>, note: string, entryId: string)
      modifies this`data
      ensures data == match SubmitTime(parsed, note)
        case None => old(data)
        case Some(req) => LogTime(old(data), projectId, taskId, req.minutes, req.note, entryId)
    {
      match SubmitTime(parsed, note)
      case None =>
      case Some(req) =>
        HandleLogTime(projectId, taskId, req.minutes, req.note, entryId);
    }
  }

  /** From the seed data, naming a project but leaving its only row blank creates
      nothing and leaves the form as it was. */
  method BlankRowSession(name: string)
  {
    var app := new App(None, "row-1");
    app.EditProjectName(name);
    app.EditProjectDescription("");
    NewProjectRejectedIff(app.newProject, "p-1");
    JsText.TrimKeepsTrimmed("");
    app.HandleCreateProject("p-1", "row-2");
    assert app.data.projects == [];
    assert app.newProject == ProjectForm(name, "", [TaskRow("row-1", "", "")]);
  }

  /** Typing a name and picking a role, then submitting, appends that user to the seed
      users and resets the form; the role edit keeps the typed name. */
  method AddUserSession(name: string, role: string)
    requires !IsBlank(name)
  {
    var app := new App(None, "row-1");
    app.EditUserName(name);
    app.EditUserRole(role);
    assert app.newUser == UserForm(name, role);
    app.HandleAddUser("u-4");
    assert app.data.users == DefaultData().users + [User("u-4", name, role)];
    assert app.newUser == EmptyUserForm;
  }

  /** Filling the row's title and editor gives the form the values typed in. */
  method FillRowSession(title: string, editorId: string)
  {
    var app := new App(None, "row-1");
    app.ChangeTaskRow("row-1", TitleField, title);
    app.ChangeTaskRow("row-1", EditorField, editorId);
    assert app.newProject == ProjectForm("", "", [TaskRow("row-1", title, editorId)]);
  }

  /** Submitting a form with a named project and one titled row appends a project that
      holds the row as a fresh task, and resets the form to one blank row. */
  method CreateProjectSession(app: App, name: string, description: string, title: string, editorId: string)
    requires !IsBlank(name) && !IsBlank(title)
    requires app.newProject == ProjectForm(name, description, [TaskRow("row-1", title, editorId)])
    modifies app
  {
    NewProjectFromOneRow(app.newProject, "p-1");
    app.HandleCreateProject("p-1", "row-2");
    assert app.data.projects == old(app.data.projects) +
      [Project("p-1", JsText.Trim(name), JsText.Trim(description), [Task("row-1", title, editorId, false, false, [])])];
    assert app.newProject == EmptyProjectForm("row-2");
  }

  /** On a task with an empty log, logging 30 minutes, then a rejected zero entry, then
      15 minutes leaves two entries totalling 45 minutes. */
  method LogTimeSession(cached: Data)
    requires |cached.projects| == 1 && |cached.projects[0].tasks| == 1
    requires cached.projects[0].tasks[0].timeLog == []
  {
    var app := new App(Some(cached), "row-1");
    var p := cached.projects[0];
    var t := p.tasks[0];
    app.SubmitTimeLog(p.id, t.id, Some(30), "draft", "e-1");
    app.SubmitTimeLog(p.id, t.id, Some(0), "", "e-0");
    app.SubmitTimeLog(p.id, t.id, Some(15), "", "e-2");
    LogTwice(cached, 0, 0, "e-1", "e-2");
    assert |app.data.projects[0].tasks[0].timeLog| == 2;
    assert TotalMinutes(app.data.projects[0].tasks[0].timeLog) == 45;
  }
}
