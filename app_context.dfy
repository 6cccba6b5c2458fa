/** The context provider of the `client/` variant (client/src/context/AppContext.jsx):
    it holds the state tree and the signed-in user, and every operation replaces
    one of them wholesale with the result of a rewrite from ClientModel. */
module AppContext {
  import opened Wrappers
  import ClientModel

  /** The state the provider starts from: the stored state when one was read and
      parsed, the seed state otherwise. */
  function InitialState(stored: Option<ClientModel.State>): (s: ClientModel.State)
    ensures stored.None? ==> s == ClientModel.DefaultState()
    ensures stored.Some? ==> s == stored.value
  {
    stored.GetOr(ClientModel.DefaultState())
  }

  class AppProvider {
    var state: ClientModel.State
    var currentUser: Option<ClientModel.User>

    /** `stored` and `storedUser` are what the two storage keys parsed to, if anything. */
    constructor (stored: Option<ClientModel.State>, storedUser: Option<ClientModel.User>)
      ensures state == InitialState(stored) && currentUser == storedUser
    {
      state := InitialState(stored);
      currentUser := storedUser;
    }

    /** `login`: on success the matching user becomes the current user; on failure the
        error is returned (the source throws it) and nothing changes. */
    method Login(email: string, password: string) returns (error: Option<string>)
      modifies this`currentUser
      ensures match ClientModel.Authenticate(state.users, email, password)
        case Ok(u) => error == None && currentUser == Some(u)
        case Err(m) => error == Some(m) && currentUser == old(currentUser)
    {
      var outcome := ClientModel.Authenticate(state.users, email, password);
      match outcome
      case Ok(u) =>
        currentUser := Some(u);
        error := None;
      case Err(m) =>
        error := Some(m);
    }

    /** `logout`: no user is signed in afterwards. */
    method Logout()
      modifies this`currentUser
      ensures currentUser == None
    {
      currentUser := None;
    }

    method AddUser(payload: ClientModel.UserPayload, freshId: string)
      modifies this`state
      ensures state == ClientModel.AddUser(old(state), payload, freshId)
    {
      state := ClientModel.AddUser(state, payload, freshId);
    }

    method CreateProject(payload: ClientModel.ProjectPayload, freshId: string)
      modifies this`state
      ensures state == ClientModel.CreateProject(old(state), payload, freshId)
    {
      state := ClientModel.CreateProject(state, payload, freshId);
    }

    method UpdateProject(projectId: string, updates: ClientModel.ProjectPatch)
      modifies this`state
      ensures state == ClientModel.UpdateProject(old(state), projectId, updates)
    {
      state := ClientModel.UpdateProject(state, projectId, updates);
    }

    method DeleteProject(projectId: string)
      modifies this`state
      ensures state == ClientModel.DeleteProject(old(state), projectId)
    {
      state := ClientModel.DeleteProject(state, projectId);
    }

    method CreateTask(projectId: string, payload: ClientModel.TaskPayload, freshId: string)
      modifies this`state
      ensures state == ClientModel.CreateTask(old(state), projectId, payload, freshId)
    {
      state := ClientModel.CreateTask(state, projectId, payload, freshId);
    }

    method UpdateTask(projectId: string, taskId: string, updates: ClientModel.TaskPatch)
      modifies this`state
      ensures state == ClientModel.UpdateTask(old(state), projectId, taskId, updates)
    {
      state := ClientModel.UpdateTask(state, projectId, taskId, updates);
    }

    method DeleteTask(projectId: string, taskId: string)
      modifies this`state
      ensures state == ClientModel.DeleteTask(old(state), projectId, taskId)
    {
      state := ClientModel.DeleteTask(state, projectId, taskId);
    }
  }

  /** A session on the seed state: a wrong password leaves nobody signed in, the right
      one signs in the admin, and signing out clears the session again. */
  method SeedSession()
  {
    var app := new AppProvider(None, None);
    var error := app.Login("admin@demo.com", "wrong");
    ClientModel.WrongPasswordFails();
    assert error == Some(ClientModel.InvalidCredentials) && app.currentUser == None;
    error := app.Login("admin@demo.com", "admin123");
    ClientModel.RightPasswordLogsIn();
    assert error == None && app.currentUser == Some(ClientModel.DefaultState().users[0]);
    assert app.currentUser.value.role == "admin";
    app.Logout();
    assert app.currentUser == None;
  }
}
