/** The application shell: authentication, the project list, the selected
    project, the session list of that project, the selected session, and the
    one error message and busy flag every component reports into.

    Each handler is a pure transition on a `View` of that state, and the
    `App` class holds the state in fields and applies exactly that transition.
    A request to the backend is two events: issuing it, and the response
    arriving, whose payload or failure is a parameter. Nothing matches a
    response to the request that caused it: a response is written into the
    state whatever has been selected in between. */
module Cascade {
  import opened Domain
  import opened Layout

  const LoadProjectsFailed: string := "Failed to load projects."
  const LoadSessionsFailed: string := "Failed to load sessions."

  /** The state the shell renders from (the panel flags live in `Panels`). */
  datatype View = View(
    authenticated: bool,
    projects: seq<Project>,
    selectedProject: Option<Project>,
    sessions: seq<Session>,
    selectedSession: Option<Session>,
    files: seq<UploadedFile>,
    error: string,
    isLoading: bool)

  /** The state on first render, once the stored token has been checked. */
  function Initial(authenticated: bool): (r: View)
    ensures r.authenticated == authenticated && !r.isLoading && r.error == []
    ensures r.projects == [] && r.sessions == [] && r.files == []
    ensures r.selectedProject.None? && r.selectedSession.None?
  {
    View(authenticated, [], None, [], None, [], [], false)
  }

  /** `handleError`: the message replaces whatever error was shown, and the
      busy flag drops. */
  function Fail(v: View, message: string): (r: View)
    ensures r.error == message && !r.isLoading
    ensures r.(error := v.error, isLoading := v.isLoading) == v
  {
    v.(error := message, isLoading := false)
  }

  /** Issuing `loadProjects`: the busy flag is raised and at once dropped
      again by clearing the error through `handleError('')`. */
  function ProjectsRequested(v: View): (r: View)
    ensures r.error == [] && !r.isLoading
    ensures r.(error := v.error, isLoading := v.isLoading) == v
  {
    Fail(v.(isLoading := true), [])
  }

  /** The project list arrives: success replaces the list, failure keeps it
      and reports; the busy flag is down either way. */
  function ProjectsArrived(v: View, outcome: Fetch<seq<Project>>): (r: View)
    ensures !r.isLoading
    ensures outcome.Fetched? ==> r == v.(projects := outcome.value, isLoading := false)
    ensures outcome.FetchFailed? ==> r == v.(error := LoadProjectsFailed, isLoading := false)
  {
    var w := match outcome
      case Fetched(list) => v.(projects := list)
      case FetchFailed => Fail(v, LoadProjectsFailed);
    w.(isLoading := false)
  }

  /** The session-loading effect, run whenever the selected project changes:
      with a project it clears the error (the busy flag ends up down) and
      issues the request; without one it empties the session list at once. */
  function SessionsRequested(v: View): (r: View)
    ensures v.selectedProject.Some? ==> r == v.(error := [], isLoading := false)
    ensures v.selectedProject.None? ==> r == v.(sessions := [])
  {
    if v.selectedProject.Some? then Fail(v.(isLoading := true), [])
    else v.(sessions := [])
  }

  /** The session list arrives. Success replaces the list and clears the
      selected session; failure empties the list, reports, and keeps the
      selected session. Neither looks at which project is selected now. */
  function SessionsArrived(v: View, outcome: Fetch<seq<Session>>): (r: View)
    ensures !r.isLoading && r.selectedProject == v.selectedProject
    ensures outcome.Fetched? ==> r == v.(sessions := outcome.value, selectedSession := None, isLoading := false)
    ensures outcome.FetchFailed? ==> r == v.(sessions := [], error := LoadSessionsFailed, isLoading := false)
  {
    var w := match outcome
      case Fetched(list) => v.(sessions := list, selectedSession := None)
      case FetchFailed => Fail(v, LoadSessionsFailed).(sessions := []);
    w.(isLoading := false)
  }

  /** `handleProjectCreated`: the new project goes to the end of the list and
      becomes the selection. */
  function ProjectCreated(v: View, p: Project): (r: View)
    ensures r.projects == v.projects + [p] && r.selectedProject == Some(p) && !r.isLoading
    ensures r.(projects := v.projects, selectedProject := v.selectedProject, isLoading := v.isLoading) == v
  {
    v.(projects := v.projects + [p], selectedProject := Some(p), isLoading := false)
  }

  /** `handleSessionCreated`: the new session goes to the end of the list and
      becomes the selection. */
  function SessionCreated(v: View, s: Session): (r: View)
    ensures r.sessions == v.sessions + [s] && r.selectedSession == Some(s) && !r.isLoading
    ensures r.(sessions := v.sessions, selectedSession := v.selectedSession, isLoading := v.isLoading) == v
  {
    v.(sessions := v.sessions + [s], selectedSession := Some(s), isLoading := false)
  }

  /** Whether `p` differs from the selected project by id (`selectedProject?.id !== project.id`). */
  predicate OtherProject(v: View, p: Project)
  {
    v.selectedProject.None? || v.selectedProject.value.id != p.id
  }

  /** `handleSelectProject`: a project with the selected project's id changes
      nothing; any other replaces the selection, and nothing else. */
  function ProjectSelected(v: View, p: Project): (r: View)
    ensures OtherProject(v, p) ==> r == v.(selectedProject := Some(p))
    ensures !OtherProject(v, p) ==> r == v
  {
    if OtherProject(v, p) then v.(selectedProject := Some(p)) else v
  }

  /** `handleSelectSession`. */
  function SessionSelected(v: View, s: Session): (r: View)
    ensures r == v.(selectedSession := Some(s))
  {
    v.(selectedSession := Some(s))
  }

  /** The close button of the error banner. */
  function Dismissed(v: View): (r: View)
    ensures r == v.(error := [])
  {
    v.(error := [])
  }

  /** `handleLoginSuccess`: authenticated, and the projects are requested. */
  function LoggedIn(v: View): (r: View)
    ensures r.authenticated && r.error == [] && !r.isLoading
    ensures r.(authenticated := v.authenticated, error := v.error, isLoading := v.isLoading) == v
  {
    ProjectsRequested(v.(authenticated := true))
  }

  /** `handleLogout`: whatever the logout request did, the user is signed out
      and both lists and both selections are cleared; the error banner and
      the busy flag are left as they were. */
  function LoggedOut(v: View): (r: View)
    ensures !r.authenticated && r.projects == [] && r.sessions == []
    ensures r.selectedProject.None? && r.selectedSession.None?
    ensures r.error == v.error && r.isLoading == v.isLoading && r.files == v.files
  {
    v.(authenticated := false, projects := [], selectedProject := None, sessions := [], selectedSession := None)
  }

  /** The chat window is shown exactly when a project and a session are selected. */
  predicate ChatShown(v: View)
  {
    v.selectedProject.Some? && v.selectedSession.Some?
  }

  /** Everything that can happen to the shell's state, in the order it happens. */
  datatype Event =
    | LoadProjects
    | ProjectsResponse(projectsOutcome: Fetch<seq<Project>>)
    | LoadSessions
    | SessionsResponse(sessionsOutcome: Fetch<seq<Session>>)
    | CreatedProject(project: Project)
    | CreatedSession(session: Session)
    | SelectProject(selectProject: Project)
    | SelectSession(selectSession: Session)
    | Dismiss
    | Login
    | Logout

  function Step(v: View, e: Event): View
  {
    match e
    case LoadProjects => ProjectsRequested(v)
    case ProjectsResponse(o) => ProjectsArrived(v, o)
    case LoadSessions => SessionsRequested(v)
    case SessionsResponse(o) => SessionsArrived(v, o)
    case CreatedProject(p) => ProjectCreated(v, p)
    case CreatedSession(s) => SessionCreated(v, s)
    case SelectProject(p) => ProjectSelected(v, p)
    case SelectSession(s) => SessionSelected(v, s)
    case Dismiss => Dismissed(v)
    case Login => LoggedIn(v)
    case Logout => LoggedOut(v)
  }

  function Run(v: View, events: seq<Event>): View
    decreases |events|
  {
    if events == [] then v else Run(Step(v, events[0]), events[1..])
  }

  /** Running two stretches of events is running the first, then the second. */
  lemma {:induction false} RunAppend(v: View, a: seq<Event>, b: seq<Event>)
    ensures Run(v, a + b) == Run(Run(v, a), b)
    decreases |a|
  {
    if a == [] {
      assert a + b == b;
    } else {
      assert (a + b)[0] == a[0] && (a + b)[1..] == a[1..] + b;
      RunAppend(Step(v, a[0]), a[1..], b);
    }
  }

  /** The busy flag is never up after any handler of the shell: every request
      raises it and clears the error through `handleError`, which lowers it. */
  lemma {:induction false} NeverBusy(v: View, events: seq<Event>)
    requires !v.isLoading
    ensures !Run(v, events).isLoading
    decreases |events|
  {
    if events != [] {
      NeverBusy(Step(v, events[0]), events[1..]);
    }
  }

  /** No handler of the shell ever sets the project files: they stay as they
      were at the start, which is empty. */
  lemma {:induction false} FilesNeverSet(v: View, events: seq<Event>)
    ensures Run(v, events).files == v.files
    decreases |events|
  {
    if events != [] {
      FilesNeverSet(Step(v, events[0]), events[1..]);
    }
  }

  /** Running a non-empty run is taking its first step, then the rest. */
  lemma RunFirst(v: View, events: seq<Event>)
    requires events != []
    ensures Run(v, events) == Run(Step(v, events[0]), events[1..])
  {
  }

  /** A stale session list wins: select project `a` and request its sessions,
      select `b` and request its sessions, let `b`'s answer arrive and then
      `a`'s. The sessions shown are `a`'s while `b` is selected. */
  lemma StaleSessionsShown(v: View, a: Project, b: Project, ofA: seq<Session>, ofB: seq<Session>)
    requires a.id != b.id
    ensures var r := Run(v, [SelectProject(a), LoadSessions, SelectProject(b), LoadSessions,
        SessionsResponse(Fetched(ofB)), SessionsResponse(Fetched(ofA))]);
      r.selectedProject == Some(b) && r.sessions == ofA && r.selectedSession.None?
  {
    var es := [SelectProject(a), LoadSessions, SelectProject(b), LoadSessions,
        SessionsResponse(Fetched(ofB)), SessionsResponse(Fetched(ofA))];
    var r := v;
    for k := 0 to 6
      invariant Run(v, es) == Run(r, es[k..])
      invariant 1 <= k < 3 ==> r.selectedProject.Some? && r.selectedProject.value.id == a.id
      invariant k >= 3 ==> r.selectedProject == Some(b)
      invariant k == 6 ==> r.sessions == ofA && r.selectedSession.None?
    {
      RunFirst(r, es[k..]);
      assert es[k..][1..] == es[k + 1..];
      r := Step(r, es[k]);
    }
    assert es[6..] == [];
  }

  /** Switching project does not clear the selected session; when the new
      project's session list then fails to load, the old session stays
      selected under the new project and the chat window stays shown. */
  lemma ForeignSessionKept(v: View, p: Project)
    requires ChatShown(v) && OtherProject(v, p)
    ensures var r := Run(v, [SelectProject(p), LoadSessions, SessionsResponse(FetchFailed)]);
      r.selectedProject == Some(p) && r.selectedSession == v.selectedSession && ChatShown(r)
      && r.sessions == [] && r.error == LoadSessionsFailed
  {
    var es := [SelectProject(p), LoadSessions, SessionsResponse(FetchFailed)];
    var v1 := Step(v, es[0]);
    var v2 := Step(v1, es[1]);
    var v3 := Step(v2, es[2]);
    RunFirst(v, es);
    RunFirst(v1, es[1..]);
    assert es[1..][1..] == es[2..];
    RunFirst(v2, es[2..]);
    assert es[2..][1..] == [];
  }

  /** The most recent response decides the session list, whichever project
      it was requested for. */
  lemma LastResponseDecides(v: View, events: seq<Event>, list: seq<Session>)
    ensures Run(v, events + [SessionsResponse(Fetched(list))]).sessions == list
  {
    RunAppend(v, events, [SessionsResponse(Fetched(list))]);
  }

  /** The error message and the busy flag that every component reports into. */
  class Status {
    var error: string
    var isLoading: bool

    constructor()
      ensures error == [] && !isLoading
    {
      error := [];
      isLoading := false;
    }

    /** `handleError`. */
    method HandleError(message: string)
      modifies this
      ensures error == message && !isLoading
    {
      error := message;
      isLoading := false;
    }

    /** `setIsLoading`. */
    method SetLoading(busy: bool)
      modifies this
      ensures isLoading == busy && error == old(error)
    {
      isLoading := busy;
    }

    /** `setError`, as the banner's close button calls it. */
    method SetError(message: string)
      modifies this
      ensures error == message && isLoading == old(isLoading)
    {
      error := message;
    }
  }

  /** The shell's state cells, with its handlers. */
  class App {
    var isAuthenticated: bool
    var projects: seq<Project>
    var selectedProject: Option<Project>
    var sessions: seq<Session>
    var selectedSession: Option<Session>
    var projectFiles: seq<UploadedFile>
    const status: Status
    const panels: Panels

    function State(): View
      reads this, status
    {
      View(isAuthenticated, projects, selectedProject, sessions, selectedSession, projectFiles, status.error, status.isLoading)
    }

    /** The first render, with the outcome of the stored-token check. */
    constructor(authenticated: bool)
      ensures State() == Initial(authenticated)
      ensures fresh(status) && fresh(panels) && panels.State() == Flags(false, false)
    {
      isAuthenticated := authenticated;
      projects := [];
      selectedProject := None;
      sessions := [];
      selectedSession := None;
      projectFiles := [];
      status := new Status();
      panels := new Panels();
    }

    /** `loadProjects`, up to the request. */
    method LoadProjects()
      modifies status
      ensures State() == ProjectsRequested(old(State()))
    {
      status.SetLoading(true);
      status.HandleError([]);
    }

    /** `loadProjects`, from the response on. */
    method ProjectsResponse(outcome: Fetch<seq<Project>>)
      modifies this, status
      ensures State() == ProjectsArrived(old(State()), outcome)
    {
      match outcome {
        case Fetched(list) =>
          projects := list;
        case FetchFailed =>
          status.HandleError(LoadProjectsFailed);
      }
      status.SetLoading(false);
    }

    /** The session-loading effect, up to the request: `requested` is the
        project id the list is asked for, if any. */
    method LoadSessions() returns (requested: Option<int>)
      modifies this, status
      ensures old(selectedProject).None? ==> requested.None?
      ensures old(selectedProject).Some? ==> requested == Some(old(selectedProject).value.id)
      ensures State() == SessionsRequested(old(State()))
    {
      if selectedProject.Some? {
        requested := Some(selectedProject.value.id);
        status.SetLoading(true);
        status.HandleError([]);
      } else {
        requested := None;
        sessions := [];
      }
    }

    /** The session-loading effect, from the response on. */
    method SessionsResponse(outcome: Fetch<seq<Session>>)
      modifies this, status
      ensures State() == SessionsArrived(old(State()), outcome)
    {
      match outcome {
        case Fetched(list) =>
          sessions := list;
          selectedSession := None;
        case FetchFailed =>
          status.HandleError(LoadSessionsFailed);
          sessions := [];
      }
      status.SetLoading(false);
    }

    method HandleProjectCreated(p: Project)
      modifies this, status
      ensures State() == ProjectCreated(old(State()), p)
    {
      projects := projects + [p];
      selectedProject := Some(p);
      status.SetLoading(false);
    }

    method HandleSessionCreated(s: Session)
      modifies this, status
      ensures State() == SessionCreated(old(State()), s)
    {
      sessions := sessions + [s];
      selectedSession := Some(s);
      status.SetLoading(false);
    }

    /** `handleSelectProject`; `changed` tells whether the selection was
        replaced, which is when the session-loading effect runs next. */
    method HandleSelectProject(p: Project) returns (changed: bool)
      modifies this
      ensures changed == OtherProject(old(State()), p)
      ensures State() == ProjectSelected(old(State()), p)
    {
      changed := selectedProject.None? || selectedProject.value.id != p.id;
      if changed {
        selectedProject := Some(p);
      }
    }

    method HandleSelectSession(s: Session)
      modifies this
      ensures State() == SessionSelected(old(State()), s)
    {
      selectedSession := Some(s);
    }

    method DismissError()
      modifies status
      ensures State() == Dismissed(old(State()))
    {
      status.SetError([]);
    }

    method HandleLoginSuccess()
      modifies this, status
      ensures State() == LoggedIn(old(State()))
    {
      isAuthenticated := true;
      LoadProjects();
    }

    /** `handleLogout`; `requestFailed` is the outcome of the logout request,
        which changes nothing. */
    method HandleLogout(requestFailed: bool)
      modifies this
      ensures State() == LoggedOut(old(State()))
    {
      isAuthenticated := false;
      projects := [];
      selectedProject := None;
      sessions := [];
      selectedSession := None;
    }

    /** `toggleProjectsPanel`. */
    method ToggleProjectsPanel()
      modifies panels
      ensures panels.projectsCollapsed == !old(panels.projectsCollapsed)
      ensures panels.sessionsCollapsed == old(panels.sessionsCollapsed)
    {
      panels.ToggleProjects();
    }

    /** `toggleSessionsPanel`. */
    method ToggleSessionsPanel()
      modifies panels
      ensures panels.sessionsCollapsed == !old(panels.sessionsCollapsed)
      ensures panels.projectsCollapsed == old(panels.projectsCollapsed)
    {
      panels.ToggleSessions();
    }

    /** Applies one event through the handler it stands for. */
    method Apply(e: Event)
      modifies this, status
      ensures State() == Step(old(State()), e)
    {
      match e
      case LoadProjects => LoadProjects();
      case ProjectsResponse(o) => ProjectsResponse(o);
      case LoadSessions => var _ := LoadSessions();
      case SessionsResponse(o) => SessionsResponse(o);
      case CreatedProject(p) => HandleProjectCreated(p);
      case CreatedSession(s) => HandleSessionCreated(s);
      case SelectProject(p) => var _ := HandleSelectProject(p);
      case SelectSession(s) => HandleSelectSession(s);
      case Dismiss => DismissError();
      case Login => HandleLoginSuccess();
      case Logout => HandleLogout(false);
    }

    /** Applies a run of events in order. */
    method ApplyAll(events: seq<Event>)
      modifies this, status
      ensures State() == Run(old(State()), events)
    {
      var i := 0;
      while i < |events|
        invariant 0 <= i <= |events|
        invariant Run(old(State()), events) == Run(State(), events[i..])
      {
        assert events[i..][0] == events[i] && events[i..][1..] == events[i + 1..];
        Apply(events[i]);
        i := i + 1;
      }
    }
  }

  /** The stale-response run, driven through the class: the list is asked
      for `a.id`, then for `b.id`, the answer to the second request arrives
      first and the answer to the first request last. The state then shows
      the list asked for `a.id` while `b` is selected. */
  method StaleRun(a: Project, b: Project, ofA: seq<Session>, ofB: seq<Session>)
      returns (askedFirst: Option<int>, askedSecond: Option<int>, selected: Option<Project>, shown: seq<Session>)
    requires a.id != b.id
    ensures askedFirst == Some(a.id) && askedSecond == Some(b.id)
    ensures selected == Some(b) && shown == ofA
  {
    var app := new App(true);
    var _ := app.HandleSelectProject(a);
    askedFirst := app.LoadSessions();
    var _ := app.HandleSelectProject(b);
    askedSecond := app.LoadSessions();
    app.SessionsResponse(Fetched(ofB));
    app.SessionsResponse(Fetched(ofA));
    selected, shown := app.selectedProject, app.sessions;
  }
}
