/** The two creation forms of the sidebar: the project list creates a project
    with a chosen model, the session list creates a session in the selected
    project but only once the project has files. Both report into the shell's
    error slot and hand the created entity to the shell, which appends and
    selects it. The lists also mark the selected entry as active by id. */
module Creation {
  import opened Domain
  import opened Cascade

  const CreateProjectFailed: string := "Failed to create project."
  const CreateSessionFailed: string := "Failed to create session."
  const NeedFilesMessage: string := "Please upload at least one file before creating a session."

  /** The model a new project form starts with. */
  const DefaultModel: string := "gpt-4o"

  /** The model ids the form's selector offers, in display order. */
  const AvailableModels: seq<string> := ["gpt-4o", "gpt-4-turbo", "gpt-3.5-turbo", "gpt-4.1", "gpt-4.5-preview"]

  /** `hasFiles`: the selected project has at least one uploaded file. */
  predicate HasFiles(files: seq<UploadedFile>)
  {
    |files| > 0
  }

  /** What submitting the session form does. */
  datatype SessionGate =
    | Ignored                              // blank name or no project: nothing happens
    | NeedsFiles                           // the file gate reports and stops
    | Requested(projectId: int, name: string)  // the create request is issued

  /** `handleCreateSession`'s two checks, in the source's order: first the
      name and the project, then the files. */
  function SessionGateOf(name: string, project: Option<Project>, files: seq<UploadedFile>): (r: SessionGate)
    ensures r.Ignored? <==> Trim(name) == [] || project.None?
    ensures r.NeedsFiles? <==> Trim(name) != [] && project.Some? && !HasFiles(files)
    ensures r.Requested? ==> r == Requested(project.value.id, name)
  {
    if Trim(name) == [] || project.None? then Ignored
    else if !HasFiles(files) then NeedsFiles
    else Requested(project.value.id, name)
  }

  /** The session form's create button is enabled. */
  predicate SessionCreateEnabled(isLoading: bool, isCreating: bool, name: string, project: Option<Project>, files: seq<UploadedFile>)
  {
    !isLoading && !isCreating && Trim(name) != [] && project.Some? && HasFiles(files)
  }

  /** The session form's name input is disabled. */
  predicate SessionInputDisabled(isLoading: bool, isCreating: bool, project: Option<Project>, files: seq<UploadedFile>)
  {
    isLoading || isCreating || project.None? || !HasFiles(files)
  }

  /** The project form's name input and model select are disabled. */
  predicate ProjectInputDisabled(isLoading: bool, isCreating: bool)
  {
    isLoading || isCreating
  }

  /** The project form's create button is enabled. */
  predicate ProjectCreateEnabled(isLoading: bool, isCreating: bool, name: string)
  {
    !isLoading && !isCreating && Trim(name) != []
  }

  /** An enabled session button always leads to a request; when nothing is in
      flight, a submission that would issue a request has an enabled button. */
  lemma SessionButtonMatchesGate(isLoading: bool, isCreating: bool, name: string, project: Option<Project>, files: seq<UploadedFile>)
    ensures SessionCreateEnabled(isLoading, isCreating, name, project, files)
      <==> !isLoading && !isCreating && SessionGateOf(name, project, files).Requested?
  {
  }

  /** The project form's create button is enabled exactly when nothing is in
      flight and the name would get past `handleCreateProject`'s check (the
      condition under which `ProjectList.Submit` issues its request), that
      is, when the name holds a character that is not whitespace. */
  lemma ProjectButtonMatchesSubmit(isLoading: bool, isCreating: bool, name: string)
    ensures ProjectCreateEnabled(isLoading, isCreating, name) <==> !isLoading && !isCreating && Trim(name) != []
    ensures ProjectCreateEnabled(isLoading, isCreating, name)
      <==> !isLoading && !isCreating && exists k :: 0 <= k < |name| && !IsSpace(name[k])
  {
    TrimEmptyIffBlank(name);
  }

  /** The project button is enabled exactly when the input is open and the
      name holds a character that is not white space. */
  lemma ProjectButtonNeedsOpenInput(isLoading: bool, isCreating: bool, name: string)
    ensures ProjectCreateEnabled(isLoading, isCreating, name)
      <==> !ProjectInputDisabled(isLoading, isCreating) && exists k :: 0 <= k < |name| && !IsSpace(name[k])
  {
    TrimEmptyIffBlank(name);
  }

  /** In the shell as composed, the project files are never set, so from the
      first render on, whatever happens, the session form's input and button
      stay disabled and a submission with a name and a project only reports
      that files are needed. */
  lemma SessionsNeverCreatable(authenticated: bool, events: seq<Event>, name: string, isCreating: bool)
    ensures var v := Run(Initial(authenticated), events);
      SessionInputDisabled(v.isLoading, isCreating, v.selectedProject, v.files)
      && !SessionCreateEnabled(v.isLoading, isCreating, name, v.selectedProject, v.files)
      && !SessionGateOf(name, v.selectedProject, v.files).Requested?
      && (Trim(name) != [] && v.selectedProject.Some? ==> SessionGateOf(name, v.selectedProject, v.files) == NeedsFiles)
  {
    FilesNeverSet(Initial(authenticated), events);
  }

  /** A list entry is shown as active when its id is the selected one's. */
  predicate ProjectActive(selected: Option<Project>, p: Project)
  {
    selected.Some? && selected.value.id == p.id
  }

  predicate SessionActive(selected: Option<Session>, s: Session)
  {
    selected.Some? && selected.value.id == s.id
  }

  /** With distinct ids, at most one project entry is active, and it is the
      one whose id is selected. */
  lemma OneActiveProject(projects: seq<Project>, selected: Option<Project>, i: int, j: int)
    requires forall a, b :: 0 <= a < b < |projects| ==> projects[a].id != projects[b].id
    requires 0 <= i < |projects| && 0 <= j < |projects|
    requires ProjectActive(selected, projects[i]) && ProjectActive(selected, projects[j])
    ensures i == j
  {
  }

  /** With distinct ids, at most one session entry is active. */
  lemma OneActiveSession(sessions: seq<Session>, selected: Option<Session>, i: int, j: int)
    requires forall a, b :: 0 <= a < b < |sessions| ==> sessions[a].id != sessions[b].id
    requires 0 <= i < |sessions| && 0 <= j < |sessions|
    requires SessionActive(selected, sessions[i]) && SessionActive(selected, sessions[j])
    ensures i == j
  {
  }

  /** The session list's creation form. */
  class SessionList {
    var newSessionName: string
    var isCreating: bool
    /** The shell that holds the selection, the files and the error slot. */
    const app: App

    constructor(shell: App)
      ensures app == shell && newSessionName == [] && !isCreating
    {
      app := shell;
      newSessionName := [];
      isCreating := false;
    }

    /** The name input's change handler. */
    method Edit(text: string)
      modifies this
      ensures newSessionName == text && isCreating == old(isCreating)
    {
      newSessionName := text;
    }

    /** `handleCreateSession`, up to the request. */
    method Submit() returns (gate: SessionGate)
      modifies this, app.status
      ensures gate == SessionGateOf(old(newSessionName), app.selectedProject, app.projectFiles)
      ensures newSessionName == old(newSessionName)
      ensures gate.Ignored? ==> unchanged(this) && unchanged(app.status)
      ensures gate.NeedsFiles? ==> (isCreating == old(isCreating)
        && app.status.error == NeedFilesMessage && !app.status.isLoading)
      ensures gate.Requested? ==> isCreating && app.status.error == [] && !app.status.isLoading
    {
      gate := SessionGateOf(newSessionName, app.selectedProject, app.projectFiles);
      match gate {
        case Ignored =>
        case NeedsFiles =>
          app.status.HandleError(NeedFilesMessage);
        case Requested(_, _) =>
          isCreating := true;
          app.status.HandleError([]);
      }
    }

    /** `handleCreateSession`, from the response on: the created session goes
        to the shell and the name is cleared, or the failure is reported and
        the name kept. */
    method Resolve(outcome: Fetch<Session>)
      modifies this, app, app.status
      ensures outcome.Fetched? ==> (app.State() == SessionCreated(old(app.State()), outcome.value)
        && newSessionName == [])
      ensures outcome.FetchFailed? ==> (app.State() == Fail(old(app.State()), CreateSessionFailed)
        && newSessionName == old(newSessionName))
      ensures !isCreating
    {
      match outcome {
        case Fetched(s) =>
          app.HandleSessionCreated(s);
          newSessionName := [];
        case FetchFailed =>
          app.status.HandleError(CreateSessionFailed);
      }
      isCreating := false;
    }
  }

  /** The project list's creation form. */
  class ProjectList {
    var newProjectName: string
    var selectedModel: string
    var isCreating: bool
    /** The shell that receives the created project and the errors. */
    const app: App

    /** The selector only ever holds one of the offered models. */
    ghost predicate Valid()
      reads this
    {
      selectedModel in AvailableModels
    }

    constructor(shell: App)
      ensures app == shell && newProjectName == [] && selectedModel == DefaultModel && !isCreating
      ensures Valid()
    {
      app := shell;
      newProjectName := [];
      selectedModel := DefaultModel;
      isCreating := false;
    }

    /** The name input's change handler. */
    method Edit(text: string)
      modifies this
      ensures newProjectName == text && selectedModel == old(selectedModel) && isCreating == old(isCreating)
    {
      newProjectName := text;
    }

    /** Picking the option at `index` of the selector. */
    method SelectModel(index: nat)
      requires index < |AvailableModels|
      modifies this
      ensures selectedModel == AvailableModels[index] && Valid()
      ensures newProjectName == old(newProjectName) && isCreating == old(isCreating)
    {
      selectedModel := AvailableModels[index];
    }

    /** `handleCreateProject`, up to the request: a blank name does nothing;
        otherwise the request carries the name and the selected model. */
    method Submit() returns (request: Option<(string, string)>)
      modifies this, app.status
      ensures request.Some? <==> Trim(old(newProjectName)) != []
      ensures request.None? ==> unchanged(this) && unchanged(app.status)
      ensures request.Some? ==> (request.value == (old(newProjectName), old(selectedModel))
        && isCreating && app.status.error == [] && !app.status.isLoading)
      ensures newProjectName == old(newProjectName) && selectedModel == old(selectedModel)
    {
      if Trim(newProjectName) == [] {
        return None;
      }
      isCreating := true;
      app.status.HandleError([]);
      request := Some((newProjectName, selectedModel));
    }

    /** `handleCreateProject`, from the response on. */
    method Resolve(outcome: Fetch<Project>)
      modifies this, app, app.status
      ensures outcome.Fetched? ==> (app.State() == ProjectCreated(old(app.State()), outcome.value)
        && newProjectName == [])
      ensures outcome.FetchFailed? ==> (app.State() == Fail(old(app.State()), CreateProjectFailed)
        && newProjectName == old(newProjectName))
      ensures !isCreating && selectedModel == old(selectedModel)
    {
      match outcome {
        case Fetched(p) =>
          app.HandleProjectCreated(p);
          newProjectName := [];
        case FetchFailed =>
          app.status.HandleError(CreateProjectFailed);
      }
      isCreating := false;
    }
  }

  /** Creating a project from a fresh form sends the default model, and the
      created project ends up last in the shell's list and selected. */
  method CreateFirstProject(shell: App, name: string, created: Project)
      returns (request: Option<(string, string)>, last: Project, selected: Option<Project>)
    requires Trim(name) != []
    modifies shell, shell.status
    ensures request == Some((name, "gpt-4o"))
    ensures last == created && selected == Some(created)
  {
    var form := new ProjectList(shell);
    form.Edit(name);
    request := form.Submit();
    assert request == Some((name, DefaultModel));
    var before := shell.State();
    form.Resolve(Fetched(created));
    var after := shell.State();
    assert after == ProjectCreated(before, created);
    assert after.projects == before.projects + [created];
    last := shell.projects[|shell.projects| - 1];
    selected := shell.selectedProject;
  }
}
