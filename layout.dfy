/** The panel-collapse rule of the mobile handler: two collapse flags owned by
    the application, driven by the viewport width against a 768-pixel
    threshold and by how deep the selection goes (a project, a session). The
    rule is a pure transition on the flag pair; `Panels` holds the two flags
    and applies it, and also takes the manual toggles. */
module Layout {

  /** Widest viewport, in CSS pixels, that counts as a mobile device. */
  const MobileMaxWidth: int := 768

  /** `isMobileDevice`: the viewport is mobile exactly when it is at most 768 wide. */
  predicate IsMobile(width: int)
  {
    width <= MobileMaxWidth
  }

  /** The two collapse flags. */
  datatype Flags = Flags(projectsCollapsed: bool, sessionsCollapsed: bool)

  /** `handleResize`: on a wide viewport both panels open; on a mobile one a
      selected project collapses the projects panel and a selected session
      collapses both; with nothing selected the flags stay as they are. */
  function Resize(f: Flags, mobile: bool, hasProject: bool, hasSession: bool): (r: Flags)
    ensures !mobile ==> r == Flags(false, false)
    ensures mobile && hasSession ==> r == Flags(true, true)
    ensures mobile && hasProject && !hasSession ==> r == f.(projectsCollapsed := true)
    ensures mobile && !hasProject && !hasSession ==> r == f
  {
    if mobile then
      var g := if hasProject then f.(projectsCollapsed := true) else f;
      if hasSession then Flags(true, true) else g
    else Flags(false, false)
  }

  /** The effect that runs when the selected project changes: on mobile a
      selected project collapses the projects panel. */
  function ProjectEffect(f: Flags, mobile: bool, hasProject: bool): (r: Flags)
    ensures r.sessionsCollapsed == f.sessionsCollapsed
    ensures r.projectsCollapsed == (f.projectsCollapsed || (mobile && hasProject))
  {
    if mobile && hasProject then f.(projectsCollapsed := true) else f
  }

  /** The effect that runs when the selected session changes: on mobile a
      selected session collapses both panels. */
  function SessionEffect(f: Flags, mobile: bool, hasSession: bool): (r: Flags)
    ensures mobile && hasSession ==> r == Flags(true, true)
    ensures !(mobile && hasSession) ==> r == f
  {
    if mobile && hasSession then Flags(true, true) else f
  }

  /** Applying the rule a second time with the same inputs changes nothing. */
  lemma ResizeIdempotent(f: Flags, mobile: bool, hasProject: bool, hasSession: bool)
    ensures var r := Resize(f, mobile, hasProject, hasSession);
      Resize(r, mobile, hasProject, hasSession) == r
  {
  }

  /** The rule never opens a panel on a mobile viewport and never closes one
      on a wide viewport. */
  lemma ResizeDirection(f: Flags, mobile: bool, hasProject: bool, hasSession: bool)
    ensures var r := Resize(f, mobile, hasProject, hasSession);
      (mobile ==> (f.projectsCollapsed ==> r.projectsCollapsed) && (f.sessionsCollapsed ==> r.sessionsCollapsed))
      && (!mobile ==> (!f.projectsCollapsed ==> !r.projectsCollapsed) && (!f.sessionsCollapsed ==> !r.sessionsCollapsed))
  {
  }

  /** The two selection effects, run after the resize rule with the same
      inputs, change nothing: the resize rule alone decides the flags. */
  lemma EffectsAbsorbed(f: Flags, mobile: bool, hasProject: bool, hasSession: bool)
    ensures var r := Resize(f, mobile, hasProject, hasSession);
      SessionEffect(ProjectEffect(r, mobile, hasProject), mobile, hasSession) == r
  {
  }

  /** Mobile is a down-closed range of widths with 768 its largest member. */
  lemma MobileThreshold(w1: int, w2: int)
    ensures IsMobile(768) && !IsMobile(769)
    ensures w1 <= w2 && IsMobile(w2) ==> IsMobile(w1)
  {
  }

  /** The application's two collapse flags. */
  class Panels {
    var projectsCollapsed: bool
    var sessionsCollapsed: bool

    function State(): Flags
      reads this
    {
      Flags(projectsCollapsed, sessionsCollapsed)
    }

    /** Both panels start open. */
    constructor()
      ensures State() == Flags(false, false)
    {
      projectsCollapsed := false;
      sessionsCollapsed := false;
    }

    /** `handleResize`, run on mount, on every window resize and whenever the
        selection changes. */
    method HandleResize(width: int, hasProject: bool, hasSession: bool)
      modifies this
      ensures State() == Resize(old(State()), IsMobile(width), hasProject, hasSession)
    {
      var mobile := IsMobile(width);
      if mobile {
        if hasProject {
          projectsCollapsed := true;
        }
        if hasSession {
          projectsCollapsed := true;
          sessionsCollapsed := true;
        }
      } else {
        projectsCollapsed := false;
        sessionsCollapsed := false;
      }
    }

    /** A change of the selected project: the resize rule, then the project effect. */
    method ProjectChanged(width: int, hasProject: bool, hasSession: bool)
      modifies this
      ensures State() == Resize(old(State()), IsMobile(width), hasProject, hasSession)
    {
      HandleResize(width, hasProject, hasSession);
      if IsMobile(width) && hasProject {
        projectsCollapsed := true;
      }
    }

    /** A change of the selected session: the resize rule, then the session effect. */
    method SessionChanged(width: int, hasProject: bool, hasSession: bool)
      modifies this
      ensures State() == Resize(old(State()), IsMobile(width), hasProject, hasSession)
    {
      HandleResize(width, hasProject, hasSession);
      if IsMobile(width) && hasSession {
        projectsCollapsed := true;
        sessionsCollapsed := true;
      }
    }

    /** The manual projects-panel toggle flips that flag alone. */
    method ToggleProjects()
      modifies this
      ensures projectsCollapsed == !old(projectsCollapsed)
      ensures sessionsCollapsed == old(sessionsCollapsed)
    {
      projectsCollapsed := !projectsCollapsed;
    }

    /** The manual sessions-panel toggle flips that flag alone. */
    method ToggleSessions()
      modifies this
      ensures sessionsCollapsed == !old(sessionsCollapsed)
      ensures projectsCollapsed == old(projectsCollapsed)
    {
      sessionsCollapsed := !sessionsCollapsed;
    }
  }

  /** A phone-sized viewport with nothing selected keeps both panels open;
      selecting a project folds the projects panel, selecting a session folds
      both, and widening the window to 1024 opens both again, as does a manual
      toggle followed by any resize. */
  method Walkthrough() returns (trace: seq<Flags>)
    ensures trace == [Flags(false, false), Flags(true, false), Flags(true, true), Flags(false, false), Flags(false, false)]
  {
    var panels := new Panels();
    panels.HandleResize(500, false, false);
    trace := [panels.State()];
    panels.ProjectChanged(500, true, false);
    trace := trace + [panels.State()];
    panels.SessionChanged(500, true, true);
    trace := trace + [panels.State()];
    panels.HandleResize(1024, true, true);
    trace := trace + [panels.State()];
    panels.ToggleSessions();
    panels.HandleResize(1024, true, true);
    trace := trace + [panels.State()];
  }
}
