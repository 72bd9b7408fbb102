/** The screen selection of src/App.tsx: which view is current, the session
    of the running interview, and the handlers the pages call. */
module App {
  import opened Wrappers
  import opened Seqs
  import opened Types
  import opened Records
  import opened InterviewStorage
  import opened ScheduledInterviews
  import opened LiveDashboard
  import opened InterviewSetup
  import opened Roles
  import opened LiveRules
  import opened LiveEngine

  datatype AppView = HomeView | InterviewView | CandidatesView | ScheduledView

  /** `InterviewSession`. */
  datatype Session = Session(
    candidateName: string,
    candidateEmail: string,
    jobRole: string,
    interviewType: InterviewType,
    isActive: bool,
    scheduledId: Option<string>)

  datatype AppState = AppState(view: AppView, session: Option<Session>)

  function InitialApp(): AppState {
    AppState(HomeView, None)
  }

  /** `handleStartInterview(...)`: an active session for the arguments, and
      the interview view. */
  function StartInterview(st: AppState, req: StartRequest): (r: AppState)
    ensures r.view == InterviewView && r.session.Some? && r.session.value.isActive
    ensures var s := r.session.value;
            s.candidateName == req.candidateName && s.candidateEmail == req.candidateEmail
            && s.jobRole == req.jobRole && s.interviewType == req.interviewType
            && s.scheduledId == req.scheduledId
  {
    AppState(InterviewView, Some(Session(req.candidateName, req.candidateEmail, req.jobRole,
                                         req.interviewType, true, req.scheduledId)))
  }

  /** `handleEndInterview()`: no session, home view. */
  function EndInterview(st: AppState): (r: AppState)
    ensures r == InitialApp()
  {
    AppState(HomeView, None)
  }

  /** `handleViewCandidates`, `handleViewScheduled` and `handleBackToHome`:
      only the view changes. */
  function Navigate(st: AppState, v: AppView): (r: AppState)
    requires v != InterviewView
    ensures r.view == v && r.session == st.session
  {
    st.(view := v)
  }

  /** The page `App` renders. */
  datatype Screen =
    | CandidatesScreen
    | ScheduledScreen
    | DashboardScreen(session: Session)
    | HomeScreen

  /** The view selection: the dashboard needs both the interview view and a
      session; anything else that is not a list page is the home page. */
  function Rendered(st: AppState): (r: Screen)
    ensures r.DashboardScreen? <==> st.view == InterviewView && st.session.Some?
    ensures r.DashboardScreen? ==> r.session == st.session.value
    ensures r == HomeScreen <==>
              st.view == HomeView || (st.view == InterviewView && st.session.None?)
  {
    match st.view
    case CandidatesView => CandidatesScreen
    case ScheduledView => ScheduledScreen
    case InterviewView => if st.session.Some? then DashboardScreen(st.session.value) else HomeScreen
    case HomeView => HomeScreen
  }

  /** What the user can do from the pages. */
  datatype Event =
    | Start(req: StartRequest)
    | End
    | ToCandidates
    | ToScheduled
    | BackToHome

  function Step(st: AppState, e: Event): AppState {
    match e
    case Start(req) => StartInterview(st, req)
    case End => EndInterview(st)
    case ToCandidates => Navigate(st, CandidatesView)
    case ToScheduled => Navigate(st, ScheduledView)
    case BackToHome => Navigate(st, HomeView)
  }

  /** The state after the events `es`, from `st`. */
  function Run(st: AppState, es: seq<Event>): AppState
    decreases |es|
  {
    if |es| == 0 then st else Run(Step(st, es[0]), es[1..])
  }

  /** The interview view always has a session, and every session is
      active. */
  predicate Consistent(st: AppState) {
    (st.view == InterviewView ==> st.session.Some?)
    && (st.session.Some? ==> st.session.value.isActive)
  }

  /** Every handler keeps the state consistent. */
  lemma StepConsistent(st: AppState, e: Event)
    requires Consistent(st)
    ensures Consistent(Step(st, e))
  {
  }

  /** Whatever the user does, the interview view shows the dashboard, never
      the home page. */
  lemma {:induction false} ReachableConsistent(es: seq<Event>, st: AppState)
    requires Consistent(st)
    ensures Consistent(Run(st, es))
    ensures Run(st, es).view == InterviewView ==> Rendered(Run(st, es)).DashboardScreen?
    decreases |es|
  {
    if |es| > 0 {
      StepConsistent(st, es[0]);
      ReachableConsistent(es[1..], Step(st, es[0]));
    }
  }

  /** The app starts consistent, so everything reachable from it is. */
  lemma FromLaunch(es: seq<Event>)
    ensures Consistent(Run(InitialApp(), es))
  {
    ReachableConsistent(es, InitialApp());
  }

  /** Starting a stored scheduled interview from its list and completing it
      on the dashboard marks that very interview completed. */
  lemma ScheduledInterviewCompletedEndToEnd(st: AppState, s: InterviewStore,
                                            i: ScheduledInterview, d: Dashboard)
    requires GetScheduledInterviewById(s, i.id) == Some(i) && i.id != ""
    ensures var session := StartInterview(st, StartFromScheduled(i)).session.value;
            GetScheduledInterviewById(CompleteInterview(d, s, session.scheduledId).interviews, i.id)
            == Some(i.(status := Completed))
  {
  }

  /** Every role button names a role of the live keyword table, so an
      interview started with one is scored with that role's own lists. */
  lemma ShortcutRolesHaveKeywords()
    ensures forall i :: 0 <= i < |ShortcutRoles()| ==> IsKnownRole(ShortcutRoles()[i])
  {
    var named := [RoleName(SoftwareEngineer), RoleName(ProductManager), RoleName(UxDesigner),
                  RoleName(DataScientist), RoleName(SalesManager)];
    assert ShortcutRoles() == named;
    KnownRoles(SoftwareEngineer);
    KnownRoles(ProductManager);
    KnownRoles(UxDesigner);
    KnownRoles(DataScientist);
    KnownRoles(SalesManager);
  }
}
