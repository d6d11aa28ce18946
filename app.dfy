/** The application shell (App.tsx): the state the shell keeps, its
    handlers, which screen it renders for a given state, and the avatar
    initials of the account page.

    The shell's state is a class whose handlers each update it as React's
    setters do; what is on screen is a function of a snapshot of that
    state. The two Supabase calls of `handleLogin` are replies given as
    parameters. */
module AppShell {
  import opened Common
  import opened Types
  import SidebarNav

  datatype ViewMode = PublicView | AppView

  datatype AuthMode = AuthLogin | AuthSignup

  /** `PublicPageType` */
  datatype PublicPage = Home | About | Contributors | Money

  /** The shell's state. `userRole` is the stored role text, which the
      shell keeps as it comes. */
  datatype AppState = AppState(
    viewMode: ViewMode,
    authMode: AuthMode,
    publicPage: PublicPage,
    isAuthenticated: bool,
    userRole: string,
    currentPage: PageView,
    isMobileNavOpen: bool,
    activeTask: Option<Task>,
    userProfile: Option<map<string, Json>>,
    tasks: seq<Task>,
    isDark: bool)

  // ---------------------------------------------------------------------
  // what is rendered

  /** The content of the signed-in application. */
  datatype Content =
    | AdminDashboardView | AdminCreateTaskView | AdminAccountView
    | TaskListView(userRole: Option<string>)
    | CompleteProfileView | DashboardView | ExecutionView(task: Task)
    | EarningsView | GuidelinesView | SupportView | AccountView

  datatype Screen = PublicScreen(page: PublicPage) | SignupScreen | LoginScreen | AppScreen(content: Content)

  /** `renderContent()`: an "admin" role has its own pages and falls back to
      the admin dashboard; every other role gets the contributor pages and
      falls back to the dashboard. */
  function RenderContent(s: AppState): Content
  {
    if s.userRole == "admin" then
      match s.currentPage
      case AdminDashboard => AdminDashboardView
      case AdminCreateTask => AdminCreateTaskView
      case Tasks => TaskListView(Some("admin"))
      case Account => AdminAccountView
      case _ => AdminDashboardView
    else
      match s.currentPage
      case CompleteProfile => CompleteProfileView
      case Dashboard => DashboardView
      case Tasks => TaskListView(None)
      case Execution => if s.activeTask.None? then TaskListView(None) else ExecutionView(s.activeTask.value)
      case Earnings => EarningsView
      case Guidelines => GuidelinesView
      case Support => SupportView
      case Account => AccountView
      case _ => DashboardView
  }

  /** The top-level render of the shell. */
  function Render(s: AppState): Screen
  {
    if s.viewMode == PublicView then PublicScreen(s.publicPage)
    else if !s.isAuthenticated then (if s.authMode == AuthSignup then SignupScreen else LoginScreen)
    else AppScreen(RenderContent(s))
  }

  /** The public view is shown whatever the sign-in state; out of it, a
      signed-out user sees the sign-up form exactly when the auth mode is
      sign-up and the sign-in form otherwise; the application itself is
      shown only to a signed-in user. */
  lemma RenderGating(s: AppState)
    ensures s.viewMode == PublicView ==> Render(s) == PublicScreen(s.publicPage)
    ensures s.viewMode == AppView && !s.isAuthenticated ==>
      (Render(s) == SignupScreen <==> s.authMode == AuthSignup) && (Render(s) == LoginScreen <==> s.authMode == AuthLogin)
    ensures Render(s).AppScreen? <==> s.viewMode == AppView && s.isAuthenticated
  {
  }

  /** Task creation is rendered only for the "admin" role, and a task is
      executed only by another role; the execution page without an active
      task falls back to the contributor task list. */
  lemma PagesFollowTheStoredRole(s: AppState)
    ensures RenderContent(s) == AdminCreateTaskView <==> s.userRole == "admin" && s.currentPage == AdminCreateTask
    ensures RenderContent(s).ExecutionView? <==> s.userRole != "admin" && s.currentPage == Execution && s.activeTask.Some?
    ensures RenderContent(s).ExecutionView? ==> RenderContent(s).task == s.activeTask.value
    ensures s.userRole != "admin" && s.currentPage == Execution && s.activeTask.None? ==> RenderContent(s) == TaskListView(None)
    ensures s.userRole == "admin" ==> !RenderContent(s).CompleteProfileView? && !RenderContent(s).ExecutionView?
  {
  }

  /** Every item the sidebar offers for the stored role leads to a page
      of its own: after the click the content is that item's page and not
      the fallback dashboard. */
  lemma {:induction false} SidebarItemsReachTheirPages(s: AppState, k: nat)
    requires k < |SidebarNav.NavItems(Some(s.userRole))|
    ensures var item := SidebarNav.NavItems(Some(s.userRole))[k];
      var c := RenderContent(s.(currentPage := item));
      (s.userRole == "admin" ==> (c == AdminDashboardView <==> item == AdminDashboard)) &&
      (s.userRole != "admin" ==> (c == DashboardView <==> item == Dashboard)) &&
      (item == Tasks ==> c.TaskListView?)
  {
    SidebarNav.ItemsFollowTheRole(Some(s.userRole));
    var items := SidebarNav.NavItems(Some(s.userRole));
    if s.userRole == "admin" {
      assert k < 4;
    } else {
      assert k < 6;
    }
  }

  // ---------------------------------------------------------------------
  // signing in

  /** The signed-in user as `supabase.auth.getUser()` reports it. */
  datatype AuthUser = AuthUser(id: string, email: string)

  datatype UserReply = UserReply(user: Option<AuthUser>, failed: bool) | GetUserThrew

  /** The profile read with `.single()`: `{ data, error }`, or a throw. */
  datatype ProfileReply = ProfileReply(data: Option<map<string, Json>>, error: Option<string>) | ProfileThrew

  /** `profile.role_text || "contributor"` for a text column. */
  function StoredRole(profile: map<string, Json>): (role: string)
    ensures role != ""
    ensures (Field(profile, "role_text").Some? && Field(profile, "role_text").value.JStr? &&
             Field(profile, "role_text").value.s != "") ==> role == profile["role_text"].s
    ensures var stored := Field(profile, "role_text");
      !(stored.Some? && stored.value.JStr? && stored.value.s != "") ==> role == Contributor.Value()
  {
    match Field(profile, "role_text")
    case Some(JStr(r)) => if r != "" then r else "contributor"
    case _ => "contributor"
  }

  /** Where a successful sign-in lands: the profile form while the profile
      is not completed, otherwise the dashboard of the role the sign-in
      was made with. */
  function PostLoginPage(profileCompleted: Option<Json>, role: string): (page: PageView)
    ensures !Truthy(profileCompleted) ==> page == CompleteProfile
    ensures Truthy(profileCompleted) ==> (page == AdminDashboard <==> role == "admin")
    ensures Truthy(profileCompleted) && role != "admin" ==> page == Dashboard
  {
    if !Truthy(profileCompleted) then CompleteProfile
    else if role == "admin" then AdminDashboard
    else Dashboard
  }

  /** The alerts of `handleLogin`. */
  const UnexpectedError: string := "An unexpected error occurred. Please try again."
  const NoUserInformation: string := "Failed to get user information. Please try logging in again."
  const ProfileLoadFailed: string := "Failed to load user profile: "
  const NoProfileFound: string := "No profile found. Please contact support."

  /** `handleLogin(role)`: the new state and the alert shown, if any. */
  function LoginSpec(s: AppState, role: string, who: UserReply, profile: ProfileReply): (AppState, Option<string>)
  {
    if who.GetUserThrew? then (s, Some(UnexpectedError))
    else if who.failed || who.user.None? then (s, Some(NoUserInformation))
    else
      match profile
      case ProfileThrew => (s, Some(UnexpectedError))
      case ProfileReply(data, error) =>
        if error.Some? then (s, Some(ProfileLoadFailed + error.value))
        else if data.None? then (s, Some(NoProfileFound))
        else
          var p := data.value;
          (s.(userProfile := Some(p["email" := JStr(who.user.value.email)]),
              userRole := StoredRole(p),
              isAuthenticated := true,
              currentPage := PostLoginPage(Field(p, "profile_completed"), role)),
           None)
  }

  /** A sign-in changes the state only once a profile has been loaded, and
      then only the profile, the role, the sign-in flag and the page; the
      role is the stored one, "contributor" when none is stored; every
      failure is reported with an alert and changes nothing. */
  lemma {:induction false} LoginNeedsAProfile(s: AppState, role: string, who: UserReply, profile: ProfileReply)
    ensures var (t, alert) := LoginSpec(s, role, who, profile);
      var loaded := who.UserReply? && !who.failed && who.user.Some? &&
                    profile.ProfileReply? && profile.error.None? && profile.data.Some?;
      (alert.None? <==> loaded) &&
      (!loaded ==> t == s) &&
      (loaded ==>
        t.isAuthenticated && t.userRole == StoredRole(profile.data.value) &&
        (Field(profile.data.value, "role_text").None? ==> t.userRole == "contributor") &&
        t.currentPage == PostLoginPage(Field(profile.data.value, "profile_completed"), role) &&
        t.userProfile == Some(profile.data.value["email" := JStr(who.user.value.email)]) &&
        t.(userProfile := s.userProfile, userRole := s.userRole, isAuthenticated := s.isAuthenticated,
           currentPage := s.currentPage) == s)
  {
  }

  /** The views follow the stored role, not the mode of the sign-in: an
      admin who signs in as a contributor, with a completed profile, lands
      on the "dashboard" page and is shown the admin dashboard. */
  lemma {:induction false} AdminSignedInAsContributorSeesAdminViews(s: AppState, who: UserReply, p: map<string, Json>)
    requires s.viewMode == AppView
    requires who.UserReply? && !who.failed && who.user.Some?
    requires Field(p, "role_text") == Some(JStr("admin")) && Field(p, "profile_completed") == Some(JBool(true))
    ensures var t := LoginSpec(s, "contributor", who, ProfileReply(Some(p), None)).0;
      t.currentPage == Dashboard && t.userRole == "admin" && Render(t) == AppScreen(AdminDashboardView)
  {
    var t := LoginSpec(s, "contributor", who, ProfileReply(Some(p), None)).0;
    assert StoredRole(p) == "admin";
    assert t.userRole == "admin" && t.currentPage == Dashboard;
  }

  // ---------------------------------------------------------------------
  // the task list

  /** `prev.filter(t => t.id !== taskId)` */
  function WithoutTask(tasks: seq<Task>, id: string): seq<Task>
  {
    Filter(tasks, (t: Task) => t.id != id)
  }

  /** Deleting removes every task with the id, keeps the others in their
      order, and deleting again changes nothing. */
  lemma DeleteRemovesExactlyTheId(tasks: seq<Task>, id: string)
    ensures forall t :: t in WithoutTask(tasks, id) <==> t in tasks && t.id != id
    ensures IsSubsequence(WithoutTask(tasks, id), tasks)
    ensures WithoutTask(WithoutTask(tasks, id), id) == WithoutTask(tasks, id)
  {
    FilterIsSubsequence(tasks, (t: Task) => t.id != id);
    FilterAll(WithoutTask(tasks, id), (t: Task) => t.id != id);
  }

  /** Deleting a task just created, whose id no other task had, gives the
      list back as it was. */
  lemma {:induction false} DeleteUndoesCreate(tasks: seq<Task>, task: Task)
    requires forall t :: t in tasks ==> t.id != task.id
    ensures WithoutTask([task] + tasks, task.id) == tasks
  {
    assert ([task] + tasks)[1..] == tasks;
    FilterAll(tasks, (t: Task) => t.id != task.id);
  }

  // ---------------------------------------------------------------------
  // the shell

  class App {
    var viewMode: ViewMode
    var authMode: AuthMode
    var publicPage: PublicPage
    var isAuthenticated: bool
    var userRole: string
    var currentPage: PageView
    var isMobileNavOpen: bool
    var activeTask: Option<Task>
    var userProfile: Option<map<string, Json>>
    var tasks: seq<Task>
    var isDark: bool

    function State(): AppState
      reads this
    {
      AppState(viewMode, authMode, publicPage, isAuthenticated, userRole, currentPage, isMobileNavOpen,
               activeTask, userProfile, tasks, isDark)
    }

    /** The shell starts on the public home page, signed out, with the
        sign-in form chosen, the contributor role, the dashboard page, no
        task and the dark theme. */
    constructor ()
      ensures State() == AppState(PublicView, AuthLogin, Home, false, "contributor", Dashboard, false, None, None, [], true)
      ensures Render(State()) == PublicScreen(Home)
    {
      viewMode, authMode, publicPage := PublicView, AuthLogin, Home;
      isAuthenticated, userRole, currentPage := false, "contributor", Dashboard;
      isMobileNavOpen, activeTask, userProfile, tasks, isDark := false, None, None, [], true;
    }

    /** `handleEnterApp` */
    method HandleEnterApp()
      modifies this
      ensures State() == old(State()).(authMode := AuthLogin, viewMode := AppView)
    {
      authMode := AuthLogin;
      viewMode := AppView;
    }

    /** `handleStartSignup` */
    method HandleStartSignup()
      modifies this
      ensures State() == old(State()).(authMode := AuthSignup, viewMode := AppView)
    {
      authMode := AuthSignup;
      viewMode := AppView;
    }

    /** `setAuthMode`, as the two forms' switch links call it. */
    method SetAuthMode(mode: AuthMode)
      modifies this
      ensures State() == old(State()).(authMode := mode)
    {
      authMode := mode;
    }

    /** `handleExitApp`: back to the public home page, signed out, with the
        page reset to the dashboard. */
    method HandleExitApp()
      modifies this
      ensures State() == old(State()).(viewMode := PublicView, publicPage := Home, currentPage := Dashboard,
                                       isAuthenticated := false)
      ensures Render(State()) == PublicScreen(Home)
    {
      viewMode := PublicView;
      publicPage := Home;
      currentPage := Dashboard;
      isAuthenticated := false;
    }

    /** `handleLogin(role)` */
    method HandleLogin(role: string, who: UserReply, profile: ProfileReply) returns (alert: Option<string>)
      modifies this
      ensures (State(), alert) == LoginSpec(old(State()), role, who, profile)
    {
      if who.GetUserThrew? {
        return Some(UnexpectedError);
      }
      if who.failed || who.user.None? {
        return Some(NoUserInformation);
      }
      if profile.ProfileThrew? {
        return Some(UnexpectedError);
      }
      if profile.error.Some? {
        return Some(ProfileLoadFailed + profile.error.value);
      }
      if profile.data.None? {
        return Some(NoProfileFound);
      }
      var p := profile.data.value;
      userProfile := Some(p["email" := JStr(who.user.value.email)]);
      userRole := StoredRole(p);
      isAuthenticated := true;
      currentPage := PostLoginPage(Field(p, "profile_completed"), role);
      alert := None;
    }

    /** `handleLogout`: signed out, no active task, back to the public home
        page; the current page is kept. */
    method HandleLogout()
      modifies this
      ensures State() == old(State()).(isAuthenticated := false, activeTask := None, viewMode := PublicView,
                                       publicPage := Home)
      ensures currentPage == old(currentPage) && Render(State()) == PublicScreen(Home)
    {
      isAuthenticated := false;
      activeTask := None;
      viewMode := PublicView;
      publicPage := Home;
    }

    /** `handleSelectTask(task)`: the task becomes active and the execution
        page is shown; a signed-in contributor then sees that task. */
    method HandleSelectTask(task: Task)
      modifies this
      ensures State() == old(State()).(activeTask := Some(task), currentPage := Execution)
      ensures viewMode == AppView && isAuthenticated && userRole != "admin" ==>
        Render(State()) == AppScreen(ExecutionView(task))
    {
      activeTask := Some(task);
      currentPage := Execution;
    }

    /** `handleCompleteTask`: no active task, back to the task list. */
    method HandleCompleteTask()
      modifies this
      ensures State() == old(State()).(activeTask := None, currentPage := Tasks)
      ensures viewMode == AppView && isAuthenticated && userRole != "admin" ==>
        Render(State()) == AppScreen(TaskListView(None))
    {
      activeTask := None;
      currentPage := Tasks;
    }

    /** `handleCreateTask(newTask)`: the task goes first in the list and the
        task list is shown. */
    method HandleCreateTask(newTask: Task)
      modifies this
      ensures State() == old(State()).(tasks := [newTask] + old(tasks), currentPage := Tasks)
    {
      tasks := [newTask] + tasks;
      currentPage := Tasks;
    }

    /** `handleDeleteTask(taskId)` */
    method HandleDeleteTask(taskId: string)
      modifies this
      ensures State() == old(State()).(tasks := WithoutTask(old(tasks), taskId))
    {
      tasks := WithoutTask(tasks, taskId);
    }

    /** `handlePublicNavigate(page)` (the scroll to the top is not modelled). */
    method HandlePublicNavigate(page: PublicPage)
      modifies this
      ensures State() == old(State()).(publicPage := page)
    {
      publicPage := page;
    }

    /** `setCurrentPage`, as the sidebar, the dashboards and the bottom
        navigation call it. */
    method Navigate(page: PageView)
      modifies this
      ensures State() == old(State()).(currentPage := page)
    {
      currentPage := page;
    }

    /** `setIsMobileNavOpen` */
    method SetMobileNavOpen(open: bool)
      modifies this
      ensures State() == old(State()).(isMobileNavOpen := open)
    {
      isMobileNavOpen := open;
    }

    /** `toggleTheme` */
    method ToggleTheme()
      modifies this
      ensures State() == old(State()).(isDark := !old(isDark))
    {
      isDark := !isDark;
    }
  }

  // ---------------------------------------------------------------------
  // avatar initials

  /** `s[0]` inside a template string: "undefined" when `s` is empty. */
  function FirstOrUndefined(s: string): string
  {
    if s == "" then "undefined" else [s[0]]
  }

  /** `getInitials(name)` as written: the pieces of `name.split(' ')` are
      used whether or not they are empty. */
  function GetInitialsAsWritten(name: string): string
  {
    if name == "" then "U"
    else
      var parts := Split(name, ' ');
      if |parts| > 1 then Upper(FirstOrUndefined(parts[0]) + FirstOrUndefined(parts[1]))
      else Upper(FirstOrUndefined(parts[0]))
  }

  /** A name with a trailing space, such as "Ann ", gets the initials
      "AUNDEFINED"; one with a leading space, " Ann", "UNDEFINEDA". */
  lemma {:induction false} InitialsOfSpacedNames()
    ensures GetInitialsAsWritten("Ann ") == "AUNDEFINED"
    ensures GetInitialsAsWritten(" Ann") == "UNDEFINEDA"
  {
    TrailingSpaceInitials();
    LeadingSpaceInitials();
  }

  lemma {:induction false} TrailingSpaceInitials()
    ensures GetInitialsAsWritten("Ann ") == "AUNDEFINED"
  {
    assert Split("Ann ", ' ') == ["Ann", ""] by {
      SplitAt("Ann", ' ', "");
      assert "Ann " == "Ann" + [' '] + "";
    }
    assert GetInitialsAsWritten("Ann ") == Upper("Aundefined");
    TrailingUndefinedInCapitals();
  }

  lemma {:induction false} LeadingSpaceInitials()
    ensures GetInitialsAsWritten(" Ann") == "UNDEFINEDA"
  {
    assert Split(" Ann", ' ') == ["", "Ann"] by {
      SplitAt("", ' ', "Ann");
      assert " Ann" == "" + [' '] + "Ann";
      SplitNoSeparator("Ann", ' ');
    }
    assert GetInitialsAsWritten(" Ann") == Upper("undefinedA");
    LeadingUndefinedInCapitals();
  }

  lemma TrailingUndefinedInCapitals()
    ensures Upper("Aundefined") == "AUNDEFINED"
  {
  }

  lemma LeadingUndefinedInCapitals()
    ensures Upper("undefinedA") == "UNDEFINEDA"
  {
  }

  /** The words of a name: its space-separated pieces that are not empty. */
  function Words(name: string): (w: seq<string>)
    ensures forall x :: x in w ==> x != "" && ' ' !in x
  {
    SplitShape(name, ' ');
    Filter(Split(name, ' '), (x: string) => x != "")
  }

  /** The initials over the words of the name: "U" when it has none. */
  function GetInitials(name: string): string
  {
    var words := Words(name);
    if |words| == 0 then "U"
    else if |words| == 1 then Upper([words[0][0]])
    else Upper([words[0][0], words[1][0]])
  }

  /** The corrected initials are one or two characters: "U" for a name
      without words, otherwise the upper case of the first character of
      each of its first two words, never a space; and they agree with the
      initials as written on every name with no leading, trailing or
      doubled space. */
  lemma {:induction false} InitialsAreOneOrTwoLetters(name: string)
    ensures 1 <= |GetInitials(name)| <= 2
    ensures Words(name) == [] ==> GetInitials(name) == "U"
    ensures forall k :: 0 <= k < |GetInitials(name)| && k < |Words(name)| ==>
      Words(name)[k][0] != ' ' && GetInitials(name)[k] == UpperChar(Words(name)[k][0])
    ensures name != "" && (forall x :: x in Split(name, ' ') ==> x != "") ==>
      GetInitialsAsWritten(name) == GetInitials(name)
  {
    var words := Words(name);
    forall k | 0 <= k < |words|
      ensures words[k] != "" && ' ' !in words[k]
    {
      assert words[k] in words;
    }
    var parts := Split(name, ' ');
    if name != "" && (forall x :: x in parts ==> x != "") {
      FilterAll(parts, (x: string) => x != "");
      assert words == parts;
      assert parts[0] in parts;
      if |parts| > 1 {
        assert parts[1] in parts;
      }
    }
  }
}
