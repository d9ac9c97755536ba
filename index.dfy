/**
 * The page that owns the session (src/pages/Index.tsx): whether someone is
 * signed in, which authentication form is shown, the current page and the
 * user record. Login and registration are simulated and always succeed; the
 * current page selects the view, with the dashboard as fallback.
 */
module Index {
  import opened Wrappers
  import opened Toasts

  datatype AuthMode = Login | Register

  /** A field value of the untyped user object: the numeric id or a string. */
  datatype Value = Num(n: int) | Str(s: string)

  /** The user object: field name to value. */
  type UserRecord = map<string, Value>

  /** The fields handleLogin fills with fixed placeholders. */
  const PlaceholderFields: set<string> := {"id", "firstName", "lastName", "userType", "department"}

  /** The user handleLogin builds: the given email and fixed placeholder fields. */
  function MockUser(email: string): (u: UserRecord)
    ensures u.Keys == PlaceholderFields + {"email"}
    ensures u["email"] == Str(email)
  {
    map["id" := Num(1), "email" := Str(email), "firstName" := Str("Souhail"), "lastName" := Str("Tounfi"),
        "userType" := Str("student"), "department" := Str("TRI")]
  }

  /** Only the email depends on the input: two logins differ in nothing else. */
  lemma MockUserPlaceholders(email1: string, email2: string)
    ensures forall k :: k in PlaceholderFields ==> MockUser(email1)[k] == MockUser(email2)[k]
    ensures MockUser(email1) == MockUser(email2) <==> email1 == email2
  {
    if MockUser(email1) == MockUser(email2) {
      assert MockUser(email1)["email"] == MockUser(email2)["email"];
    }
  }

  /**
   * The user handleRegister builds, `{ id: Date.now(), ...userData }`: every
   * submitted field, plus the generated id unless the submission has its own.
   */
  function RegisteredUser(userData: UserRecord, now: int): (u: UserRecord)
    ensures u.Keys == userData.Keys + {"id"}
    ensures forall k :: k in userData ==> u[k] == userData[k]
    ensures "id" !in userData ==> u["id"] == Num(now)
  {
    map["id" := Num(now)] + userData
  }

  /** The views renderCurrentPage chooses between. */
  datatype View = DashboardView | MapView | StatisticsView | ProfileView | SettingsView

  /** renderCurrentPage: the view of the page id, the dashboard for any unknown id. */
  function RenderCurrentPage(page: string): (v: View)
    ensures v == DashboardView <==> page == "home" || page !in PageIds
    ensures page in PageIds ==> PageId(v) == page
  {
    if page == "home" then DashboardView
    else if page == "map" then MapView
    else if page == "stats" then StatisticsView
    else if page == "profile" then ProfileView
    else if page == "settings" then SettingsView
    else DashboardView
  }

  /** The page id that selects a view. */
  function PageId(v: View): (page: string)
    ensures page in PageIds
  {
    match v
    case DashboardView => "home"
    case MapView => "map"
    case StatisticsView => "stats"
    case ProfileView => "profile"
    case SettingsView => "settings"
  }

  const PageIds: set<string> := {"home", "map", "stats", "profile", "settings"}

  /** Each of the five ids renders its own view, and every view is reached by exactly one id. */
  lemma RenderKnownPages(v: View, page: string)
    ensures RenderCurrentPage(PageId(v)) == v
    ensures page in PageIds ==> PageId(RenderCurrentPage(page)) == page
  {
  }

  /** Every other id renders the dashboard. */
  lemma RenderFallback(page: string)
    ensures page !in PageIds ==> RenderCurrentPage(page) == DashboardView
    ensures RenderCurrentPage(page) != DashboardView ==> page in PageIds - {"home"}
  {
  }

  /** What the page shows. */
  datatype Screen = LoginScreen | RegisterScreen | MainScreen(view: View)

  /** Signed out, the authentication form chosen by authMode; signed in, the current page's view. */
  function ScreenOf(isAuthenticated: bool, authMode: AuthMode, currentPage: string): (s: Screen)
    ensures !isAuthenticated ==> (s == LoginScreen <==> authMode == Login)
    ensures !isAuthenticated ==> (s == RegisterScreen <==> authMode == Register)
    ensures isAuthenticated ==> s == MainScreen(RenderCurrentPage(currentPage))
  {
    if !isAuthenticated then
      match authMode
      case Login => LoginScreen
      case Register => RegisterScreen
    else MainScreen(RenderCurrentPage(currentPage))
  }

  /** Signed out, the current page is ignored. */
  lemma SignedOutIgnoresPage(authMode: AuthMode, page1: string, page2: string)
    ensures ScreenOf(false, authMode, page1) == ScreenOf(false, authMode, page2)
  {
  }

  /** The four useState hooks of the page, and the toasts it has emitted. */
  class IndexState {
    var isAuthenticated: bool
    var authMode: AuthMode
    var currentPage: string
    var user: Option<UserRecord>
    var toasts: seq<Toast>

    /** Signed in exactly when there is a user. */
    ghost predicate Valid()
      reads this
    {
      isAuthenticated <==> user.Some?
    }

    function Rendered(): Screen
      reads this
    {
      ScreenOf(isAuthenticated, authMode, currentPage)
    }

    constructor ()
      ensures Valid()
      ensures !isAuthenticated && authMode == Login && currentPage == "home" && user == None
      ensures toasts == []
      ensures Rendered() == LoginScreen
    {
      isAuthenticated := false;
      authMode := Login;
      currentPage := "home";
      user := None;
      toasts := [];
    }

    /** handleLogin, after its simulated delay: always signs in; the password is never read. */
    method HandleLogin(email: string, password: string)
      modifies this
      ensures Valid()
      ensures isAuthenticated && currentPage == "home" && user == Some(MockUser(email))
      ensures authMode == old(authMode) && toasts == old(toasts)
      ensures Rendered() == MainScreen(DashboardView)
    {
      var mockUser := MockUser(email);
      user := Some(mockUser);
      isAuthenticated := true;
      currentPage := "home";
    }

    /** handleRegister, after its simulated delay; `now` stands for Date.now(). */
    method HandleRegister(userData: UserRecord, now: int)
      modifies this
      ensures Valid()
      ensures isAuthenticated && currentPage == "home" && user == Some(RegisteredUser(userData, now))
      ensures authMode == old(authMode) && toasts == old(toasts)
      ensures Rendered() == MainScreen(DashboardView)
    {
      user := Some(RegisteredUser(userData, now));
      isAuthenticated := true;
      currentPage := "home";
    }

    /** handleLogout: signs out, back to home, keeps the auth mode, confirms with a toast. */
    method HandleLogout()
      modifies this
      ensures Valid()
      ensures !isAuthenticated && user == None && currentPage == "home"
      ensures authMode == old(authMode)
      ensures toasts == old(toasts) + [LogoutConfirmed]
    {
      isAuthenticated := false;
      user := None;
      currentPage := "home";
      toasts := toasts + [LogoutConfirmed];
    }

    /** The login form's "S'inscrire" link. */
    method SwitchToRegister()
      requires Valid()
      modifies this
      ensures Valid()
      ensures authMode == Register
      ensures isAuthenticated == old(isAuthenticated) && currentPage == old(currentPage)
      ensures user == old(user) && toasts == old(toasts)
    {
      authMode := Register;
    }

    /** The register form's link back to the login form. */
    method SwitchToLogin()
      requires Valid()
      modifies this
      ensures Valid()
      ensures authMode == Login
      ensures isAuthenticated == old(isAuthenticated) && currentPage == old(currentPage)
      ensures user == old(user) && toasts == old(toasts)
    {
      authMode := Login;
    }

    /** onPageChange is setCurrentPage itself: any string is stored, unchecked. */
    method OnPageChange(page: string)
      requires Valid()
      modifies this
      ensures Valid()
      ensures currentPage == page
      ensures isAuthenticated == old(isAuthenticated) && authMode == old(authMode)
      ensures user == old(user) && toasts == old(toasts)
      ensures isAuthenticated ==> Rendered() == MainScreen(RenderCurrentPage(page))
    {
      currentPage := page;
    }
  }
}
