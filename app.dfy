/** The session gate (`App`): whether a user is logged in, the name shown
    on the dashboard, and which of the three authentication screens is
    mounted while nobody is logged in. */
module App {

  datatype AuthView = LoginView | ForgotPasswordView | CreateAccountView

  datatype SessionState = SessionState(isLoggedIn: bool, username: string, authView: AuthView)

  const Initial := SessionState(false, "", LoginView)

  /** Logged out means no name is carried. */
  predicate Inv(s: SessionState) {
    !s.isLoggedIn ==> s.username == ""
  }

  /** The screen `App` renders. */
  datatype Screen =
    | DashboardScreen(username: string)
    | LoginScreen
    | ForgotPasswordScreen
    | CreateAccountScreen

  /** The callbacks the screens receive from `App`. */
  datatype Callback =
    | OnLogin(user: string)
    | OnForgotPassword
    | OnCreateAccount
    | OnBack
    | OnRegisterSuccess
    | OnLogout

  /** Which screen `App` renders: the dashboard whenever someone is logged
      in, whatever `authView` holds; otherwise the screen `authView` names. */
  function Rendered(s: SessionState): (r: Screen)
    ensures s.isLoggedIn <==> r.DashboardScreen?
    ensures r.DashboardScreen? ==> r.username == s.username
    ensures !s.isLoggedIn ==>
              (r == LoginScreen <==> s.authView == LoginView) &&
              (r == ForgotPasswordScreen <==> s.authView == ForgotPasswordView) &&
              (r == CreateAccountScreen <==> s.authView == CreateAccountView)
  {
    if s.isLoggedIn then DashboardScreen(s.username)
    else match s.authView
      case LoginView => LoginScreen
      case ForgotPasswordView => ForgotPasswordScreen
      case CreateAccountView => CreateAccountScreen
  }

  /** The callbacks a rendered screen is handed, and so the only ones it can
      call: the login screen gets onLogin, onForgotPassword and
      onCreateAccount; recovery gets onBack; registration gets onBack and
      onRegisterSuccess; the dashboard gets onLogout. */
  function Offered(screen: Screen, c: Callback): (b: bool)
    ensures b && c.OnLogin? ==> screen == LoginScreen
    ensures b && c == OnLogout ==> screen.DashboardScreen?
    ensures screen.DashboardScreen? ==> (b <==> c == OnLogout)
  {
    match screen
    case LoginScreen => c.OnLogin? || c == OnForgotPassword || c == OnCreateAccount
    case ForgotPasswordScreen => c == OnBack
    case CreateAccountScreen => c == OnBack || c == OnRegisterSuccess
    case DashboardScreen(_) => c == OnLogout
  }

  /** `handleLogin(user)`: stores the name and logs in; `authView` keeps
      whatever it held. */
  function Login(s: SessionState, user: string): (r: SessionState)
    ensures r.isLoggedIn && r.username == user && r.authView == s.authView
    ensures Inv(r) && Rendered(r) == DashboardScreen(user)
  {
    s.(username := user, isLoggedIn := true)
  }

  /** `handleLogout`: from any state, back to the initial one. */
  function Logout(s: SessionState): (r: SessionState)
    ensures !r.isLoggedIn && r.username == "" && r.authView == LoginView
    ensures Inv(r) && Rendered(r) == LoginScreen
  {
    s.(isLoggedIn := false, username := "", authView := LoginView)
  }

  /** The navigation callbacks only set `authView`. */
  function Navigate(s: SessionState, v: AuthView): (r: SessionState)
    ensures r.authView == v && r.isLoggedIn == s.isLoggedIn && r.username == s.username
    ensures Inv(s) ==> Inv(r)
  {
    s.(authView := v)
  }

  /** What each callback does to the gate. */
  function Apply(s: SessionState, c: Callback): (r: SessionState)
    ensures Inv(s) ==> Inv(r)
  {
    match c
    case OnLogin(user) => Login(s, user)
    case OnForgotPassword => Navigate(s, ForgotPasswordView)
    case OnCreateAccount => Navigate(s, CreateAccountView)
    case OnBack => Navigate(s, LoginView)
    case OnRegisterSuccess => Navigate(s, LoginView)
    case OnLogout => Logout(s)
  }

  lemma InitialState()
    ensures Inv(Initial) && Rendered(Initial) == LoginScreen
  {
  }

  /** Login followed by logout returns to the initial state, from any start. */
  lemma LoginThenLogout(s: SessionState, user: string)
    ensures Logout(Login(s, user)) == Initial
  {
  }

  /** While logged in, `authView` does not affect what is shown. */
  lemma DashboardIgnoresAuthView(s: SessionState, v: AuthView)
    requires s.isLoggedIn
    ensures Rendered(s.(authView := v)) == Rendered(s) == DashboardScreen(s.username)
  {
  }

  /** The navigation graph among the logged-out screens: from the login
      screen the two links reach recovery and registration; every callback
      the recovery and registration screens hold leads back to the login
      screen; logging out always shows the login screen. */
  lemma {:induction false} NavigationGraph(s: SessionState, c: Callback)
    requires Inv(s) && Offered(Rendered(s), c)
    ensures Rendered(s) == LoginScreen && c == OnForgotPassword ==> Rendered(Apply(s, c)) == ForgotPasswordScreen
    ensures Rendered(s) == LoginScreen && c == OnCreateAccount ==> Rendered(Apply(s, c)) == CreateAccountScreen
    ensures Rendered(s) == LoginScreen && c.OnLogin? ==> Rendered(Apply(s, c)) == DashboardScreen(c.user)
    ensures Rendered(s) in {ForgotPasswordScreen, CreateAccountScreen} ==> Rendered(Apply(s, c)) == LoginScreen
    ensures Rendered(s).DashboardScreen? ==> Apply(s, c) == Initial
  {
    match Rendered(s)
    case LoginScreen =>
    case ForgotPasswordScreen =>
      assert c == OnBack;
    case CreateAccountScreen =>
      assert c == OnBack || c == OnRegisterSuccess;
    case DashboardScreen(_) =>
      assert c == OnLogout;
  }

  /** The gate as a component: its three state variables. */
  class SessionGate {
    var isLoggedIn: bool
    var username: string
    var authView: AuthView

    function Snapshot(): SessionState
      reads this
    {
      SessionState(isLoggedIn, username, authView)
    }

    ghost predicate Valid()
      reads this
    {
      Inv(Snapshot())
    }

    constructor ()
      ensures Valid() && Snapshot() == Initial
    {
      isLoggedIn, username, authView := false, "", LoginView;
    }

    method HandleLogin(user: string)
      requires Valid()
      modifies this
      ensures Valid() && Snapshot() == Login(old(Snapshot()), user)
    {
      username := user;
      isLoggedIn := true;
    }

    method HandleLogout()
      requires Valid()
      modifies this
      ensures Valid() && Snapshot() == Logout(old(Snapshot()))
    {
      isLoggedIn := false;
      username := "";
      authView := LoginView;
    }

    /** The navigation callbacks (`onForgotPassword`, `onCreateAccount`,
        both `onBack`s and `onRegisterSuccess`) each set `authView`. */
    method SetAuthView(v: AuthView)
      requires Valid()
      modifies this
      ensures Valid() && Snapshot() == Navigate(old(Snapshot()), v)
    {
      authView := v;
    }
  }
}
