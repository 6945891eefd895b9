/** `LoginPage`: the sign-in form. It checks the two inputs, asks the proxy
    for a session token and then for the user's details, stores three
    cookies and redirects home; or it shows one of a few error texts. */
module LoginPage {
  import opened JsValues
  import opened Http
  import opened WebStorage
  import ProtectedRoute
  import Server

  /** The component's state. */
  datatype LoginState = LoginState(
    username: string, password: string, isLoading: bool, error: Json,
    redirectToHome: bool, redirectToFun: bool)

  const Initial: LoginState := LoginState("", "", false, Null, false, false)

  /** The one username that is sent to `/fun` instead of being checked. */
  const FunUser: string := "aa5518"

  const RequiredMessage: string := "Username and password are required"
  const DefaultMessage: string := "Login failed. Please try again."
  const WrongCredentials: string := "Incorrect username or password"
  const NotResponding: string := "Server not responding. Please try again later."
  const NoTokenReceived: string := "Authentication failed - no token received"
  const NoUserInfo: string := "Failed to retrieve user information"

  /** The cookies `clearAllCookies` removes. */
  const SessionCookies: set<string> := {"token", "username", "password", "displayName"}

  /** `POST /api/login` with `{ username, password }`, to what it ends in. */
  type LoginCall = (string, string) -> Response
  /** `GET /api/user` with the token as query parameter, to what it ends in. */
  type UserCall = Json -> Response

  // ---------------------------------------------------------------------
  // The request chain

  /** How the `try` block of `handleLogin` ends: with the token and the
      user's `name`, or with the error that reaches the `catch`. */
  datatype Outcome = SignedIn(token: Json, name: Value) | Rejected(error: Error)

  /** The `TypeError` destructuring `null` throws. */
  function NullDestructure(key: string, source: string): string
  {
    "Cannot destructure property '" + key + "' of '" + source + "' as it is null."
  }

  /** `const { cookies } = loginResponse.data`, `if (!cookies) throw ...`,
      the user request with `cookies` as token, `const { userInfo } =
      userResponse.data`, `if (!userInfo) throw ...`. */
  function Attempt(username: string, password: string, login: LoginCall, user: UserCall): (o: Outcome)
    ensures o.SignedIn? ==> IsTruthy(o.token)
  {
    match login(username, password)
    case Failed(e) => Rejected(e)
    case Ok(data) =>
      if data.Null? then Rejected(Thrown(NullDestructure("cookies", "loginResponse.data")))
      else
        var cookies := Get(data, "cookies");
        if !Truthy(cookies) then Rejected(Thrown(NoTokenReceived))
        else
          match user(cookies.value)
          case Failed(e) => Rejected(e)
          case Ok(userData) =>
            if userData.Null? then Rejected(Thrown(NullDestructure("userInfo", "userResponse.data")))
            else
              var userInfo := Get(userData, "userInfo");
              if !Truthy(userInfo) then Rejected(Thrown(NoUserInfo))
              else SignedIn(cookies.value, Get(userInfo.value, "name"))
  }

  /** The `catch` block's choice of text. */
  function ErrorMessage(e: Error): (m: Json)
    ensures IsTruthy(m)
  {
    match e
    case HttpError(status, data) =>
      if status == 401 then Str(WrongCredentials)
      else if IsTruthy(data) && Truthy(Get(data, "error")) then Get(data, "error").value
      else Str(DefaultMessage)
    case NoResponse(_) => Str(NotResponding)
    case Thrown(_) => Str(DefaultMessage)
  }

  /** The cookies after a successful sign-in: the session cookies cleared,
      then `token`, `username` and `displayName` set, as `js-cookie` stores
      them (`String(value)`). */
  function SignedInCookies(cookies: map<string, string>, username: string, token: Json, name: Value): map<string, string>
  {
    (cookies - SessionCookies)
      ["token" := ToString(Some(token))]
      ["username" := ToString(Some(Str(username)))]
      ["displayName" := ToString(name)]
  }

  /** `handleLogin` up to its last `await`: the new state and cookies.
      On success the page stays loading until the redirect timer fires. */
  function Submit(s: LoginState, cookies: map<string, string>, login: LoginCall, user: UserCall)
    : (LoginState, map<string, string>)
  {
    if s.username == FunUser then (s.(redirectToFun := true), cookies)
    else if s.username == "" || s.password == "" then (s.(error := Str(RequiredMessage)), cookies)
    else
      match Attempt(s.username, s.password, login, user)
      case SignedIn(token, name) =>
        (s.(isLoading := true, error := Null), SignedInCookies(cookies, s.username, token, name))
      case Rejected(e) => (s.(isLoading := false, error := ErrorMessage(e)), cookies)
  }

  /** A toast `handleLogin` raises. */
  datatype Toast = Welcome(text: string) | Failure(message: Json)

  /** The toast of one `handleLogin`: none for the fun username, a welcome
      naming the user after a sign-in, and otherwise the error text. */
  function Notification(s: LoginState, login: LoginCall, user: UserCall): (t: Option<Toast>)
    ensures t.None? <==> s.username == FunUser
    ensures t.Some? && t.value.Welcome? <==>
      s.username != FunUser && s.username != "" && s.password != "" && Attempt(s.username, s.password, login, user).SignedIn?
    ensures t.Some? && t.value.Failure? ==> IsTruthy(t.value.message)
  {
    if s.username == FunUser then None
    else if s.username == "" || s.password == "" then Some(Failure(Str(RequiredMessage)))
    else
      match Attempt(s.username, s.password, login, user)
      case SignedIn(_, name) => Some(Welcome("Welcome back, " + ToString(name) + "!"))
      case Rejected(e) => Some(Failure(ErrorMessage(e)))
  }

  /** The `setTimeout` callback scheduled after a successful sign-in. */
  function TimerFired(s: LoginState): LoginState
  {
    s.(isLoading := false, redirectToHome := true)
  }

  /** What `render` returns. */
  datatype Screen = Home | Fun | Form

  /** `redirectToHome || (token && (usernameC || displayName))` goes home,
      checked before `redirectToFun`. */
  function Render(s: LoginState, cookies: map<string, string>): Screen
  {
    var token := Cookie(cookies, "token");
    var username := Cookie(cookies, "username");
    var displayName := Cookie(cookies, "displayName");
    if s.redirectToHome || (Truthy(token) && (Truthy(username) || Truthy(displayName))) then Home
    else if s.redirectToFun then Fun
    else Form
  }

  // ---------------------------------------------------------------------
  // The component

  class Page {
    var username: string
    var password: string
    var isLoading: bool
    var error: Json
    var redirectToHome: bool
    var redirectToFun: bool

    constructor ()
      ensures State() == Initial
    {
      username, password, isLoading, error := "", "", false, Null;
      redirectToHome, redirectToFun := false, false;
    }

    function State(): LoginState
      reads this
    {
      LoginState(username, password, isLoading, error, redirectToHome, redirectToFun)
    }

    /** `usernameInputHandler` */
    method UsernameInput(value: string)
      modifies this
      ensures State() == old(State()).(username := value)
    {
      username := value;
    }

    /** `passwordInputHandler` */
    method PasswordInput(value: string)
      modifies this
      ensures State() == old(State()).(password := value)
    {
      password := value;
    }

    /** `clearAllCookies` */
    static method ClearAllCookies(jar: CookieJar)
      modifies jar
      ensures jar.cookies == old(jar.cookies) - SessionCookies
    {
      jar.Remove("token");
      jar.Remove("username");
      jar.Remove("password");
      jar.Remove("displayName");
    }

    /** `handleLogin`, with the two proxy calls given; `timer` says whether
        the redirect timer was scheduled, and `toast` is the toast raised. */
    method HandleLogin(jar: CookieJar, login: LoginCall, user: UserCall) returns (timer: bool, toast: Option<Toast>)
      modifies this, jar
      ensures (State(), jar.cookies) == Submit(old(State()), old(jar.cookies), login, user)
      ensures toast == Notification(old(State()), login, user)
      ensures timer <==> (old(username) != FunUser && old(username) != "" && old(password) != ""
        && Attempt(old(username), old(password), login, user).SignedIn?)
    {
      timer, toast := false, None;
      if username == FunUser {
        redirectToFun := true;
        return;
      }
      if username == "" || password == "" {
        toast := Some(Failure(Str(RequiredMessage)));
        error := Str(RequiredMessage);
        return;
      }
      isLoading, error := true, Null;
      var outcome := Attempt(username, password, login, user);
      match outcome {
        case SignedIn(token, name) =>
          ClearAllCookies(jar);
          jar.Set("token", Some(token));
          jar.Set("username", Some(Str(username)));
          jar.Set("displayName", name);
          toast := Some(Welcome("Welcome back, " + ToString(name) + "!"));
          timer := true;
        case Rejected(e) =>
          toast := Some(Failure(ErrorMessage(e)));
          error, isLoading := ErrorMessage(e), false;
      }
    }

    /** The redirect timer firing. */
    method RedirectTimer()
      modifies this
      ensures State() == TimerFired(old(State()))
    {
      isLoading, redirectToHome := false, true;
    }

    /** `render`'s choice of screen. */
    function Rendered(jar: CookieJar): Screen
      reads this, jar
    {
      Render(State(), jar.cookies)
    }
  }

  // ---------------------------------------------------------------------
  // Properties

  /** Every error toast repeats the error the form then shows, and a
      welcome comes exactly when the cookies hold the new token. */
  lemma ToastMatchesForm(s: LoginState, cookies: map<string, string>, login: LoginCall, user: UserCall)
    ensures var (t, c) := Submit(s, cookies, login, user);
      var n := Notification(s, login, user);
      && (n.Some? && n.value.Failure? ==> t.error == n.value.message)
      && (n.Some? && n.value.Welcome? ==>
            var o := Attempt(s.username, s.password, login, user);
            && Cookie(c, "token") == Some(Str(ToString(Some(o.token))))
            && n.value.text == "Welcome back, " + ToString(o.name) + "!")
  {
  }

  /** The fun username goes to `/fun` before any validation or request:
      only `redirectToFun` changes, the cookies stay, and the form is left. */
  lemma FunUserFirst(s: LoginState, cookies: map<string, string>, login: LoginCall, user: UserCall)
    requires s.username == FunUser
    ensures Submit(s, cookies, login, user) == (s.(redirectToFun := true), cookies)
    ensures Render(Submit(s, cookies, login, user).0, cookies) != Form
  {
  }

  /** An empty username or password sets the required-fields error and
      sends nothing: the result does not depend on the proxy. */
  lemma MissingCredentials(s: LoginState, cookies: map<string, string>,
                           login: LoginCall, user: UserCall, login': LoginCall, user': UserCall)
    requires s.username != FunUser && (s.username == "" || s.password == "")
    ensures Submit(s, cookies, login, user) == Submit(s, cookies, login', user')
    ensures Submit(s, cookies, login, user) == (s.(error := Str(RequiredMessage)), cookies)
  {
  }

  /** The texts the page shows: 401 means wrong credentials; another HTTP
      error shows the body's `error` when there is one; no answer means the
      server is not responding; anything else, including the page's own
      thrown errors, gives the default text. */
  lemma ErrorClasses(e: Error)
    ensures e.HttpError? && e.status == 401 ==> ErrorMessage(e) == Str(WrongCredentials)
    ensures e.HttpError? && e.status != 401 && IsTruthy(e.body) && Truthy(Get(e.body, "error")) ==>
      ErrorMessage(e) == Get(e.body, "error").value
    ensures e.HttpError? && e.status != 401 && !(IsTruthy(e.body) && Truthy(Get(e.body, "error"))) ==>
      ErrorMessage(e) == Str(DefaultMessage)
    ensures e.NoResponse? ==> ErrorMessage(e) == Str(NotResponding)
    ensures e.Thrown? ==> ErrorMessage(e) == Str(DefaultMessage)
  {
  }

  /** A login answer without `cookies`, or a user answer without
      `userInfo`, ends with the default text, not the thrown one; loading
      stops and the cookies stay. */
  lemma MissingTokenOrUserInfo(s: LoginState, cookies: map<string, string>, login: LoginCall, user: UserCall)
    requires s.username != FunUser && s.username != "" && s.password != ""
    requires login(s.username, s.password).Ok?
    requires var data := login(s.username, s.password).body;
      !data.Null? &&
      (!Truthy(Get(data, "cookies"))
        || (user(Get(data, "cookies").value).Ok?
            && var userData := user(Get(data, "cookies").value).body;
               !userData.Null? && !Truthy(Get(userData, "userInfo"))))
    ensures Submit(s, cookies, login, user) == (s.(isLoading := false, error := Str(DefaultMessage)), cookies)
  {
  }

  /** A failed attempt leaves the cookies alone, stops loading and always
      shows a non-empty text. */
  lemma FailureKeepsCookies(s: LoginState, cookies: map<string, string>, login: LoginCall, user: UserCall)
    requires s.username != FunUser && s.username != "" && s.password != ""
    requires Attempt(s.username, s.password, login, user).Rejected?
    ensures var (t, c) := Submit(s, cookies, login, user);
      c == cookies && t == s.(isLoading := false, error := t.error) && IsTruthy(t.error)
  {
  }

  /** A successful attempt replaces the session cookies: `token` is the
      token as a string, `username` the typed name, `displayName` the
      user's `name`, and `password` is gone; every other cookie stays.
      The protected pages then admit the user whenever the token does not
      print as the empty string. */
  lemma SuccessSetsCookies(s: LoginState, cookies: map<string, string>, login: LoginCall, user: UserCall)
    requires s.username != FunUser && s.username != "" && s.password != ""
    requires Attempt(s.username, s.password, login, user).SignedIn?
    ensures var o := Attempt(s.username, s.password, login, user);
      var c := Submit(s, cookies, login, user).1;
      && c["token"] == ToString(Some(o.token))
      && c["username"] == s.username
      && c["displayName"] == ToString(o.name)
      && "password" !in c
      && (forall k :: k in cookies && k !in SessionCookies ==> k in c && c[k] == cookies[k])
      && (ProtectedRoute.Guard(c) == ProtectedRoute.Outlet <==> c["token"] != "")
  {
    var o := Attempt(s.username, s.password, login, user);
    var c := Submit(s, cookies, login, user).1;
    assert c == SignedInCookies(cookies, s.username, o.token, o.name);
    ProtectedRoute.GuardAdmits(c);
  }

  /** Once the timer has fired the page renders the home redirect. */
  lemma TimerGoesHome(s: LoginState, cookies: map<string, string>)
    ensures Render(TimerFired(s), cookies) == Home
  {
  }

  /** The login page sends the user home exactly when `redirectToHome` is
      set or the protected pages would admit them: the two cookie checks
      coincide. */
  lemma RedirectMatchesGuard(s: LoginState, cookies: map<string, string>)
    ensures Render(s, cookies) == Home <==>
      s.redirectToHome || ProtectedRoute.Guard(cookies) == ProtectedRoute.Outlet
    ensures Render(s, cookies) == Fun <==>
      !s.redirectToHome && ProtectedRoute.Guard(cookies) == ProtectedRoute.ToLogin && s.redirectToFun
  {
  }

  // ---------------------------------------------------------------------
  // The page against the proxy

  /** The body the page posts to `/api/login`. */
  function LoginBody(username: string, password: string): (j: Json)
    ensures j.Obj? && FieldKeys(j.fields) == ["username", "password"]
    ensures Get(j, "username") == Some(Str(username)) && Get(j, "password") == Some(Str(password))
  {
    var j := Obj([("username", Str(username)), ("password", Str(password))]);
    assert "username"[0] != "password"[0];
    assert j.fields[1..] == [("password", Str(password))];
    assert Lookup(j.fields[1..], "password") == Some(Str(password));
    j
  }

  /** The page only posts non-empty credentials, so the proxy forwards
      exactly them upstream and never answers with its own required-fields
      error. */
  lemma ProxyNeverRequiresCredentials(username: string, password: string, campus: Server.Campus)
    requires username != "" && password != ""
    ensures Server.Credentials(LoginBody(username, password)) == Some(LoginBody(username, password))
    ensures Server.Login(LoginBody(username, password), campus)
      != Server.Reply(400, Server.ErrorBody(Server.CredentialsRequired))
  {
  }

  /** A proxy error other than 401 shows the proxy's own `error` text:
      every error reply of `/api/login` carries one, so the default text
      appears only when that text is empty. */
  lemma ProxyErrorsShown(body: Json, campus: Server.Campus)
    requires body.Obj? || body.Arr?
    requires Server.Login(body, campus).status != 401
    ensures var r := Server.Login(body, campus);
      r.status != 200 ==>
        ErrorMessage(HttpError(r.status, r.body)) == Or(Lookup(r.body.fields, "error"), Str(DefaultMessage))
  {
    Server.LoginErrorsCarryError(body, campus);
  }

  /** An upstream 401 reaches the user as the wrong-credentials text. */
  lemma Upstream401(username: string, password: string, campus: Server.Campus)
    requires username != "" && password != ""
    requires var answer := campus(Server.LoginPath, LoginBody(username, password));
      answer.Failed? && answer.error.HttpError? && answer.error.status == 401
    ensures var r := Server.Login(LoginBody(username, password), campus);
      r.status == 401 && ErrorMessage(HttpError(r.status, r.body)) == Str(WrongCredentials)
  {
    ProxyNeverRequiresCredentials(username, password, campus);
  }
}
