/** The Express proxy in `backend/server.js`: five handlers that check their
    input, make one or two calls to the campus API and turn the outcome
    into a status code and a JSON body. The campus API is a parameter: a
    function from the path called and the payload sent (the login data, or
    the token put into the `Cookie` and `x-csrf-token` headers) to what
    that call ends in. */
module Server {
  import opened JsValues
  import opened Http

  /** What `res.status(s).json(body)` sends. */
  datatype Reply = Reply(status: int, body: Json)

  /** The campus API: `(path, payload)` to the outcome of that request. */
  type Campus = (string, Json) -> Response

  const LoginPath := "/api/auth/login/"
  const UserPath := "/api/auth/user/"
  const TimetablePath := "/api/auth/timetable/2"
  const PlannerPath := "/api/auth/planner"

  const CredentialsRequired := "Username and password are required"
  const NoCookies := "No cookies found in login response"
  const TokenRequired := "Authentication token is required"
  const MissingToken := "Missing token. Please provide token as query parameter or in x-csrf-token header"
  const NoResponseReceived := "No response received from API"

  /** An object literal as `JSON.stringify` writes it: a field whose value
      is `undefined` is dropped, the others keep their order. */
  function Object(fields: seq<(string, Value)>): Json
  {
    Obj(Present(fields))
  }

  function Present(fields: seq<(string, Value)>): (r: seq<(string, Json)>)
    ensures |r| <= |fields|
    ensures forall p :: p in r ==> (p.0, Some(p.1)) in fields
    ensures forall p :: p in fields && p.1.Some? ==> (p.0, p.1.value) in r
  {
    if fields == [] then []
    else if fields[0].1.None? then Present(fields[1..])
    else [(fields[0].0, fields[0].1.value)] + Present(fields[1..])
  }

  /** `{ error: message }` */
  function ErrorBody(message: string): Json
  {
    Obj([("error", Str(message))])
  }

  /** `req.query.token || req.headers['x-csrf-token']` */
  function TokenOf(query: Value, header: Value): (t: Value)
    ensures Truthy(t) <==> Truthy(query) || Truthy(header)
    ensures Truthy(query) ==> t == query
  {
    if Truthy(query) then query else header
  }

  /** The catch block of `/api/login`, `/api/user` and `/api/auth`; `caption`
      is the handler's own `error` text for an upstream HTTP error. */
  function AuthFailure(e: Error, caption: string): Reply
  {
    match e
    case HttpError(status, data) =>
      Reply(status, Obj([("error", Str(caption)), ("details", data), ("status", Num(status))]))
    case NoResponse(_) => Reply(500, ErrorBody(NoResponseReceived))
    case Thrown(message) => Reply(500, ErrorBody(message))
  }

  /** The catch block of `/api/timetable` and `/api/planner`. */
  function CampusFailure(e: Error): Reply
  {
    match e
    case HttpError(status, data) =>
      Reply(status, Obj([("message", Str("Error from campus API")), ("error", data)]))
    case NoResponse(_) =>
      Reply(503, Obj([("message", Str("Unable to reach campus API")), ("error", Str("Service unavailable"))]))
    case Thrown(message) =>
      Reply(500, Obj([("message", Str("Server error")), ("error", Str(message))]))
  }

  /** The credentials `{ username, password }` of a request body, when
      both are truthy. `express.json()` leaves an object or an array in
      `req.body`. */
  function Credentials(body: Json): (c: Option<Json>)
    requires body.Obj? || body.Arr?
    ensures c.Some? <==> Truthy(Get(body, "username")) && Truthy(Get(body, "password"))
  {
    var username := Get(body, "username");
    var password := Get(body, "password");
    if !Truthy(username) || !Truthy(password) then None
    else Some(Obj([("username", username.value), ("password", password.value)]))
  }

  /** `loginResponse.data.Cookies`, or the error reading it throws. */
  function CookiesOf(data: Json): Result
  {
    if data.Null? then Threw(NullRead("Cookies")) else Read(Get(data, "Cookies"))
  }

  datatype Result = Read(v: Value) | Threw(message: string)

  /** `POST /api/login` */
  function Login(body: Json, campus: Campus): Reply
    requires body.Obj? || body.Arr?
  {
    match Credentials(body)
    case None => Reply(400, ErrorBody(CredentialsRequired))
    case Some(loginData) =>
      match campus(LoginPath, loginData)
      case Failed(e) => AuthFailure(e, "Login operation failed")
      case Ok(data) => LoginAnswer(data)
  }

  /** What `/api/login` makes of the campus API's answer `data`. */
  function LoginAnswer(data: Json): Reply
  {
    match CookiesOf(data)
    case Threw(m) => AuthFailure(Thrown(m), "Login operation failed")
    case Read(cookies) =>
      if !Truthy(cookies) then Reply(400, ErrorBody(NoCookies))
      else Reply(200, Object([("message", Some(Str("Authentication successful"))),
                              ("loginResponse", Get(data, "Response")),
                              ("cookies", cookies)]))
  }

  /** `GET /api/user` */
  function User(query: Value, header: Value, campus: Campus): Reply
  {
    var token := TokenOf(query, header);
    if !Truthy(token) then Reply(400, ErrorBody(TokenRequired))
    else
      match campus(UserPath, token.value)
      case Failed(e) => AuthFailure(e, "Failed to retrieve user information")
      case Ok(data) =>
        Reply(200, Obj([("message", Str("User info retrieved successfully")), ("userInfo", data)]))
  }

  /** `POST /api/auth`: the login and the user-info call in one. */
  function Auth(body: Json, campus: Campus): Reply
    requires body.Obj? || body.Arr?
  {
    match Credentials(body)
    case None => Reply(400, ErrorBody(CredentialsRequired))
    case Some(loginData) =>
      match campus(LoginPath, loginData)
      case Failed(e) => AuthFailure(e, "Operation failed")
      case Ok(data) =>
        match CookiesOf(data)
        case Threw(m) => AuthFailure(Thrown(m), "Operation failed")
        case Read(cookies) =>
          if !Truthy(cookies) then Reply(400, ErrorBody(NoCookies))
          else
            match campus(UserPath, cookies.value)
            case Failed(e) => AuthFailure(e, "Operation failed")
            case Ok(userData) =>
              Reply(200, Object([("message", Some(Str("Authentication and user info retrieval successful"))),
                                 ("loginResponse", Get(data, "Response")),
                                 ("cookies", cookies),
                                 ("userInfo", Some(userData))]))
  }

  /** The body shared by `GET /api/timetable` and `GET /api/planner`,
      which differ only in the campus path they forward to. */
  function Forward(path: string, query: Value, header: Value, campus: Campus): Reply
  {
    var cookie := TokenOf(query, header);
    if !Truthy(cookie) then Reply(400, ErrorBody(MissingToken))
    else
      match campus(path, cookie.value)
      case Failed(e) => CampusFailure(e)
      case Ok(data) => Reply(200, data)
  }

  /** `GET /api/timetable` */
  function Timetable(query: Value, header: Value, campus: Campus): Reply
  {
    Forward(TimetablePath, query, header, campus)
  }

  /** `GET /api/planner` */
  function Planner(query: Value, header: Value, campus: Campus): Reply
  {
    Forward(PlannerPath, query, header, campus)
  }

  // ---------------------------------------------------------------------
  // Properties

  /** Two campus APIs that answer the same to a request give the same
      handler result: the handler sent that request and no other. */
  predicate AgreeOn(c1: Campus, c2: Campus, path: string, payload: Json)
  {
    c1(path, payload) == c2(path, payload)
  }

  /** Without a truthy username and password, `/api/login` and `/api/auth`
      answer 400 and call nothing upstream: the reply is the same whatever
      the campus API would have said. */
  lemma MissingCredentials(body: Json, c1: Campus, c2: Campus)
    requires body.Obj? || body.Arr?
    requires !Truthy(Get(body, "username")) || !Truthy(Get(body, "password"))
    ensures Login(body, c1) == Login(body, c2) == Reply(400, ErrorBody(CredentialsRequired))
    ensures Auth(body, c1) == Auth(body, c2) == Reply(400, ErrorBody(CredentialsRequired))
  {
  }

  /** With credentials, `/api/login` posts exactly `{ username, password }`
      to the campus login path and nothing else. */
  lemma LoginSendsCredentials(body: Json, c1: Campus, c2: Campus)
    requires body.Obj? || body.Arr?
    requires Truthy(Get(body, "username")) && Truthy(Get(body, "password"))
    requires AgreeOn(c1, c2, LoginPath,
      Obj([("username", Get(body, "username").value), ("password", Get(body, "password").value)]))
    ensures Login(body, c1) == Login(body, c2)
  {
  }

  /** An upstream login answer without a truthy `Cookies` is refused with
      400, by both `/api/login` and `/api/auth`. */
  lemma NoCookiesRefused(body: Json, campus: Campus)
    requires body.Obj? || body.Arr?
    requires Credentials(body).Some?
    requires campus(LoginPath, Credentials(body).value).Ok?
    requires var data := campus(LoginPath, Credentials(body).value).body;
      !data.Null? && !Truthy(Get(data, "Cookies"))
    ensures Login(body, campus) == Reply(400, ErrorBody(NoCookies))
    ensures Auth(body, campus) == Reply(400, ErrorBody(NoCookies))
  {
  }

  /** A successful login hands the upstream `Cookies` back as `cookies`,
      with the upstream `Response` as `loginResponse` when there is one. */
  lemma LoginSucceeds(data: Json)
    requires !data.Null? && Truthy(Get(data, "Cookies"))
    ensures var r := LoginAnswer(data);
      r.status == 200 && r.body.Obj?
      && Lookup(r.body.fields, "message") == Some(Str("Authentication successful"))
      && Lookup(r.body.fields, "loginResponse") == Get(data, "Response")
      && Lookup(r.body.fields, "cookies") == Get(data, "Cookies")
  {
    var cookies := Get(data, "Cookies").value;
    var fields := [("message", Some(Str("Authentication successful"))),
                   ("loginResponse", Get(data, "Response")),
                   ("cookies", Some(cookies))];
    var rest := Present(fields[1..]);
    assert Present(fields[2..]) == [("cookies", cookies)];
    var last := [("cookies", cookies)];
    assert Lookup(last, "cookies") == Some(cookies);
    assert Lookup(last[1..], "loginResponse") == None;
    if Get(data, "Response").None? {
      assert rest == last;
    } else {
      assert rest == [("loginResponse", Get(data, "Response").value)] + last;
      assert rest[1..] == last;
    }
    assert Lookup(rest, "cookies") == Some(cookies);
    assert LoginAnswer(data).body.fields == [("message", Str("Authentication successful"))] + rest;
  }

  /** The token is the query's `token` when that is truthy, else the
      `x-csrf-token` header; with neither, every token-taking handler
      answers 400 without calling upstream. */
  lemma TokenChoice(path: string, query: Value, header: Value, other: Value, campus: Campus)
    ensures Truthy(query) ==> Forward(path, query, header, campus) == Forward(path, query, other, campus)
    ensures Truthy(query) ==> User(query, header, campus) == User(query, other, campus)
    ensures !Truthy(query) ==> Forward(path, query, header, campus) == Forward(path, None, header, campus)
    ensures !Truthy(query) ==> User(query, header, campus) == User(None, header, campus)
    ensures !Truthy(query) && !Truthy(header) ==>
      Forward(path, query, header, campus) == Reply(400, ErrorBody(MissingToken))
      && User(query, header, campus) == Reply(400, ErrorBody(TokenRequired))
  {
  }

  /** The token is what is forwarded: two campus APIs that agree on the
      token's request give the same reply. */
  lemma ForwardSendsToken(path: string, query: Value, header: Value, c1: Campus, c2: Campus)
    requires Truthy(TokenOf(query, header))
    requires AgreeOn(c1, c2, path, TokenOf(query, header).value)
    ensures Forward(path, query, header, c1) == Forward(path, query, header, c2)
  {
  }

  /** An HTTP error from the campus API keeps its status code through
      every handler; the failing call's body is kept in the reply. */
  lemma StatusPassedThrough(e: Error)
    requires e.HttpError?
    ensures AuthFailure(e, "Login operation failed").status == e.status
    ensures AuthFailure(e, "Failed to retrieve user information").status == e.status
    ensures AuthFailure(e, "Operation failed").status == e.status
    ensures CampusFailure(e).status == e.status
    ensures Lookup(CampusFailure(e).body.fields, "error") == Some(e.body)
    ensures Lookup(AuthFailure(e, "Operation failed").body.fields, "details") == Some(e.body)
  {
  }

  /** A campus API that does not answer gives 500 on the authentication
      handlers but 503 on the forwarding ones; any other error is 500. */
  lemma FailureStatuses(e: Error, caption: string)
    ensures e.NoResponse? ==> AuthFailure(e, caption).status == 500 && CampusFailure(e).status == 503
    ensures e.Thrown? ==> AuthFailure(e, caption).status == 500 && CampusFailure(e).status == 500
    ensures e.Thrown? ==> AuthFailure(e, caption).body == ErrorBody(e.message)
  {
  }

  /** The timetable and planner handlers relay a campus failure through
      `CampusFailure`, and a success as 200 with the body unchanged. */
  lemma ForwardOutcome(path: string, query: Value, header: Value, campus: Campus)
    requires Truthy(TokenOf(query, header))
    ensures var answer := campus(path, TokenOf(query, header).value);
      Forward(path, query, header, campus)
        == if answer.Ok? then Reply(200, answer.body) else CampusFailure(answer.error)
  {
  }

  /** `/api/user` wraps a successful answer as `userInfo`. */
  lemma UserWrapsInfo(query: Value, header: Value, campus: Campus)
    requires Truthy(TokenOf(query, header))
    requires campus(UserPath, TokenOf(query, header).value).Ok?
    ensures var r := User(query, header, campus);
      r.status == 200 && r.body.Obj?
      && Lookup(r.body.fields, "userInfo") == Some(campus(UserPath, TokenOf(query, header).value).body)
  {
  }

  /** The authentication handlers' catch block always answers with an
      `error` field. */
  lemma FailureCarriesError(e: Error, caption: string)
    ensures AuthFailure(e, caption).body.Obj?
    ensures Lookup(AuthFailure(e, caption).body.fields, "error").Some?
  {
  }

  /** Every reply `/api/login` sends with a status other than 200 is an
      object with an `error` field. */
  lemma LoginErrorsCarryError(body: Json, campus: Campus)
    requires body.Obj? || body.Arr?
    ensures var r := Login(body, campus); r.status != 200 ==> r.body.Obj? && Lookup(r.body.fields, "error").Some?
  {
    if Credentials(body).Some? {
      var answer := campus(LoginPath, Credentials(body).value);
      if answer.Failed? {
        FailureCarriesError(answer.error, "Login operation failed");
      } else if answer.body.Null? {
        FailureCarriesError(Thrown(NullRead("Cookies")), "Login operation failed");
      }
    }
  }

  /** The same for `/api/auth`. */
  lemma AuthErrorsCarryError(body: Json, campus: Campus)
    requires body.Obj? || body.Arr?
    ensures var r := Auth(body, campus); r.status != 200 ==> r.body.Obj? && Lookup(r.body.fields, "error").Some?
  {
    if Credentials(body).Some? {
      var answer := campus(LoginPath, Credentials(body).value);
      if answer.Failed? {
        FailureCarriesError(answer.error, "Operation failed");
      } else if answer.body.Null? {
        FailureCarriesError(Thrown(NullRead("Cookies")), "Operation failed");
      } else if Truthy(Get(answer.body, "Cookies")) {
        var info := campus(UserPath, Get(answer.body, "Cookies").value);
        if info.Failed? {
          FailureCarriesError(info.error, "Operation failed");
        }
      }
    }
  }

  /** The same for `/api/user`. */
  lemma UserErrorsCarryError(query: Value, header: Value, campus: Campus)
    ensures var r := User(query, header, campus); r.status != 200 ==> r.body.Obj? && Lookup(r.body.fields, "error").Some?
  {
    var token := TokenOf(query, header);
    if Truthy(token) && campus(UserPath, token.value).Failed? {
      FailureCarriesError(campus(UserPath, token.value).error, "Failed to retrieve user information");
    }
  }
}
