/** `ProtectedRoute`: the guard in front of every page but the login page.
    It reads three cookies and either renders the page or sends the user to
    `/login`. */
module ProtectedRoute {
  import opened JsValues
  import opened WebStorage

  datatype Route = Outlet | ToLogin

  /** `!token || (!username && !displayName) ? <Navigate to="/login"/> :
      <Outlet/>` */
  function Guard(cookies: map<string, string>): Route
  {
    var token := Cookie(cookies, "token");
    var username := Cookie(cookies, "username");
    var displayName := Cookie(cookies, "displayName");
    if !Truthy(token) || (!Truthy(username) && !Truthy(displayName)) then ToLogin else Outlet
  }

  /** The page is shown exactly when there is a non-empty token and a
      non-empty username or display name; the password cookie plays no
      part. */
  lemma GuardAdmits(cookies: map<string, string>)
    ensures Guard(cookies) == Outlet <==>
      (("token" in cookies && cookies["token"] != "")
        && (("username" in cookies && cookies["username"] != "")
          || ("displayName" in cookies && cookies["displayName"] != "")))
    ensures Guard(cookies) == Guard(cookies - {"password"})
  {
    assert Cookie(cookies - {"password"}, "token") == Cookie(cookies, "token");
    assert Cookie(cookies - {"password"}, "username") == Cookie(cookies, "username");
    assert Cookie(cookies - {"password"}, "displayName") == Cookie(cookies, "displayName");
  }

  /** A token with a username is admitted. */
  lemma TokenAndUsername(cookies: map<string, string>, token: string, username: string)
    requires token != "" && username != ""
    ensures Guard(cookies["token" := token]["username" := username]) == Outlet
  {
  }

  /** A token with a display name is admitted even with no username. */
  lemma TokenAndDisplayName(cookies: map<string, string>, token: string, name: string)
    requires token != "" && name != ""
    ensures Guard((cookies - {"username"})["token" := token]["displayName" := name]) == Outlet
  {
  }

  /** With no token, or an empty one, nothing is admitted. */
  lemma NoToken(cookies: map<string, string>)
    requires "token" !in cookies || cookies["token"] == ""
    ensures Guard(cookies) == ToLogin
  {
  }
}
