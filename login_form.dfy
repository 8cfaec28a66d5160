/** The sign-in form: where it returns to, the demo user it signs in, and the
    store updates around the login request. */
module LoginForm {
  import opened Wrappers
  import opened Types
  import opened Strings
  import opened QueryParams
  import opened AuthSlice
  import opened SessionCookie
  import opened Proxy

  /** `searchParams.get("redirect") || "/"`. */
  function RedirectUrl(query: seq<Param>): (url: string)
    ensures url != ""
    ensures Lookup(query, "redirect").Some? && Lookup(query, "redirect").value != "" ==>
              url == Lookup(query, "redirect").value
    ensures Lookup(query, "redirect").None? || Lookup(query, "redirect") == Some("") ==> url == "/"
  {
    var r := Lookup(query, "redirect");
    if r.Some? && r.value != "" then r.value else "/"
  }

  /** After the guard has sent a visitor to the login page, signing in takes
      them back to the page they asked for. */
  lemma LoginReturnsToGuardedPage(pathname: string)
    requires ProxyDecision(pathname, None).Redirect?
    ensures IsProtectedRoute(pathname)
    ensures RedirectUrl(ProxyDecision(pathname, None).location.query) == pathname
  {
    var k :| 0 <= k < |ProtectedRoutes| && ProtectedRoutes[k] <= pathname;
    assert |ProtectedRoutes[k]| > 0;
  }

  /** The user record the form signs in: the real profile is never fetched. */
  function DemoUser(username: string): (u: User)
    ensures u.id == 1 && u.username == username && u.email == username + "@example.com"
    ensures |u.name.firstname| == |username|
    ensures username != "" ==> u.name.firstname[0] == ToUpper(username[0]) && u.name.firstname[1..] == username[1..]
    ensures u.name.lastname == "User" && u.address.None? && u.phone.None?
  {
    User(1, username + "@example.com", username, Name(Capitalize(username), "User"), None, None)
  }

  lemma DemoUserExample()
    ensures DemoUser("mor_2314").name.firstname == "Mor_2314"
    ensures DemoUser("mor_2314").email == "mor_2314@example.com"
  {
  }

  const FailureMessage: string := "Invalid username or password. Try: mor_2314 / 83r5^_"

  class LoginFormState {
    var username: string
    var password: string
    var error: Option<string>
    var isSubmitting: bool

    constructor ()
      ensures username == "" && password == "" && error == None && !isSubmitting
    {
      username := "";
      password := "";
      error := None;
      isSubmitting := false;
    }

    /** An edit to either input; it clears the local error. */
    method HandleInputChange(name: string, value: string)
      modifies this
      ensures name == "username" ==> username == value && password == old(password)
      ensures name == "password" ==> password == value && username == old(username)
      ensures name != "username" && name != "password" ==> username == old(username) && password == old(password)
      ensures error == None && isSubmitting == old(isSubmitting)
    {
      if name == "username" {
        username := value;
      } else if name == "password" {
        password := value;
      }
      error := None;
    }

    /** Marks the store loading, sends the credentials, then signs in the demo
        user with the returned token, or records the failure. `token` is the
        login endpoint's answer, None when the request fails; `encodeUser`
        stands for `encodeURIComponent(JSON.stringify(user))`. */
    method HandleSubmit(auth: AuthStore, query: seq<Param>, token: Option<string>,
                        encodeUser: User -> string)
      returns (request: LoginCredentials, cookies: seq<string>, navigate: Option<string>)
      modifies this, auth
      ensures request == LoginCredentials(username, password)
      ensures username == old(username) && password == old(password) && !isSubmitting
      ensures token.Some? ==>
                var user := DemoUser(username);
                error == None && navigate == Some(RedirectUrl(query)) &&
                cookies == [CookieAssignment("auth-token", token.value), CookieAssignment("user-data", encodeUser(user))] &&
                auth.user == Some(user) && auth.token == Some(token.value) && auth.isAuthenticated &&
                !auth.isLoading && auth.error == None
      ensures token.None? ==>
                error == Some(FailureMessage) && navigate.None? && cookies == [] &&
                auth.error == Some("Login failed") && !auth.isLoading &&
                auth.user == old(auth.user) && auth.token == old(auth.token) &&
                auth.isAuthenticated == old(auth.isAuthenticated)
      ensures old(auth.Valid()) ==> auth.Valid()
    {
      isSubmitting := true;
      error := None;
      auth.SetLoading(true);
      request := LoginCredentials(username, password);
      if token.Some? {
        var user := DemoUser(username);
        cookies := [CookieAssignment("auth-token", token.value), CookieAssignment("user-data", encodeUser(user))];
        auth.SetCredentials(Credentials(user, token.value));
        navigate := Some(RedirectUrl(query));
      } else {
        error := Some(FailureMessage);
        auth.SetError("Login failed");
        cookies := [];
        navigate := None;
      }
      isSubmitting := false;
    }
  }
}
