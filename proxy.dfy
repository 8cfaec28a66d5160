/** The route guard run before each page request: protected routes need an
    auth-token cookie, otherwise the visitor is sent to the login page. */
module Proxy {
  import opened Wrappers
  import opened Arrays
  import opened QueryParams

  const ProtectedRoutes: seq<string> := ["/checkout", "/orders", "/profile"]

  /** A plain prefix test against each protected route. */
  function IsProtectedRoute(pathname: string): (r: bool)
    ensures r <==> exists k :: 0 <= k < |ProtectedRoutes| && ProtectedRoutes[k] <= pathname
  {
    Any(ProtectedRoutes, (route: string) => route <= pathname)
  }

  datatype Response = Next | Redirect(location: Url)

  /** The login page, remembering where the visitor was going. */
  function LoginRedirect(pathname: string): (u: Url)
    ensures u.path == "/login" && u.query == [("redirect", pathname)]
  {
    Url("/login", SetParam([], "redirect", pathname))
  }

  /** The guard's decision for a request path and the `auth-token` cookie's
      value (None when the cookie is not sent). */
  function ProxyDecision(pathname: string, authToken: Option<string>): (r: Response)
    ensures r.Redirect? <==> IsProtectedRoute(pathname) && (authToken == None || authToken == Some(""))
    ensures r.Redirect? ==> r.location.path == "/login" && Lookup(r.location.query, "redirect") == Some(pathname)
  {
    if IsProtectedRoute(pathname) && (authToken.None? || authToken.value == "") then
      SetParamValue([], "redirect", pathname);
      Redirect(LoginRedirect(pathname))
    else Next
  }

  /** Any path outside the three protected prefixes passes, whatever the cookie. */
  lemma UnprotectedPasses(pathname: string, authToken: Option<string>)
    requires !("/checkout" <= pathname) && !("/orders" <= pathname) && !("/profile" <= pathname)
    ensures ProxyDecision(pathname, authToken) == Next
  {
  }

  /** A protected path with a non-empty token passes. */
  lemma TokenPasses(pathname: string, token: string)
    requires token != ""
    ensures ProxyDecision(pathname, Some(token)) == Next
  {
  }

  /** Prefix matching is literal: "/ordersX" and "/checkout/success" are protected, "/" and "/order" are not. */
  lemma PrefixExamples()
    ensures IsProtectedRoute("/ordersX") && IsProtectedRoute("/checkout/success")
    ensures !IsProtectedRoute("/") && !IsProtectedRoute("/order")
  {
    assert ProtectedRoutes[1] <= "/ordersX";
    assert ProtectedRoutes[0] <= "/checkout/success";
    assert !(ProtectedRoutes[0] <= "/order") && !(ProtectedRoutes[1] <= "/order") && !(ProtectedRoutes[2] <= "/order");
    assert !(ProtectedRoutes[0] <= "/") && !(ProtectedRoutes[1] <= "/") && !(ProtectedRoutes[2] <= "/");
  }

  /** An anonymous visit to /orders/42 goes to /login?redirect=/orders/42. */
  lemma AnonymousOrderVisit()
    ensures ProxyDecision("/orders/42", None) == Redirect(Url("/login", [("redirect", "/orders/42")]))
  {
    assert ProtectedRoutes[1] <= "/orders/42";
  }
}
