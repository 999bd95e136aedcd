/** The admin app's middleware: the redirect decision from the `token` cookie and
    the requested path. */
module Middleware {
  import opened Wrappers

  datatype Decision = RedirectTo(path: string) | PassThrough

  /** The pages a signed-out user may see. */
  predicate IsAuthPage(pathname: string) {
    pathname in ["/login", "/register"]
  }

  /** The cookie holds a non-empty token. */
  predicate HasToken(token: Option<string>) {
    token.Some? && token.value != ""
  }

  /** No token and a protected page: to '/login'. A token and an auth page: to
      '/dashboard'. Everything else passes. */
  function Decide(token: Option<string>, pathname: string): (r: Decision)
    ensures r == RedirectTo("/login") <==> !HasToken(token) && !IsAuthPage(pathname)
    ensures r == RedirectTo("/dashboard") <==> HasToken(token) && IsAuthPage(pathname)
    ensures r == PassThrough <==> (HasToken(token) <==> !IsAuthPage(pathname))
  {
    if !HasToken(token) && !IsAuthPage(pathname) then RedirectTo("/login")
    else if HasToken(token) && IsAuthPage(pathname) then RedirectTo("/dashboard")
    else PassThrough
  }

  /** Following a redirect with the same cookie is never redirected again. */
  lemma NoRedirectLoop(token: Option<string>, pathname: string)
    ensures Decide(token, pathname).RedirectTo? ==>
              Decide(token, Decide(token, pathname).path) == PassThrough
  {
    if Decide(token, pathname) == RedirectTo("/login") {
      assert IsAuthPage("/login");
    } else if Decide(token, pathname) == RedirectTo("/dashboard") {
      assert !IsAuthPage("/dashboard") by {
        assert "/dashboard" != "/login" && "/dashboard" != "/register";
      }
    }
  }
}
