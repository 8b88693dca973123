/**
 * The request gate in front of every page: a signed-in user asking for the
 * login page goes home, an anonymous user asking for a protected page goes
 * to the login page, and everything else passes through. API routes and
 * paths that look like files (they contain a dot) are never redirected.
 */
module Middleware {
  import opened Strings

  datatype Response = Redirect(location: string) | Next

  const LoginPath := "/login"
  const HomePath := "/"
  const ApiPrefix := "/api"

  /** A path that names a protected page: not the login page, not an API route, not a public file. */
  predicate Protected(pathname: string)
  {
    pathname != LoginPath && !StartsWith(pathname, ApiPrefix) && '.' !in pathname
  }

  /**
   * The routing decision for a request carrying the auth cookie or not
   * (`hasAuthToken`) and asking for `pathname`.
   */
  function Route(hasAuthToken: bool, pathname: string): (r: Response)
    ensures r == Redirect(HomePath) <==> hasAuthToken && pathname == LoginPath
    ensures r == Redirect(LoginPath) <==> !hasAuthToken && Protected(pathname)
    ensures r.Redirect? ==> r.location == HomePath || r.location == LoginPath
  {
    var isLoginPage := pathname == LoginPath;
    var isApiRoute := StartsWith(pathname, ApiPrefix);
    var isPublicFile := Contains(pathname, ".");
    ContainsChar(pathname, '.');
    if isLoginPage && hasAuthToken then Redirect(HomePath)
    else if !hasAuthToken && !isLoginPage && !isApiRoute && !isPublicFile then Redirect(LoginPath)
    else Next
  }

  /** A signed-in user asking for the login page is sent home. */
  lemma SignedInLoginGoesHome()
    ensures Route(true, LoginPath) == Redirect(HomePath)
  {
  }

  /** An anonymous user asking for a protected page is sent to the login page. */
  lemma AnonymousProtectedGoesToLogin(pathname: string)
    requires Protected(pathname)
    ensures Route(false, pathname) == Redirect(LoginPath)
  {
  }

  /** API routes pass through, signed in or not. */
  lemma ApiRoutesPass(hasAuthToken: bool, pathname: string)
    requires StartsWith(pathname, ApiPrefix)
    ensures Route(hasAuthToken, pathname) == Next
  {
    assert pathname[1] == 'a' != LoginPath[1];
  }

  /** Paths containing a dot pass through, signed in or not. */
  lemma PublicFilesPass(hasAuthToken: bool, pathname: string)
    requires '.' in pathname
    ensures Route(hasAuthToken, pathname) == Next
  {
  }

  /** A signed-in user passes through everywhere except the login page. */
  lemma SignedInPasses(pathname: string)
    requires pathname != LoginPath
    ensures Route(true, pathname) == Next
  {
  }

  /** No redirect loop: the target of a redirect passes through with the same cookie state. */
  lemma NoRedirectLoop(hasAuthToken: bool, pathname: string)
    ensures Route(hasAuthToken, pathname).Redirect? ==>
      Route(hasAuthToken, Route(hasAuthToken, pathname).location) == Next
  {
    if Route(hasAuthToken, pathname).Redirect? {
      if hasAuthToken {
        assert Route(true, HomePath) == Next;
      } else {
        assert Route(false, LoginPath) == Next;
      }
    }
  }
}
