/** The navigation gate: which routes need a signed-in user, where the others are
    sent, and the one-time initialisation of the authentication state. */
module AuthGuard {
  import opened Wrappers
  import Auth

  /** What the gate tells the router: go on to the route, or go elsewhere. */
  datatype Decision = Proceed | Redirect(path: string)

  /** The routes reachable without signing in. */
  const PublicRoutes: seq<string> := ["/login", "/auth/login", "/error/404", "/error/500"]

  predicate IsPublic(path: string) {
    path in PublicRoutes
  }

  predicate IsLoginPath(path: string) {
    path == "/login" || path == "/auth/login"
  }

  /** The decision for a navigation to `path`: a signed-in user asking for a login
      page goes home, someone not signed in asking for any other page goes to the
      login page, everything else proceeds. */
  function Decide(path: string, authenticated: bool): (d: Decision)
    ensures d == Redirect("/") <==> authenticated && IsLoginPath(path)
    ensures d == Redirect("/auth/login") <==> !authenticated && !IsPublic(path)
    ensures d == Proceed <==> (IsPublic(path) && !(authenticated && IsLoginPath(path))) || (authenticated && !IsPublic(path))
  {
    if IsPublic(path) then
      if authenticated && IsLoginPath(path) then Redirect("/") else Proceed
    else if !authenticated then Redirect("/auth/login")
    else Proceed
  }

  /** Following a redirect never leads to another redirect. */
  lemma NoRedirectLoop(path: string, authenticated: bool)
    ensures Decide(path, authenticated).Redirect? ==> Decide(Decide(path, authenticated).path, authenticated) == Proceed
  {
    if authenticated && IsLoginPath(path) {
      assert !IsPublic("/") by {
        assert "/" != "/login" && "/" != "/auth/login" && "/" != "/error/404" && "/" != "/error/500";
      }
    } else if !authenticated && !IsPublic(path) {
      assert IsPublic("/auth/login") by {
        assert PublicRoutes[1] == "/auth/login";
      }
    }
  }

  /** The gate's module-level state: whether the authentication state was loaded,
      and, for the proof, how many times that happened. */
  class Guard {
    var isInitialized: bool
    ghost var initCalls: nat

    ghost predicate Valid()
      reads this
    {
      initCalls == if isInitialized then 1 else 0
    }

    constructor ()
      ensures Valid() && !isInitialized
    {
      isInitialized := false;
      initCalls := 0;
    }

    /** `authGuard`: loads the authentication state on the first navigation only,
        then decides this navigation. The stored user reaches `initAuth` as `saved`. */
    method Navigate(auth: Auth.AuthStore, path: string, saved: Option<Option<Auth.User>>) returns (d: Decision)
      requires Valid()
      modifies this, auth`user
      ensures Valid() && isInitialized && initCalls <= 1
      ensures old(isInitialized) ==> auth.user == old(auth.user) && initCalls == old(initCalls)
      ensures !old(isInitialized) ==> auth.user == (if saved.Some? then saved.value else old(auth.user))
      ensures d == Decide(path, auth.user.Some?)
    {
      if !isInitialized {
        auth.InitAuth(saved);
        isInitialized := true;
        initCalls := initCalls + 1;
      }
      d := Decide(path, auth.IsAuthenticated());
    }
  }
}
