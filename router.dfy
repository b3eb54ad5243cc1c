/** The router (src/router/index.ts): its static route table and the guard
    that runs before every navigation. The guard first waits until the
    session manager has settled its first session lookup, then allows the
    navigation or redirects it. */
module Router {
  import opened Wrappers
  import Auth
  import Records

  /** A route's declared requirements; an absent flag is false. */
  datatype Meta = Meta(requiresAuth: bool, requiresGuest: bool)

  const NoMeta := Meta(false, false)

  datatype RouteRecord =
    | RedirectRoute(path: string, redirect: string)
    | ViewRoute(path: string, name: string, meta: Meta)

  const SignInPath: string := "/auth"
  const LandingPath: string := "/tasks"

  /** The route table, in declaration order. */
  const Routes: seq<RouteRecord> := [
    RedirectRoute("/", LandingPath),
    ViewRoute(SignInPath, "Auth", Meta(false, true)),
    ViewRoute(LandingPath, "Tasks", Meta(true, false)),
    ViewRoute("/profile", "Profile", Meta(true, false)),
    ViewRoute("/projects", "Projects", Meta(true, false))
  ]

  /** The first record of `routes` declared for `path`. */
  function Lookup(routes: seq<RouteRecord>, path: string): (r: Option<RouteRecord>)
    ensures r.None? <==> forall i :: 0 <= i < |routes| ==> routes[i].path != path
    ensures r.Some? ==> r.value in routes && r.value.path == path
  {
    if |routes| == 0 then None
    else if routes[0].path == path then Some(routes[0])
    else Lookup(routes[1..], path)
  }

  /** The path a navigation lands on once a redirect record is applied;
      guards see the landing path, which is never itself a redirect. */
  function Resolve(path: string): (r: string)
    ensures Lookup(Routes, path).Some? && Lookup(Routes, path).value.RedirectRoute? ==>
              r == Lookup(Routes, path).value.redirect
    ensures !(Lookup(Routes, path).Some? && Lookup(Routes, path).value.RedirectRoute?) ==> r == path
    ensures !(Lookup(Routes, r).Some? && Lookup(Routes, r).value.RedirectRoute?)
  {
    LookupRoutes(path);
    LookupRoutes(LandingPath);
    match Lookup(Routes, path)
    case Some(RedirectRoute(_, target)) => target
    case _ => path
  }

  /** `to.meta` of a landing path; a path no view record declares has none.
      Only the sign-in path is guest-only, and no path has both flags. */
  function MetaOf(path: string): (m: Meta)
    ensures Lookup(Routes, path).Some? && Lookup(Routes, path).value.ViewRoute? ==>
              m == Lookup(Routes, path).value.meta
    ensures !(Lookup(Routes, path).Some? && Lookup(Routes, path).value.ViewRoute?) ==> m == NoMeta
    ensures m.requiresGuest <==> path == SignInPath
    ensures !(m.requiresAuth && m.requiresGuest)
  {
    LookupRoutes(path);
    match Lookup(Routes, path)
    case Some(ViewRoute(_, _, meta)) => meta
    case _ => NoMeta
  }

  datatype Decision = Allow | RedirectTo(path: string)

  /** The guard's decision once the session has settled. */
  function Decide(meta: Meta, isAuthenticated: bool): (d: Decision)
    ensures d == RedirectTo(SignInPath) <==> meta.requiresAuth && !isAuthenticated
    ensures d == RedirectTo(LandingPath) <==> !(meta.requiresAuth && !isAuthenticated) && meta.requiresGuest && isAuthenticated
    ensures d == Allow <==> !(meta.requiresAuth && !isAuthenticated) && !(meta.requiresGuest && isAuthenticated)
  {
    if meta.requiresAuth && !isAuthenticated then RedirectTo(SignInPath)
    else if meta.requiresGuest && isAuthenticated then RedirectTo(LandingPath)
    else Allow
  }

  /** The record the table declares for each path, found by walking it. */
  lemma LookupRoutes(path: string)
    ensures Lookup(Routes, path) ==
              if path == "/" then Some(Routes[0])
              else if path == SignInPath then Some(Routes[1])
              else if path == LandingPath then Some(Routes[2])
              else if path == "/profile" then Some(Routes[3])
              else if path == "/projects" then Some(Routes[4])
              else None
  {
  }

  /** The flags the table gives each path. */
  lemma MetaOfRoutes(path: string)
    ensures MetaOf(path) ==
              if path == SignInPath then Meta(false, true)
              else if path == LandingPath || path == "/profile" || path == "/projects" then Meta(true, false)
              else NoMeta
  {
    LookupRoutes(path);
  }

  /** The flags of the route table: `/auth` is the only guest-only path,
      the three views behind it require a user, no path has both flags, and
      `/` lands on `/tasks`. */
  lemma RouteTableMeta()
    ensures forall path :: MetaOf(path).requiresGuest <==> path == SignInPath
    ensures forall path :: !(MetaOf(path).requiresAuth && MetaOf(path).requiresGuest)
    ensures MetaOf(LandingPath).requiresAuth && MetaOf("/profile").requiresAuth && MetaOf("/projects").requiresAuth
    ensures Resolve("/") == LandingPath
  {
    MetaOfRoutes(LandingPath);
    MetaOfRoutes("/profile");
    MetaOfRoutes("/projects");
    LookupRoutes("/");
  }

  /** A redirect never leads to another one: its target lands on itself and
      is allowed for the same session. */
  lemma RedirectsDoNotLoop(path: string, isAuthenticated: bool)
    ensures Decide(MetaOf(path), isAuthenticated).RedirectTo? ==>
              var target := Decide(MetaOf(path), isAuthenticated).path;
              Resolve(target) == target && Decide(MetaOf(target), isAuthenticated) == Allow
  {
  }

  /** What the guard reads from the session manager. */
  datatype AuthSnapshot = AuthSnapshot(loading: bool, isAuthenticated: bool)

  function SnapshotOf(session: Auth.SessionManager): (s: AuthSnapshot)
    reads session
    ensures s.loading == session.loading && (s.isAuthenticated <==> session.user.Some?)
  {
    AuthSnapshot(session.loading, session.IsAuthenticated())
  }

  /** One navigation in the guard: waiting for the session to settle, or
      decided. */
  datatype Navigation = Waiting(to: string) | Decided(to: string, decision: Decision)

  /** Entering the guard with the requested path: the navigation is for the
      path it lands on after redirect records; it is decided at once when
      the session has settled, otherwise it waits. */
  function Enter(to: string, s: AuthSnapshot): (n: Navigation)
    ensures n.to == Resolve(to)
    ensures n.Waiting? <==> s.loading
    ensures n.Decided? ==> n.decision == Decide(MetaOf(Resolve(to)), s.isAuthenticated)
  {
    var landing := Resolve(to);
    if s.loading then Waiting(landing) else Decided(landing, Decide(MetaOf(landing), s.isAuthenticated))
  }

  /** A change notification from the session manager: a waiting navigation
      decides on the first one that finds `loading` false (and stops
      listening); a decided one no longer listens. */
  function Notify(n: Navigation, s: AuthSnapshot): (r: Navigation)
    ensures r.to == n.to
    ensures n.Decided? || s.loading ==> r == n
    ensures n.Waiting? && !s.loading ==> r.Decided? && r.decision == Decide(MetaOf(n.to), s.isAuthenticated)
  {
    match n
    case Waiting(to) =>
      if s.loading then n else Decided(to, Decide(MetaOf(to), s.isAuthenticated))
    case Decided(_, _) => n
  }

  /** The navigation after a run of notifications: still for the same path,
      unchanged once decided, and decided only by the status seen at
      some notification that found the session settled. */
  function Run(n: Navigation, trace: seq<AuthSnapshot>): (r: Navigation)
    ensures r.to == n.to
    ensures n.Decided? ==> r == n
    ensures n.Waiting? && r.Decided? ==>
              exists i :: 0 <= i < |trace| && !trace[i].loading
                          && r.decision == Decide(MetaOf(n.to), trace[i].isAuthenticated)
    decreases |trace|
  {
    if |trace| == 0 then n
    else
      var r := Run(Notify(n, trace[0]), trace[1..]);
      assert n.Waiting? && r.Decided? && Notify(n, trace[0]).Waiting? ==>
               exists i :: 1 <= i < |trace| && !trace[i].loading
                           && r.decision == Decide(MetaOf(n.to), trace[i].isAuthenticated) by {
        if n.Waiting? && r.Decided? && Notify(n, trace[0]).Waiting? {
          var j :| 0 <= j < |trace[1..]| && !trace[1..][j].loading
                   && r.decision == Decide(MetaOf(n.to), trace[1..][j].isAuthenticated);
          assert trace[1..][j] == trace[j + 1];
        }
      }
      assert n.Waiting? && Notify(n, trace[0]).Decided? ==> !trace[0].loading && r == Notify(n, trace[0]);
      r
  }

  /** The app's entry path `/` lands on `/tasks`: a signed-out user is sent
      to sign in, a signed-in one is let through. */
  lemma EntryPathDecision()
    ensures Decide(MetaOf(Resolve("/")), false) == RedirectTo(SignInPath)
    ensures Decide(MetaOf(Resolve("/")), true) == Allow
  {
    LookupRoutes("/");
    LookupRoutes(LandingPath);
  }

  /** The guard never decides while the session is loading. */
  lemma NoDecisionWhileLoading(to: string, trace: seq<AuthSnapshot>)
    requires forall i :: 0 <= i < |trace| ==> trace[i].loading
    ensures Run(Waiting(to), trace) == Waiting(to)
  {
    // A decision needs a notification that found the session settled (Run's contract).
  }

  /** A waiting navigation is decided by the first notification that finds
      the session settled, with the authentication status of that moment. */
  lemma {:induction false} DecidedAtFirstSettled(to: string, trace: seq<AuthSnapshot>, k: nat)
    requires k < |trace| && !trace[k].loading
    requires forall i :: 0 <= i < k ==> trace[i].loading
    ensures Run(Waiting(to), trace) == Decided(to, Decide(MetaOf(to), trace[k].isAuthenticated))
    decreases k
  {
    if k > 0 {
      DecidedAtFirstSettled(to, trace[1..], k - 1);
    }
  }

  /** The guard's state for one navigation (`beforeEach`), listening to a
      session manager while it waits. */
  class PendingNavigation {
    var state: Navigation

    constructor (to: string, session: Auth.SessionManager)
      ensures state == Enter(to, SnapshotOf(session))
    {
      state := Enter(to, SnapshotOf(session));
    }

    /** Whether the guard still listens to the session manager. */
    predicate Watching()
      reads this
      ensures Watching() <==> state.Waiting?
    {
      state.Waiting?
    }

    /** The session manager's state changed. */
    method SessionChanged(session: Auth.SessionManager)
      modifies this
      ensures state == Notify(old(state), SnapshotOf(session))
      ensures old(state).Decided? ==> state == old(state)
      ensures old(state).Waiting? && session.loading ==> state == old(state)
    {
      state := Notify(state, SnapshotOf(session));
    }
  }

  /** The first navigation of the process, issued before `initialize`
      settles: it waits, then is decided for the path it lands on by the
      user the session lookup found (none when that lookup threw). */
  method FirstNavigation(to: string, fetched: Result<Option<Auth.Session>, Records.Error>)
    returns (d: Decision)
    ensures d == Decide(MetaOf(Resolve(to)), fetched.Ok? && fetched.value.Some?)
  {
    var session := new Auth.SessionManager();
    var navigation := new PendingNavigation(to, session);
    assert navigation.Watching();
    session.Initialize(fetched);
    navigation.SessionChanged(session);
    d := navigation.state.decision;
  }
}
