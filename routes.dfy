/** The client-side routing decisions: the membership gate
    (src/router/ProtectedRoute.tsx), the session-only gate
    (src/components/ProtectedRoute.tsx), the root redirect
    (src/components/RootRedirect.tsx) and the path table
    (src/router/AppRouter.tsx). Each is a function of the flags it reads.
    Paths are matched the way the router matches them by default: without
    regard to ASCII case, and ignoring trailing slashes. */
module Routes {
  import opened Common
  import opened Text

  const LoginPath: string := "/login"
  const PricingPath: string := "/pricing"
  const RegisterPath: string := "/register"
  const LandingPath: string := "/landing"
  const AppPath: string := "/app"

  /** The pages the table can render. */
  datatype Page = LandingPage | PricingPage | LoginPage | RegisterPage | Dashboard

  /** What a gate or a route renders. */
  datatype View =
    | Spinner                               // the spinning circle
    | LoadingText(text: string)             // a plain "Cargando..."
    | Navigate(to: string, replace: bool)   // `<Navigate to=... replace />`
    | Show(page: Page)                      // the page itself (outlet or children)

  const LoadingMessage: string := "Cargando..."

  /** The membership gate around the dashboard: a spinner while either
      context loads, then `/login`, then `/pricing`, then the page. */
  function MemberGate(authLoading: bool, membershipLoading: bool, isAuthenticated: bool, isMember: bool, inner: Page): View {
    if authLoading || membershipLoading then Spinner
    else if !isAuthenticated then Navigate(LoginPath, true)
    else if !isMember then Navigate(PricingPath, true)
    else Show(inner)
  }

  /** Each outcome of the membership gate, exactly when it happens. */
  lemma MemberGateSpec(authLoading: bool, membershipLoading: bool, isAuthenticated: bool, isMember: bool, inner: Page)
    ensures var v := MemberGate(authLoading, membershipLoading, isAuthenticated, isMember, inner);
      && (v == Spinner <==> authLoading || membershipLoading)
      && (v == Navigate(LoginPath, true) <==> !authLoading && !membershipLoading && !isAuthenticated)
      && (v == Navigate(PricingPath, true) <==> !authLoading && !membershipLoading && isAuthenticated && !isMember)
      && (v == Show(inner) <==> !authLoading && !membershipLoading && isAuthenticated && isMember)
      && (!isAuthenticated ==> v != Navigate(PricingPath, true))
  {
  }

  /** The older gate: "Cargando..." while loading, `/login` for visitors,
      the children otherwise. It has no membership input at all. */
  function SessionGate(loading: bool, isAuthenticated: bool, inner: Page): View {
    if loading then LoadingText(LoadingMessage)
    else if !isAuthenticated then Navigate(LoginPath, true)
    else Show(inner)
  }

  lemma SessionGateSpec(loading: bool, isAuthenticated: bool, inner: Page)
    ensures var v := SessionGate(loading, isAuthenticated, inner);
      && (v == LoadingText(LoadingMessage) <==> loading)
      && (v == Navigate(LoginPath, true) <==> !loading && !isAuthenticated)
      && (v == Show(inner) <==> !loading && isAuthenticated)
  {
  }

  /** The two gates agree on visitors, but a signed-in non-member passes
      the older gate and is sent to pricing by the newer one; whatever the
      newer one lets through, the older one does too. */
  lemma GatesCompared(loading: bool, isAuthenticated: bool, isMember: bool, inner: Page)
    ensures MemberGate(loading, false, isAuthenticated, isMember, inner) == Show(inner) ==>
      SessionGate(loading, isAuthenticated, inner) == Show(inner)
    ensures !loading && !isAuthenticated ==>
      MemberGate(loading, false, isAuthenticated, isMember, inner) == SessionGate(loading, isAuthenticated, inner)
    ensures !loading && isAuthenticated && !isMember ==>
      SessionGate(loading, isAuthenticated, inner) == Show(inner)
      && MemberGate(loading, false, isAuthenticated, isMember, inner) == Navigate(PricingPath, true)
  {
  }

  /** The root redirect's effect: no navigation while loading, then `/app`
      or `/landing` by session alone. */
  function RootTarget(loading: bool, isAuthenticated: bool): Option<string> {
    if loading then None
    else if isAuthenticated then Some(AppPath)
    else Some(LandingPath)
  }

  /** What the root redirect renders, whatever its inputs. */
  function RootView(loading: bool, isAuthenticated: bool): View {
    Spinner
  }

  lemma RootRedirectSpec(loading: bool, isAuthenticated: bool)
    ensures RootTarget(loading, isAuthenticated).None? <==> loading
    ensures RootTarget(loading, isAuthenticated) == Some(AppPath) <==> !loading && isAuthenticated
    ensures RootTarget(loading, isAuthenticated) == Some(LandingPath) <==> !loading && !isAuthenticated
    ensures RootView(loading, isAuthenticated) == Spinner
  {
  }

  /** An entry of the route table: a redirect, an open page, or a page
      behind the membership gate. */
  datatype Route = Redirect(to: string) | Open(page: Page) | Gated(page: Page)

  /** `s` without its trailing slashes. */
  function TrimSlashes(s: string): (r: string)
    ensures r <= s
    ensures forall i :: |r| <= i < |s| ==> s[i] == '/'
    ensures |r| == 0 || r[|r| - 1] != '/'
  {
    if |s| > 0 && s[|s| - 1] == '/' then TrimSlashes(s[..|s| - 1]) else s
  }

  /** What the router compares with a route's path: the path lower-cased,
      with trailing slashes dropped (so `/` becomes the empty string). */
  function Normalise(path: string): string {
    TrimSlashes(ToLower(path))
  }

  /** The route table, with `*` as the fall-through. */
  function RouteFor(path: string): (r: Route) {
    var p := Normalise(path);
    if p == "" then Redirect(LandingPath)
    else if p == LandingPath then Open(LandingPage)
    else if p == PricingPath then Open(PricingPage)
    else if p == LoginPath then Open(LoginPage)
    else if p == RegisterPath then Open(RegisterPage)
    else if p == AppPath then Gated(Dashboard)
    else Redirect(LandingPath)
  }

  /** Trimming stops at the last character that is not a slash. */
  lemma {:induction false} TrimSlashesAt(s: string, n: nat)
    requires n <= |s| && (n == 0 || s[n - 1] != '/')
    requires forall i :: n <= i < |s| ==> s[i] == '/'
    ensures TrimSlashes(s) == s[..n]
    decreases |s| - n
  {
    if |s| > n {
      TrimSlashesAt(s[..|s| - 1], n);
      assert s[..|s| - 1][..n] == s[..n];
    } else {
      assert s[..n] == s;
    }
  }

  /** A path matches a route's path (lower case, no trailing slash) exactly
      when it is that path in any ASCII case followed by any number of
      slashes. */
  lemma {:induction false} NormaliseMatches(path: string, route: string)
    requires |route| > 0 && route[|route| - 1] != '/' && ToLower(route) == route
    ensures Normalise(path) == route <==>
      |route| <= |path| && ToLower(path[..|route|]) == route
      && forall i :: |route| <= i < |path| ==> path[i] == '/'
  {
    var t := ToLower(path);
    forall i | 0 <= i < |path| ensures t[i] == '/' <==> path[i] == '/' {
    }
    if Normalise(path) == route {
      assert ToLower(path[..|route|]) == t[..|route|];
    }
    if |route| <= |path| && ToLower(path[..|route|]) == route
       && forall i :: |route| <= i < |path| ==> path[i] == '/' {
      assert t[..|route|] == ToLower(path[..|route|]);
      assert t[|route| - 1] == route[|route| - 1];
      TrimSlashesAt(t, |route|);
    }
  }

  /** The router's own spellings: a trailing slash or capitals still reach
      the gated dashboard or the page. */
  lemma RouteSpellings()
    ensures RouteFor("/app").Gated? && RouteFor("/app/").Gated? && RouteFor("/APP").Gated?
    ensures RouteFor("/Pricing") == Open(PricingPage)
    ensures RouteFor("/") == Redirect(LandingPath) && RouteFor("/apps") == Redirect(LandingPath)
  {
    NormaliseMatches("/app/", AppPath);
    NormaliseMatches("/APP", AppPath);
    assert ToLower("/APP"[..4]) == AppPath;
    NormaliseMatches("/Pricing", PricingPath);
    assert ToLower("/Pricing"[..8]) == PricingPath;
    NormaliseMatches("/apps", AppPath);
    NormaliseMatches("/apps", LandingPath);
    NormaliseMatches("/apps", PricingPath);
    NormaliseMatches("/apps", LoginPath);
    NormaliseMatches("/apps", RegisterPath);
  }

  /** What a path renders for given context flags. */
  function Render(path: string, authLoading: bool, membershipLoading: bool, isAuthenticated: bool, isMember: bool): View {
    match RouteFor(path)
    case Redirect(to) => Navigate(to, true)
    case Open(page) => Show(page)
    case Gated(page) => MemberGate(authLoading, membershipLoading, isAuthenticated, isMember, page)
  }

  /** The four public pages render with no gate; only `/app` is gated;
      everything else, `/` included, goes to the landing page. */
  lemma RouteTableSpec(path: string)
    ensures RouteFor(path).Gated? <==> Normalise(path) == AppPath
    ensures RouteFor(path).Open? <==> Normalise(path) in {LandingPath, PricingPath, LoginPath, RegisterPath}
    ensures RouteFor(path).Redirect? ==> RouteFor(path) == Redirect(LandingPath)
    ensures RouteFor(path).Redirect? <==> Normalise(path) !in {LandingPath, PricingPath, LoginPath, RegisterPath, AppPath}
  {
  }

  /** The dashboard is shown exactly for `/app` in any ASCII case followed
      by any number of slashes, and there only to a signed-in member once
      both contexts have loaded. */
  lemma {:induction false} DashboardOnlyForMembers(path: string, authLoading: bool, membershipLoading: bool, isAuthenticated: bool, isMember: bool)
    ensures Render(path, authLoading, membershipLoading, isAuthenticated, isMember) == Show(Dashboard) <==>
      && |AppPath| <= |path| && ToLower(path[..|AppPath|]) == AppPath
      && (forall i :: |AppPath| <= i < |path| ==> path[i] == '/')
      && !authLoading && !membershipLoading && isAuthenticated && isMember
  {
    RouteTableSpec(path);
    NormaliseMatches(path, AppPath);
    if Normalise(path) == AppPath {
      MemberGateSpec(authLoading, membershipLoading, isAuthenticated, isMember, Dashboard);
    }
  }
}
