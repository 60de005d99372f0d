/** The edge access gate of src/proxy.ts: from the presence of a session token
    and the request path it decides whether the request passes through or is
    redirected, and the `config.matcher` pattern list decides on which paths the
    gate runs at all. */
module Proxy {
  import opened Wrappers

  /** What the gate answers for one request. */
  datatype Decision = RedirectDashboard | RedirectSignIn | Next

  const SignInPath: string := "/sign-in"
  const SignUpPath: string := "/sign-up"
  const VerifyPath: string := "/verify"
  const LandingPath: string := "/"
  const DashboardPath: string := "/dashboard"

  /** JavaScript's `startsWith` (no position argument): a plain prefix test on
      the characters, not a test on path segments. */
  predicate StartsWith(s: string, prefix: string) {
    |prefix| <= |s| && s[..|prefix|] == prefix
  }

  /** Paths an authenticated user is sent away from. Three are prefix tests,
      the landing page is an exact comparison. */
  predicate IsEntryPath(path: string) {
    || StartsWith(path, SignInPath)
    || StartsWith(path, SignUpPath)
    || StartsWith(path, VerifyPath)
    || path == LandingPath
  }

  /** Paths an anonymous user is sent away from. */
  predicate IsProtectedPath(path: string) {
    StartsWith(path, DashboardPath)
  }

  /** The path a redirect sends the browser to. */
  function Target(d: Decision): (path: string)
    requires d != Next
    ensures d == RedirectDashboard ==> IsProtectedPath(path) && !IsEntryPath(path)
    ensures d == RedirectSignIn ==> IsEntryPath(path) && !IsProtectedPath(path)
  {
    match d
    case RedirectDashboard =>
      assert StartsWith(DashboardPath, DashboardPath);
      NotPrefixAt(DashboardPath, SignInPath, 1);
      NotPrefixAt(DashboardPath, SignUpPath, 1);
      NotPrefixAt(DashboardPath, VerifyPath, 1);
      DashboardPath
    case RedirectSignIn =>
      assert StartsWith(SignInPath, SignInPath);
      NotPrefixAt(SignInPath, DashboardPath, 1);
      SignInPath
  }

  /** The `proxy` function. The token is whatever `getToken` resolved; its
      contents are never inspected, only whether it is present. */
  function Gate<T>(token: Option<T>, path: string): (d: Decision)
    ensures d == RedirectDashboard ==> token.Some?
    ensures d == RedirectSignIn ==> token.None?
    ensures d == RedirectDashboard <==> token.Some? && IsEntryPath(path)
    ensures d == RedirectSignIn <==> token.None? && IsProtectedPath(path)
    ensures d == Next <==> (token.Some? ==> !IsEntryPath(path)) && (token.None? ==> !IsProtectedPath(path))
  {
    if token.Some? && IsEntryPath(path) then RedirectDashboard
    else if token.None? && StartsWith(path, DashboardPath) then RedirectSignIn
    else Next
  }

  /** A path-to-regexp pattern of the form `/base/:path*`: the base itself or
      any path continuing it with a further segment. */
  predicate UnderSegment(path: string, base: string) {
    path == base || StartsWith(path, base + "/")
  }

  /** The `config.matcher` list: the gate runs only on these paths. */
  predicate Invoked(path: string) {
    || path == SignInPath
    || path == SignUpPath
    || path == LandingPath
    || UnderSegment(path, DashboardPath)
    || UnderSegment(path, VerifyPath)
  }

  /** The gate as deployed: on paths outside the matcher the request is never
      handed to `proxy` and proceeds untouched. */
  function Handle<T>(token: Option<T>, path: string): (d: Decision)
    ensures !Invoked(path) ==> d == Next
    ensures Invoked(path) ==> d == Gate(token, path)
  {
    if Invoked(path) then Gate(token, path) else Next
  }

  /** Independent reference: the route table read off the matcher patterns
      segment by segment, with the rule each group of routes should follow. */
  function RouteTableDecision<T>(token: Option<T>, path: string): Decision {
    if path == SignInPath || path == SignUpPath || path == LandingPath || UnderSegment(path, VerifyPath) then
      (if token.Some? then RedirectDashboard else Next)
    else if UnderSegment(path, DashboardPath) then
      (if token.None? then RedirectSignIn else Next)
    else Next
  }

  /** A prefix test against a longer known prefix decides a prefix test
      against a shorter one. */
  lemma StartsWithThrough(s: string, longer: string, shorter: string)
    requires StartsWith(s, longer)
    requires |shorter| <= |longer|
    ensures StartsWith(s, shorter) <==> StartsWith(longer, shorter)
  {
  }

  /** A string with a prefix agrees with it character by character. */
  lemma PrefixChar(s: string, prefix: string, k: nat)
    requires StartsWith(s, prefix)
    requires k < |prefix|
    ensures s[k] == prefix[k]
  {
  }

  /** One differing (or missing) character rules a prefix out. */
  lemma NotPrefixAt(s: string, prefix: string, k: nat)
    requires k < |prefix|
    requires k >= |s| || s[k] != prefix[k]
    ensures !StartsWith(s, prefix)
  {
  }

  /** A path that is a dashboard route is none of the entry routes. */
  lemma DashboardRouteIsNotEntry(path: string)
    requires UnderSegment(path, DashboardPath)
    ensures !IsEntryPath(path)
    ensures IsProtectedPath(path)
  {
    if path == DashboardPath {
      assert StartsWith(path, DashboardPath);
    } else {
      StartsWithThrough(path, DashboardPath + "/", DashboardPath);
    }
    PrefixChar(path, DashboardPath, 1);
    NotPrefixAt(path, SignInPath, 1);
    NotPrefixAt(path, SignUpPath, 1);
    NotPrefixAt(path, VerifyPath, 1);
  }

  /** A path under `/verify` is an entry route and not a dashboard route. */
  lemma VerifyRouteIsEntry(path: string)
    requires UnderSegment(path, VerifyPath)
    ensures IsEntryPath(path)
    ensures !IsProtectedPath(path)
  {
    if path == VerifyPath {
      assert StartsWith(path, VerifyPath);
    } else {
      StartsWithThrough(path, VerifyPath + "/", VerifyPath);
    }
    PrefixChar(path, VerifyPath, 1);
    NotPrefixAt(path, DashboardPath, 1);
  }

  /** On every path the matcher admits, the prefix tests of the gate agree
      with the segment-wise route table, so the deployed gate is exactly the
      route table. */
  lemma DeployedGateFollowsRouteTable<T>(token: Option<T>, path: string)
    ensures Handle(token, path) == RouteTableDecision(token, path)
  {
    if UnderSegment(path, DashboardPath) {
      DashboardRouteIsNotEntry(path);
    } else if UnderSegment(path, VerifyPath) {
      VerifyRouteIsEntry(path);
    } else if path == SignInPath || path == SignUpPath || path == LandingPath {
      assert StartsWith(path, path);
      assert !IsProtectedPath(path);
    }
  }

  /** Following a redirect never triggers a second redirect: each target passes
      the gate under the same token state, both before and after the matcher. */
  lemma NoRedirectLoop<T>(token: Option<T>, path: string)
    requires Gate(token, path) != Next
    ensures Gate(token, Target(Gate(token, path))) == Next
    ensures Handle(token, Target(Gate(token, path))) == Next
    ensures Invoked(Target(Gate(token, path)))
  {
  }

  /** Only the presence of the token matters, never its contents. */
  lemma TokenContentsIrrelevant<T>(a: T, b: T, path: string)
    ensures Gate(Some(a), path) == Gate(Some(b), path)
    ensures Handle(Some(a), path) == Handle(Some(b), path)
  {
  }

  /** The gate matches by prefix, not by segment: `/verifyX` and `/sign-inABC`
      are treated as entry pages and `/dashboardX` as protected, while `/` is
      an exact test, so `/about` passes. The matcher keeps the gate off the
      first three paths, so as deployed they all pass through. */
  lemma PrefixNotSegment<T>(t: T)
    ensures Gate(Some(t), "/verifyX") == RedirectDashboard
    ensures Gate(Some(t), "/sign-inABC") == RedirectDashboard
    ensures Gate(Option<T>.None, "/dashboardX") == RedirectSignIn
    ensures Gate(Some(t), "/about") == Next
    ensures Handle(Some(t), "/verifyX") == Next
    ensures Handle(Some(t), "/sign-inABC") == Next
    ensures Handle(Option<T>.None, "/dashboardX") == Next
  {
    assert "/verifyX"[..|VerifyPath|] == VerifyPath;
    assert "/sign-inABC"[..|SignInPath|] == SignInPath;
    assert "/dashboardX"[..|DashboardPath|] == DashboardPath;
    NotPrefixAt("/verifyX", VerifyPath + "/", 7);
    NotPrefixAt("/verifyX", DashboardPath, 1);
    NotPrefixAt("/sign-inABC", VerifyPath, 1);
    NotPrefixAt("/sign-inABC", DashboardPath, 1);
    NotPrefixAt("/dashboardX", DashboardPath + "/", 10);
    NotPrefixAt("/dashboardX", VerifyPath, 1);
  }
}
