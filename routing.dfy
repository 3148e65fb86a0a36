/** Access-control routing: the profile page's dispatch on the user's type and collar,
    the route table with its guards and its catch-all, and the navigation bar's links.
    A path is the list of its non-empty segments: "/" is [], "/profile/blue-summary" is
    ["profile", "blue-summary"]. */
module Routing {
  import opened Optional

  /** The `type` and `collar` fields of the user's sign-up metadata, None when absent. */
  datatype Meta = Meta(role: Option<string>, collar: Option<string>)

  type Path = seq<string>

  const Root: Path := []
  const LoginPath: Path := ["login"]
  const ProfilePath: Path := ["profile"]
  const ChooseSeekerTypePath: Path := ["choose-seeker-type"]
  const CompanySummaryPath: Path := ["profile", "company-summary"]
  const BlueSummaryPath: Path := ["profile", "blue-summary"]
  const WhiteSummaryPath: Path := ["profile", "white-summary"]

  /** JavaScript falsiness of an optional string. */
  predicate Falsy(o: Option<string>) {
    o.None? || o.value == ""
  }

  /** A signed-in user with the given role. */
  predicate HasRole(s: Option<Meta>, role: string) {
    s.Some? && s.value.role == Some(role)
  }

  /** A signed-in seeker with the given collar. */
  predicate IsSeekerWith(s: Option<Meta>, collar: string) {
    HasRole(s, "seeker") && s.value.collar == Some(collar)
  }

  // ----- the profile page -----

  /** `loadUser`: the one place the profile page sends the user. */
  function ProfileDestination(user: Option<Meta>): Path {
    if user.None? then LoginPath
    else if HasRole(user, "company") then CompanySummaryPath
    else if IsSeekerWith(user, "blue") then BlueSummaryPath
    else if IsSeekerWith(user, "white") then WhiteSummaryPath
    else if HasRole(user, "seeker") && Falsy(user.value.collar) then ChooseSeekerTypePath
    else Root
  }

  /** Each destination is chosen for exactly the users it is meant for; everything else,
      an unknown type or collar included, goes home. */
  lemma ProfileDestinationCases(user: Option<Meta>)
    ensures ProfileDestination(user) == LoginPath <==> user.None?
    ensures ProfileDestination(user) == CompanySummaryPath <==> HasRole(user, "company")
    ensures ProfileDestination(user) == BlueSummaryPath <==> IsSeekerWith(user, "blue")
    ensures ProfileDestination(user) == WhiteSummaryPath <==> IsSeekerWith(user, "white")
    ensures ProfileDestination(user) == ChooseSeekerTypePath <==>
              HasRole(user, "seeker") && Falsy(user.value.collar)
    ensures ProfileDestination(user) == Root <==>
              (user.Some? && !HasRole(user, "company") && !HasRole(user, "seeker"))
              || (HasRole(user, "seeker") && !Falsy(user.value.collar)
                  && user.value.collar != Some("blue") && user.value.collar != Some("white"))
  {
  }

  // ----- the route table -----

  /** A pattern segment: a literal, or a `:name` parameter that matches any segment. */
  datatype Segment = Lit(text: string) | Param(name: string)

  /** The page a route renders. */
  datatype Screen =
    | HomeScreen | SeekerTypeScreen | RegisterScreen | LoginScreen | ProfileScreen
    | BlueEditScreen | BlueSummaryScreen | WhiteEditScreen | WhiteSummaryScreen
    | CompanyProfileScreen | CompanySummaryScreen | JobDetailsScreen | JobsFormScreen
    | ApplicantsScreen

  /** What a route asks of the session before it renders, and where it sends everyone else. */
  datatype Guard =
    | Open
    | SignedIn
    | SeekerCollar(collar: string)
    | CompanyOnly(deny: Path)

  datatype Route = Route(pattern: seq<Segment>, guard: Guard, screen: Screen)

  datatype Outcome = Render(screen: Screen) | Redirect(to: Path)

  /** The `<Routes>` of the app, in declaration order; the `*` fallback is `Resolve`'s
      last case. */
  const Routes: seq<Route> := [
    Route([], Open, HomeScreen),
    Route([Lit("choose-seeker-type")], Open, SeekerTypeScreen),
    Route([Lit("register")], Open, RegisterScreen),
    Route([Lit("login")], Open, LoginScreen),
    Route([Lit("profile")], SignedIn, ProfileScreen),
    Route([Lit("edit-blue-profile")], SeekerCollar("blue"), BlueEditScreen),
    Route([Lit("profile"), Lit("blue-summary")], SeekerCollar("blue"), BlueSummaryScreen),
    Route([Lit("edit-white-profile")], SeekerCollar("white"), WhiteEditScreen),
    Route([Lit("profile"), Lit("white-summary")], SeekerCollar("white"), WhiteSummaryScreen),
    Route([Lit("company-profile")], CompanyOnly(ProfilePath), CompanyProfileScreen),
    Route([Lit("profile"), Lit("company-summary")], CompanyOnly(ProfilePath), CompanySummaryScreen),
    Route([Lit("jobs"), Param("jobId")], Open, JobDetailsScreen),
    Route([Lit("company"), Lit("jobs"), Lit("new")], CompanyOnly(LoginPath), JobsFormScreen),
    Route([Lit("jobs"), Param("jobId"), Lit("applicants")], Open, ApplicantsScreen),
    Route([Lit("company"), Lit("jobs"), Param("jobId"), Lit("edit")], CompanyOnly(LoginPath), JobsFormScreen)
  ]

  predicate SegmentsMatch(pattern: seq<Segment>, path: Path)
    requires |pattern| == |path|
  {
    |pattern| == 0
    || ((pattern[0].Param? || pattern[0].text == path[0]) && SegmentsMatch(pattern[1..], path[1..]))
  }

  /** A pattern matches a path of its own length whose segments agree with its literals. */
  predicate Matches(pattern: seq<Segment>, path: Path) {
    |pattern| == |path| && SegmentsMatch(pattern, path)
  }

  /** The element a route's `element` expression yields for the session. */
  function Guarded(g: Guard, s: Option<Meta>, screen: Screen): Outcome {
    match g
    case Open => Render(screen)
    case SignedIn => if s.Some? then Render(screen) else Redirect(LoginPath)
    case SeekerCollar(c) => if IsSeekerWith(s, c) then Render(screen) else Redirect(ProfilePath)
    case CompanyOnly(deny) => if HasRole(s, "company") then Render(screen) else Redirect(deny)
  }

  /** The outcome of the first route from index `i` on that matches. */
  function ResolveFrom(i: nat, path: Path, s: Option<Meta>): Outcome
    decreases |Routes| - i
  {
    if i >= |Routes| then Redirect(Root)
    else if Matches(Routes[i].pattern, path) then Guarded(Routes[i].guard, s, Routes[i].screen)
    else ResolveFrom(i + 1, path, s)
  }

  /** What the app shows at `path` for the session `s`. */
  function Resolve(path: Path, s: Option<Meta>): Outcome {
    ResolveFrom(0, path, s)
  }

  // ----- no two routes overlap -----

  /** Two patterns of one length that differ in a literal at some position. */
  predicate Clash(p: seq<Segment>, q: seq<Segment>)
    requires |p| == |q|
  {
    |p| > 0 && ((p[0].Lit? && q[0].Lit? && p[0].text != q[0].text) || Clash(p[1..], q[1..]))
  }

  predicate Apart(p: seq<Segment>, q: seq<Segment>) {
    |p| != |q| || Clash(p, q)
  }

  /** Route `i` is apart from every route from `j` on. */
  predicate ApartFrom(i: nat, j: nat)
    requires i < |Routes|
    decreases |Routes| - j
  {
    j >= |Routes| || (Apart(Routes[i].pattern, Routes[j].pattern) && ApartFrom(i, j + 1))
  }

  /** Every route from `i` on is apart from every later one. */
  predicate AllApartFrom(i: nat)
    decreases |Routes| - i
  {
    i >= |Routes| || (ApartFrom(i, i + 1) && AllApartFrom(i + 1))
  }

  lemma FirstRowsApart()
    ensures ApartFrom(0, 1) && ApartFrom(1, 2)
  {
  }

  lemma SecondRowsApart()
    ensures ApartFrom(2, 3) && ApartFrom(3, 4)
  {
  }

  lemma MiddleRowsApart()
    ensures ApartFrom(4, 5) && ApartFrom(5, 6) && ApartFrom(6, 7) && ApartFrom(7, 8)
  {
  }

  lemma LastRowsApart()
    ensures ApartFrom(8, 9) && ApartFrom(9, 10) && ApartFrom(10, 11) && ApartFrom(11, 12)
    ensures ApartFrom(12, 13) && ApartFrom(13, 14) && ApartFrom(14, 15)
  {
  }

  lemma TableApart()
    ensures AllApartFrom(0)
  {
    FirstRowsApart();
    SecondRowsApart();
    MiddleRowsApart();
    LastRowsApart();
  }

  lemma {:induction false} ApartFromAt(i: nat, j: nat, k: nat)
    requires i < |Routes| && j <= k < |Routes| && ApartFrom(i, j)
    ensures Apart(Routes[i].pattern, Routes[k].pattern)
    decreases k - j
  {
    if j < k {
      ApartFromAt(i, j + 1, k);
    }
  }

  lemma {:induction false} AllApartFromAt(i: nat, m: nat, k: nat)
    requires i <= m < k < |Routes| && AllApartFrom(i)
    ensures Apart(Routes[m].pattern, Routes[k].pattern)
    decreases m - i
  {
    if i < m {
      AllApartFromAt(i + 1, m, k);
    } else {
      ApartFromAt(m, m + 1, k);
    }
  }

  /** Clashing patterns never match the same path. */
  lemma {:induction false} ClashExcludes(p: seq<Segment>, q: seq<Segment>, path: Path)
    requires |p| == |q| == |path| && Clash(p, q) && SegmentsMatch(p, path)
    ensures !SegmentsMatch(q, path)
    decreases |p|
  {
    if !(p[0].Lit? && q[0].Lit? && p[0].text != q[0].text) {
      ClashExcludes(p[1..], q[1..], path[1..]);
    }
  }

  /** No path matches two routes, so trying the routes in order picks the same route as
      ranking them by specificity. */
  lemma AtMostOneRoute(path: Path, i: nat, j: nat)
    requires i < j < |Routes| && Matches(Routes[i].pattern, path)
    ensures !Matches(Routes[j].pattern, path)
  {
    TableApart();
    AllApartFromAt(0, i, j);
    if |Routes[i].pattern| == |Routes[j].pattern| {
      ClashExcludes(Routes[i].pattern, Routes[j].pattern, path);
    }
  }

  lemma {:induction false} ResolveFromAt(i: nat, k: nat, path: Path, s: Option<Meta>)
    requires i <= k < |Routes| && Matches(Routes[k].pattern, path)
    ensures ResolveFrom(i, path, s) == Guarded(Routes[k].guard, s, Routes[k].screen)
    decreases k - i
  {
    if i < k {
      if Matches(Routes[i].pattern, path) {
        AtMostOneRoute(path, i, k);
      }
      ResolveFromAt(i + 1, k, path, s);
    }
  }

  /** A path matching route `k` gets route `k`'s guarded element. */
  lemma ResolveAt(k: nat, path: Path, s: Option<Meta>)
    requires k < |Routes| && Matches(Routes[k].pattern, path)
    ensures Resolve(path, s) == Guarded(Routes[k].guard, s, Routes[k].screen)
  {
    ResolveFromAt(0, k, path, s);
  }

  lemma {:induction false} NoRouteFrom(i: nat, path: Path, s: Option<Meta>)
    requires forall k :: i <= k < |Routes| ==> !Matches(Routes[k].pattern, path)
    ensures ResolveFrom(i, path, s) == Redirect(Root)
    decreases |Routes| - i
  {
    if i < |Routes| {
      NoRouteFrom(i + 1, path, s);
    }
  }

  /** A path no route matches is sent home, whoever asks. */
  lemma UnregisteredFallsBack(path: Path, s: Option<Meta>)
    requires forall k :: 0 <= k < |Routes| ==> !Matches(Routes[k].pattern, path)
    ensures Resolve(path, s) == Redirect(Root)
  {
    NoRouteFrom(0, path, s);
  }

  // ----- the guards -----

  /** /profile admits any session and sends everyone else to /login. */
  lemma ProfileGuard(s: Option<Meta>)
    ensures Resolve(ProfilePath, s) == if s.Some? then Render(ProfileScreen) else Redirect(LoginPath)
  {
    ResolveAt(4, ProfilePath, s);
  }

  /** The blue pages admit exactly the blue-collar seekers and send everyone else to
      /profile. */
  lemma BlueGuards(s: Option<Meta>)
    ensures Resolve(["edit-blue-profile"], s) ==
              if IsSeekerWith(s, "blue") then Render(BlueEditScreen) else Redirect(ProfilePath)
    ensures Resolve(BlueSummaryPath, s) ==
              if IsSeekerWith(s, "blue") then Render(BlueSummaryScreen) else Redirect(ProfilePath)
  {
    ResolveAt(5, ["edit-blue-profile"], s);
    ResolveAt(6, BlueSummaryPath, s);
  }

  /** The white pages admit exactly the white-collar seekers and send everyone else to
      /profile. */
  lemma WhiteGuards(s: Option<Meta>)
    ensures Resolve(["edit-white-profile"], s) ==
              if IsSeekerWith(s, "white") then Render(WhiteEditScreen) else Redirect(ProfilePath)
    ensures Resolve(WhiteSummaryPath, s) ==
              if IsSeekerWith(s, "white") then Render(WhiteSummaryScreen) else Redirect(ProfilePath)
  {
    ResolveAt(7, ["edit-white-profile"], s);
    ResolveAt(8, WhiteSummaryPath, s);
  }

  /** The company pages admit exactly companies and send everyone else to /profile. */
  lemma CompanyPageGuards(s: Option<Meta>)
    ensures Resolve(["company-profile"], s) ==
              if HasRole(s, "company") then Render(CompanyProfileScreen) else Redirect(ProfilePath)
    ensures Resolve(CompanySummaryPath, s) ==
              if HasRole(s, "company") then Render(CompanySummaryScreen) else Redirect(ProfilePath)
  {
    ResolveAt(9, ["company-profile"], s);
    ResolveAt(10, CompanySummaryPath, s);
  }

  /** Creating or editing a job admits exactly companies and sends everyone else to /login. */
  lemma JobFormGuards(s: Option<Meta>, jobId: string)
    ensures Resolve(["company", "jobs", "new"], s) ==
              if HasRole(s, "company") then Render(JobsFormScreen) else Redirect(LoginPath)
    ensures Resolve(["company", "jobs", jobId, "edit"], s) ==
              if HasRole(s, "company") then Render(JobsFormScreen) else Redirect(LoginPath)
  {
    ResolveAt(12, ["company", "jobs", "new"], s);
    var p := ["company", "jobs", jobId, "edit"];
    assert SegmentsMatch(Routes[14].pattern[2..], p[2..]);
    ResolveAt(14, p, s);
  }

  /** A job's page and its applicants page render for anyone, signed in or not. */
  lemma JobPagesUnguarded(s: Option<Meta>, jobId: string)
    ensures Resolve(["jobs", jobId], s) == Render(JobDetailsScreen)
    ensures Resolve(["jobs", jobId, "applicants"], s) == Render(ApplicantsScreen)
  {
    var p := ["jobs", jobId];
    assert SegmentsMatch(Routes[11].pattern[1..], p[1..]);
    ResolveAt(11, p, s);
    var q := ["jobs", jobId, "applicants"];
    assert SegmentsMatch(Routes[13].pattern[1..], q[1..]);
    ResolveAt(13, q, s);
  }

  /** Links elsewhere in the app to paths no route declares land on the home page:
      "/edit-company-profile", "/company/edit-profile" and "/seeker/:id". */
  lemma EditCompanyLinkGoesHome(s: Option<Meta>)
    ensures Resolve(["edit-company-profile"], s) == Redirect(Root)
  {
    assert ResolveFrom(0, ["edit-company-profile"], s) == Redirect(Root);
  }

  lemma CompanyEditLinkGoesHome(s: Option<Meta>)
    ensures Resolve(["company", "edit-profile"], s) == Redirect(Root)
  {
    assert ResolveFrom(0, ["company", "edit-profile"], s) == Redirect(Root);
  }

  lemma SeekerLinkGoesHome(s: Option<Meta>, id: string)
    ensures Resolve(["seeker", id], s) == Redirect(Root)
  {
    assert ResolveFrom(0, ["seeker", id], s) == Redirect(Root);
  }

  // ----- no redirect loop -----

  /** Every place the profile page sends a user renders for that same user. */
  lemma NoRedirectLoop(user: Option<Meta>)
    ensures Resolve(ProfileDestination(user), user).Render?
  {
    var d := ProfileDestination(user);
    if d == LoginPath {
      ResolveAt(3, d, user);
    } else if d == CompanySummaryPath {
      ResolveAt(10, d, user);
    } else if d == BlueSummaryPath {
      ResolveAt(6, d, user);
    } else if d == WhiteSummaryPath {
      ResolveAt(8, d, user);
    } else if d == ChooseSeekerTypePath {
      ResolveAt(1, d, user);
    } else {
      ResolveAt(0, d, user);
    }
  }

  /** Where a redirect can go. */
  predicate IsRedirectTarget(p: Path) {
    p == Root || p == LoginPath || p == ProfilePath
  }

  predicate DeniesToTargets(i: nat)
    decreases |Routes| - i
  {
    i >= |Routes|
    || ((Routes[i].guard.CompanyOnly? ==> IsRedirectTarget(Routes[i].guard.deny)) && DeniesToTargets(i + 1))
  }

  lemma {:induction false} RedirectTargetsFrom(i: nat, path: Path, s: Option<Meta>)
    requires DeniesToTargets(i)
    ensures ResolveFrom(i, path, s).Redirect? ==> IsRedirectTarget(ResolveFrom(i, path, s).to)
    decreases |Routes| - i
  {
    if i < |Routes| && !Matches(Routes[i].pattern, path) {
      RedirectTargetsFrom(i + 1, path, s);
    }
  }

  /** Following redirects from any path reaches a rendered page within two hops; and
      when that page is the profile page, it sends the user on to a page that renders. */
  lemma RedirectsSettle(path: Path, s: Option<Meta>)
    ensures var o := Resolve(path, s);
      || o.Render?
      || Resolve(o.to, s).Render?
      || Resolve(Resolve(o.to, s).to, s).Render?
  {
    assert DeniesToTargets(0);
    RedirectTargetsFrom(0, path, s);
    var o := Resolve(path, s);
    if o.Redirect? {
      ResolveAt(0, Root, s);
      ResolveAt(3, LoginPath, s);
      ProfileGuard(s);
    }
  }

  // ----- the navigation bar -----

  /** Which links and buttons the bar shows. */
  datatype NavLinks = NavLinks(home: bool, login: bool, profile: bool, company: bool,
                               editWhite: bool, editBlue: bool, logout: bool)

  /** `NavBar`. */
  function NavBar(s: Option<Meta>): NavLinks {
    NavLinks(s.None?, s.None?, s.Some?, HasRole(s, "company"),
             IsSeekerWith(s, "white"), IsSeekerWith(s, "blue"), s.Some?)
  }

  /** Every link the bar shows leads to a page that renders for the same session, and at
      most one profile-edit link shows. */
  lemma NavLinksRender(s: Option<Meta>)
    ensures NavBar(s).home ==> Resolve(Root, s) == Render(HomeScreen)
    ensures NavBar(s).login ==> Resolve(LoginPath, s) == Render(LoginScreen)
    ensures NavBar(s).profile ==> Resolve(ProfilePath, s) == Render(ProfileScreen)
    ensures NavBar(s).company ==> Resolve(["company-profile"], s) == Render(CompanyProfileScreen)
    ensures NavBar(s).editWhite ==> Resolve(["edit-white-profile"], s) == Render(WhiteEditScreen)
    ensures NavBar(s).editBlue ==> Resolve(["edit-blue-profile"], s) == Render(BlueEditScreen)
    ensures !(NavBar(s).editWhite && NavBar(s).editBlue)
    ensures NavBar(s).home <==> !NavBar(s).profile
  {
    ResolveAt(0, Root, s);
    ResolveAt(3, LoginPath, s);
    ProfileGuard(s);
    CompanyPageGuards(s);
    BlueGuards(s);
    WhiteGuards(s);
  }
}
