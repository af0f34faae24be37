/**
 * The frontend's route table and its guards: which page a pathname shows to
 * a signed-out user, an HR user or an applicant, and where the guards
 * redirect. Routes are ranked as React Router v6 ranks them: every route's
 * path gets a score (static segments 10, dynamic segments 3, empty segment 1,
 * index route +2, splat -2, plus the number of segments) and the matching
 * route with the highest score wins, the earlier one on a tie.
 */
module Routing {
  import opened Wrappers
  import opened Strings
  import Store

  datatype Seg = Static(text: string) | Param(name: string) | Splat

  datatype Guard = Open | HrOnly | ApplicantOnly

  datatype Page =
    | RoleRedirect | Home | About | VacancyEditor | VacancyApplicant
    | ApplicantHome | ApplicantVacancy | Login | Register | NotFound

  /** A leaf route under the layout route "/": its path after "/", whether it is the index route, its guard and page. */
  datatype Route = Route(pattern: seq<Seg>, index: bool, guard: Guard, page: Page)

  /** A pathname is given by its segments: "/hr/vacancy/7" is ["hr", "vacancy", "7"]. */
  datatype Outcome = Render(page: Page, params: map<string, string>) | Redirect(to: seq<string>)

  const LoginPath: seq<string> := ["login"]
  const HrPath: seq<string> := ["hr"]
  const ApplicantPath: seq<string> := ["applicant"]

  /**
   * The route table under the layout route, in the order written: the index
   * route first and the catch-all "*" last; no other route has a splat.
   */
  function Routes(): (r: seq<Route>)
    ensures |r| == 12 && r[11].pattern == [Splat] && r[11].guard.Open? && r[11].page == NotFound
    ensures forall i :: 0 <= i < 11 ==> !HasSplat(r[i].pattern)
    ensures forall i :: 0 <= i < |r| ==> (r[i].index <==> i == 0)
  {
    [ Route([], true, Open, RoleRedirect),
      Route([Static("hr")], false, HrOnly, Home),
      Route([Static("hr"), Static("about")], false, HrOnly, About),
      Route([Static("hr"), Static("createVacancy")], false, HrOnly, VacancyEditor),
      Route([Static("hr"), Static("vacancy"), Param("id")], false, HrOnly, VacancyEditor),
      Route([Static("hr"), Static("vacancy"), Param("vacancyId"), Static("candidate"), Param("candidateId")],
        false, HrOnly, VacancyApplicant),
      Route([Static("applicant")], false, ApplicantOnly, ApplicantHome),
      Route([Static("applicant"), Param("vacancyId")], false, ApplicantOnly, ApplicantVacancy),
      Route([Static("applicant"), Static("about")], false, ApplicantOnly, About),
      Route([Static("login")], false, Open, Login),
      Route([Static("register")], false, Open, Register),
      Route([Splat], false, Open, NotFound) ]
  }

  /**
   * Matching a pattern against path segments: static segments compare without
   * regard to case, a dynamic segment takes one segment, a splat the rest.
   */
  function Match(pattern: seq<Seg>, segs: seq<string>): (r: Option<map<string, string>>)
    ensures pattern == [] ==> (r.Some? <==> segs == [])
    decreases |pattern|
  {
    if pattern == [] then (if segs == [] then Some(map[]) else None)
    else match pattern[0]
      case Splat => Some(map["*" := Join(segs, "/")])
      case Static(text) =>
        if segs != [] && Lower(segs[0]) == Lower(text) then Match(pattern[1..], segs[1..]) else None
      case Param(name) =>
        if segs != [] then
          match Match(pattern[1..], segs[1..])
          case None => None
          case Some(ps) => Some(ps[name := segs[0]])
        else None
  }

  function SegScore(s: Seg): int
  {
    match s
    case Static(_) => 10
    case Param(_) => 3
    case Splat => 0
  }

  function SegsScore(pattern: seq<Seg>): int
  {
    if pattern == [] then 0 else SegsScore(pattern[..|pattern| - 1]) + SegScore(pattern[|pattern| - 1])
  }

  predicate HasSplat(pattern: seq<Seg>) { exists i :: 0 <= i < |pattern| && pattern[i].Splat? }

  /**
   * React Router's computeScore for the joined path "/" + pattern: it splits
   * into |pattern| + 1 pieces (two empty pieces for "/" itself), the leading
   * empty piece scores 1.
   */
  function Score(r: Route): int
  {
    var pieces := if r.pattern == [] then 2 else |r.pattern| + 1;
    var empties := if r.pattern == [] then 2 else 1;
    pieces + (if HasSplat(r.pattern) then -2 else 0) + (if r.index then 2 else 0) + empties + SegsScore(r.pattern)
  }

  datatype Choice = Choice(route: Route, params: map<string, string>)

  /** winner scores at least as high as other whenever other matches too. */
  predicate Outranks(winner: Route, other: Route, segs: seq<string>)
  {
    Match(other.pattern, segs).Some? ==> Score(other) <= Score(winner)
  }

  /** The highest-scoring matching route, the earliest among equals. */
  function Best(routes: seq<Route>, segs: seq<string>): (r: Option<Choice>)
    ensures r.Some? ==> r.value.route in routes && Match(r.value.route.pattern, segs) == Some(r.value.params)
    ensures r.Some? ==> forall i :: 0 <= i < |routes| ==> Outranks(r.value.route, routes[i], segs)
    ensures r.None? ==> forall i :: 0 <= i < |routes| ==> Match(routes[i].pattern, segs).None?
  {
    if routes == [] then None
    else
      var rest := Best(routes[1..], segs);
      var m := Match(routes[0].pattern, segs);
      assert forall i :: 1 <= i < |routes| ==> routes[i] == routes[1..][i - 1];
      if m.Some? && (rest.None? || Score(routes[0]) >= Score(rest.value.route)) then Some(Choice(routes[0], m.value))
      else rest
  }

  predicate IsRole(user: Option<Store.SessionUser>, role: string)
  {
    user.Some? && user.value.role == role
  }

  /** ProtectedRoute: any signed-in user passes, a signed-out visitor goes to /login. */
  function ProtectedRoute(user: Option<Store.SessionUser>): (r: Option<seq<string>>)
    ensures r.None? <==> user.Some?
    ensures r.Some? ==> r.value == LoginPath
  {
    if user.None? then Some(LoginPath) else None
  }

  /** HRRoute and ApplicantRoute as written: signed out goes to /login, any other role to the other area. */
  function GuardAsWritten(g: Guard, user: Option<Store.SessionUser>): (r: Option<seq<string>>)
    ensures r.None? <==> g.Open? || (g.HrOnly? && IsRole(user, "hr")) || (g.ApplicantOnly? && IsRole(user, "applicant"))
    ensures r.Some? ==> r.value == LoginPath || r.value == HrPath || r.value == ApplicantPath
  {
    match g
    case Open => None
    case HrOnly => if user.None? then Some(LoginPath) else if user.value.role != "hr" then Some(ApplicantPath) else None
    case ApplicantOnly =>
      if user.None? then Some(LoginPath) else if user.value.role != "applicant" then Some(HrPath) else None
  }

  /**
   * The guards as evidently intended: a role that belongs to neither area is
   * sent to /login, as RoleBasedRedirect does, instead of to the other area.
   */
  function Guarded(g: Guard, user: Option<Store.SessionUser>): (r: Option<seq<string>>)
    ensures r.None? <==> g.Open? || (g.HrOnly? && IsRole(user, "hr")) || (g.ApplicantOnly? && IsRole(user, "applicant"))
    ensures (user.None? || user.value.role == "hr" || user.value.role == "applicant") ==> r == GuardAsWritten(g, user)
    ensures r.Some? ==> r.value == LoginPath || r.value == HrPath || r.value == ApplicantPath
  {
    match g
    case Open => None
    case HrOnly =>
      if IsRole(user, "hr") then None else if IsRole(user, "applicant") then Some(ApplicantPath) else Some(LoginPath)
    case ApplicantOnly =>
      if IsRole(user, "applicant") then None else if IsRole(user, "hr") then Some(HrPath) else Some(LoginPath)
  }

  /** RoleBasedRedirect: the index page sends each role to its home. */
  function RoleBasedRedirect(user: Option<Store.SessionUser>): (r: seq<string>)
    ensures IsRole(user, "hr") ==> r == HrPath
    ensures IsRole(user, "applicant") ==> r == ApplicantPath
    ensures !IsRole(user, "hr") && !IsRole(user, "applicant") ==> r == LoginPath
  {
    if user.None? then LoginPath
    else if user.value.role == "hr" then HrPath
    else if user.value.role == "applicant" then ApplicantPath
    else LoginPath
  }

  function Finish(c: Choice, redirect: Option<seq<string>>, user: Option<Store.SessionUser>): (r: Outcome)
    ensures r.Redirect? ==> (redirect.Some? && r.to == redirect.value) || r.to == RoleBasedRedirect(user)
    ensures r.Render? ==> r.page != RoleRedirect && redirect.None?
  {
    if redirect.Some? then Redirect(redirect.value)
    else if c.route.page == RoleRedirect then Redirect(RoleBasedRedirect(user))
    else Render(c.route.page, c.params)
  }

  /** What the router shows for a pathname with the guards as written. */
  function ResolveAsWritten(segs: seq<string>, user: Option<Store.SessionUser>): (r: Outcome)
    ensures r.Redirect? ==> r.to == LoginPath || r.to == HrPath || r.to == ApplicantPath
    ensures r.Render? ==> r.page != RoleRedirect
  {
    match Best(Routes(), segs)
    case None => Render(NotFound, map[])
    case Some(c) => Finish(c, GuardAsWritten(c.route.guard, user), user)
  }

  /** What the router shows for a pathname, with the corrected guards. */
  function Resolve(segs: seq<string>, user: Option<Store.SessionUser>): (r: Outcome)
    ensures r.Redirect? ==> r.to == LoginPath || r.to == HrPath || r.to == ApplicantPath
    ensures r.Render? ==> r.page != RoleRedirect
    ensures user.None? || IsRole(user, "hr") || IsRole(user, "applicant") ==> r == ResolveAsWritten(segs, user)
  {
    match Best(Routes(), segs)
    case None => Render(NotFound, map[])
    case Some(c) => Finish(c, Guarded(c.route.guard, user), user)
  }

  lemma SplatMatchesEverything(segs: seq<string>)
    ensures Best(Routes(), segs).Some?
  {
    assert Routes()[11].pattern == [Splat];
    assert Match(Routes()[11].pattern, segs).Some?;
  }

  /** A page of an HR-only route is rendered only for a user whose role is "hr"; likewise for applicants. */
  lemma RenderedPagesRespectRoles(segs: seq<string>, user: Option<Store.SessionUser>)
    ensures Resolve(segs, user).Render? && Best(Routes(), segs).Some? ==>
      var c := Best(Routes(), segs).value;
      (c.route.guard.HrOnly? ==> IsRole(user, "hr")) && (c.route.guard.ApplicantOnly? ==> IsRole(user, "applicant"))
  {
    var b := Best(Routes(), segs);
    if b.Some? {
      var c := b.value;
      var g := Guarded(c.route.guard, user);
      assert Resolve(segs, user) == Finish(c, g, user);
      assert Finish(c, g, user).Render? ==> g.None?;
    }
  }

  /** The open routes of the table show only the index redirect and the public pages. */
  lemma OpenRoutesArePublic()
    ensures forall r :: r in Routes() && r.guard.Open? ==> r.page in {RoleRedirect, Login, Register, NotFound}
  {
    var rs := Routes();
    forall r | r in rs && r.guard.Open? ensures r.page in {RoleRedirect, Login, Register, NotFound} {
      var i :| 0 <= i < |rs| && rs[i] == r;
      assert i == 0 || i == 9 || i == 10 || i == 11;
    }
  }

  /** A signed-out visitor only ever sees the login page, the registration page or the not-found page. */
  lemma SignedOutSeesPublicPages(segs: seq<string>)
    ensures Resolve(segs, None).Render? ==> Resolve(segs, None).page in {Login, Register, NotFound}
  {
    var b := Best(Routes(), segs);
    if b.Some? {
      OpenRoutesArePublic();
      assert b.value.route in Routes();
    }
  }

  /** A pattern without a splat matches only paths with as many segments, and a leading static segment only a segment of its length. */
  lemma {:induction false} MatchShape(pattern: seq<Seg>, segs: seq<string>)
    requires Match(pattern, segs).Some?
    ensures pattern != [] && pattern[0].Static? ==> segs != [] && |segs[0]| == |pattern[0].text|
    ensures (forall i :: 0 <= i < |pattern| ==> !pattern[i].Splat?) ==> |segs| == |pattern|
    decreases |pattern|
  {
    if pattern != [] && !pattern[0].Splat? {
      MatchShape(pattern[1..], segs[1..]);
      if pattern[0].Static? {
        assert |Lower(segs[0])| == |Lower(pattern[0].text)|;
      }
    }
  }

  /** The position of the first splat segment, or the pattern's length when there is none. */
  function SplatAt(pattern: seq<Seg>): (k: nat)
    ensures k <= |pattern|
    ensures forall i :: 0 <= i < k ==> !pattern[i].Splat?
    ensures k < |pattern| ==> pattern[k].Splat?
  {
    if pattern == [] || pattern[0].Splat? then 0 else 1 + SplatAt(pattern[1..])
  }

  /**
   * When a path fits a pattern, stated without the matcher: without a splat
   * the path has exactly one segment per pattern segment, with a splat at
   * least one per segment before it; and each static segment before the splat
   * equals its path segment up to case.
   */
  predicate Fits(pattern: seq<Seg>, segs: seq<string>)
  {
    var k := SplatAt(pattern);
    (if k == |pattern| then |segs| == k else |segs| >= k)
    && forall i :: 0 <= i < k && i < |segs| && pattern[i].Static? ==> Lower(segs[i]) == Lower(pattern[i].text)
  }

  /** The first pattern segment is not a splat: fitting is that segment fitting, then the rest. */
  lemma FitsStep(pattern: seq<Seg>, segs: seq<string>)
    requires pattern != [] && !pattern[0].Splat?
    ensures Fits(pattern, segs) <==>
      segs != [] && (pattern[0].Static? ==> Lower(segs[0]) == Lower(pattern[0].text)) && Fits(pattern[1..], segs[1..])
  {
    var k := SplatAt(pattern);
    assert k == 1 + SplatAt(pattern[1..]);
    if segs != [] {
      if Fits(pattern, segs) {
        forall i | 0 <= i < k - 1 && i < |segs| - 1 && pattern[1..][i].Static?
          ensures Lower(segs[1..][i]) == Lower(pattern[1..][i].text)
        {
          assert pattern[1..][i] == pattern[i + 1] && segs[1..][i] == segs[i + 1];
        }
      }
      if (pattern[0].Static? ==> Lower(segs[0]) == Lower(pattern[0].text)) && Fits(pattern[1..], segs[1..]) {
        forall i | 0 <= i < k && i < |segs| && pattern[i].Static?
          ensures Lower(segs[i]) == Lower(pattern[i].text)
        {
          if i > 0 {
            assert pattern[1..][i - 1] == pattern[i] && segs[1..][i - 1] == segs[i];
          }
        }
      }
    }
  }

  /** A pattern matches a path exactly when the path fits it. */
  lemma {:induction false} MatchIff(pattern: seq<Seg>, segs: seq<string>)
    ensures Match(pattern, segs).Some? <==> Fits(pattern, segs)
    decreases |pattern|
  {
    if pattern != [] && !pattern[0].Splat? {
      FitsStep(pattern, segs);
      if segs != [] {
        MatchIff(pattern[1..], segs[1..]);
      }
    }
  }

  /**
   * A dynamic segment before the splat captures its path segment under its
   * name; when a name is used twice, the first use wins.
   */
  lemma {:induction false} MatchParam(pattern: seq<Seg>, segs: seq<string>, i: nat)
    requires Match(pattern, segs).Some?
    requires i < SplatAt(pattern) && pattern[i].Param?
    requires forall j :: 0 <= j < i ==> !(pattern[j].Param? && pattern[j].name == pattern[i].name)
    ensures i < |segs|
    ensures pattern[i].name in Match(pattern, segs).value
    ensures Match(pattern, segs).value[pattern[i].name] == segs[i]
    decreases i
  {
    if i > 0 {
      assert pattern[1..][i - 1] == pattern[i];
      forall j | 0 <= j < i - 1
        ensures !(pattern[1..][j].Param? && pattern[1..][j].name == pattern[1..][i - 1].name)
      {
        assert pattern[1..][j] == pattern[j + 1];
      }
      MatchParam(pattern[1..], segs[1..], i - 1);
    }
  }

  /** A splat captures the rest of the path, joined by '/', under "*" (unless a dynamic segment before it is named "*"). */
  lemma {:induction false} MatchSplat(pattern: seq<Seg>, segs: seq<string>)
    requires Match(pattern, segs).Some?
    requires SplatAt(pattern) < |pattern|
    requires forall j :: 0 <= j < SplatAt(pattern) ==> !(pattern[j].Param? && pattern[j].name == "*")
    ensures SplatAt(pattern) <= |segs|
    ensures "*" in Match(pattern, segs).value
    ensures Match(pattern, segs).value["*"] == Join(segs[SplatAt(pattern)..], "/")
    decreases |pattern|
  {
    if !pattern[0].Splat? {
      forall j | 0 <= j < SplatAt(pattern[1..])
        ensures !(pattern[1..][j].Param? && pattern[1..][j].name == "*")
      {
        assert pattern[1..][j] == pattern[j + 1];
      }
      MatchSplat(pattern[1..], segs[1..]);
      assert segs[1..][SplatAt(pattern[1..])..] == segs[SplatAt(pattern)..];
    } else {
      assert segs[0..] == segs;
    }
  }

  /** The captured names are exactly the dynamic segments' names before the splat, and "*" when there is a splat. */
  lemma {:induction false} MatchKeys(pattern: seq<Seg>, segs: seq<string>, key: string)
    requires Match(pattern, segs).Some?
    ensures key in Match(pattern, segs).value <==>
      (exists j :: 0 <= j < SplatAt(pattern) && pattern[j].Param? && pattern[j].name == key)
      || (SplatAt(pattern) < |pattern| && key == "*")
    decreases |pattern|
  {
    if pattern != [] && !pattern[0].Splat? {
      MatchKeys(pattern[1..], segs[1..], key);
      if exists j :: 0 <= j < SplatAt(pattern[1..]) && pattern[1..][j].Param? && pattern[1..][j].name == key {
        var j :| 0 <= j < SplatAt(pattern[1..]) && pattern[1..][j].Param? && pattern[1..][j].name == key;
        assert pattern[j + 1] == pattern[1..][j];
      }
      if exists j :: 0 <= j < SplatAt(pattern) && pattern[j].Param? && pattern[j].name == key {
        var j :| 0 <= j < SplatAt(pattern) && pattern[j].Param? && pattern[j].name == key;
        if j > 0 {
          assert pattern[1..][j - 1] == pattern[j];
        }
      }
    }
  }

  /** The routes that a one-segment path of the given length can match, for the three redirect targets. */
  lemma TargetMatches(to: seq<string>, i: int)
    requires to == LoginPath || to == HrPath || to == ApplicantPath
    requires 0 <= i < |Routes()| && Match(Routes()[i].pattern, to).Some?
    ensures to == LoginPath ==> i == 9 || i == 11
    ensures to == HrPath ==> i == 1 || i == 11
    ensures to == ApplicantPath ==> i == 6 || i == 11
  {
    MatchShape(Routes()[i].pattern, to);
  }

  /** Every redirect the router issues lands on a page that renders: no redirect chains or loops. */
  lemma RedirectTargetRenders(to: seq<string>, user: Option<Store.SessionUser>)
    requires to == LoginPath || (to == HrPath && IsRole(user, "hr")) || (to == ApplicantPath && IsRole(user, "applicant"))
    ensures Resolve(to, user).Render?
  {
    SplatMatchesEverything(to);
    var c := Best(Routes(), to).value;
    var i :| 0 <= i < |Routes()| && Routes()[i] == c.route;
    TargetMatches(to, i);
    TargetRouteRenders(to, user, i);
  }

  /** The routes a redirect target can match show a page to the user the redirect was issued for. */
  lemma TargetRouteRenders(to: seq<string>, user: Option<Store.SessionUser>, i: int)
    requires to == LoginPath || (to == HrPath && IsRole(user, "hr")) || (to == ApplicantPath && IsRole(user, "applicant"))
    requires to == LoginPath ==> i == 9 || i == 11
    requires to == HrPath ==> i == 1 || i == 11
    requires to == ApplicantPath ==> i == 6 || i == 11
    ensures 0 <= i < |Routes()| && Routes()[i].page != RoleRedirect && Guarded(Routes()[i].guard, user).None?
  {
  }

  /** The only redirects are the guards' and the index page's, to /login or to the user's own home. */
  lemma RedirectTargets(segs: seq<string>, user: Option<Store.SessionUser>)
    requires Resolve(segs, user).Redirect?
    ensures var to := Resolve(segs, user).to;
      to == LoginPath || (to == HrPath && IsRole(user, "hr")) || (to == ApplicantPath && IsRole(user, "applicant"))
  {
    var c := Best(Routes(), segs).value;
    var g := Guarded(c.route.guard, user);
    if g.None? {
      assert Resolve(segs, user) == Redirect(RoleBasedRedirect(user));
    }
  }

  lemma RedirectSettles(segs: seq<string>, user: Option<Store.SessionUser>)
    ensures Resolve(segs, user).Redirect? ==> Resolve(Resolve(segs, user).to, user).Render?
  {
    if Resolve(segs, user).Redirect? {
      RedirectTargets(segs, user);
      RedirectTargetRenders(Resolve(segs, user).to, user);
    }
  }

  lemma SplatScore()
    ensures Score(Routes()[11]) == 1
  {
    assert SegsScore([Splat]) == 0;
    assert [Splat][0].Splat?;
  }

  /** winner scores strictly higher than other whenever other matches too. */
  predicate Beats(winner: Route, other: Route, segs: seq<string>)
  {
    Match(other.pattern, segs).Some? ==> Score(other) < Score(winner)
  }

  /** A route that matches and strictly outscores every other matching route is the one chosen. */
  lemma {:induction false} BestIs(routes: seq<Route>, segs: seq<string>, k: int)
    requires 0 <= k < |routes| && Match(routes[k].pattern, segs).Some?
    requires forall i :: 0 <= i < |routes| && i != k ==> Beats(routes[k], routes[i], segs)
    ensures Best(routes, segs).Some? && Best(routes, segs).value.route == routes[k]
  {
    var c := Best(routes, segs).value;
    assert Outranks(c.route, routes[k], segs);
    var i :| 0 <= i < |routes| && routes[i] == c.route;
  }

  /** "/hr" is served by the HR home route, "/applicant" by the applicant home route. */
  lemma BestForHome(to: seq<string>, k: int)
    requires (to == HrPath && k == 1) || (to == ApplicantPath && k == 6)
    ensures Best(Routes(), to).Some? && Best(Routes(), to).value.route == Routes()[k]
  {
    SplatScore();
    forall i | 0 <= i < |Routes()| && i != k ensures Beats(Routes()[k], Routes()[i], to) {
      if Match(Routes()[i].pattern, to).Some? { TargetMatches(to, i); }
      assert SegsScore(Routes()[k].pattern) == 10;
    }
    BestIs(Routes(), to, k);
  }

  /**
   * "/applicant/about" matches both "/applicant/about" and "/applicant/:vacancyId";
   * the static route scores higher, so an applicant sees the about page.
   */
  lemma StaticOutranksDynamic(user: Option<Store.SessionUser>)
    requires IsRole(user, "applicant")
    ensures Resolve(["applicant", "about"], user) == Render(About, map[])
  {
    var segs := ["applicant", "about"];
    AboutIsBest();
    var c := Best(Routes(), segs).value;
    assert c.route.guard == ApplicantOnly && c.route.page == About && c.params == map[];
    assert Guarded(c.route.guard, user).None?;
  }

  /** "/applicant/about" is served by the static about route, with no parameters. */
  lemma AboutIsBest()
    ensures Best(Routes(), ["applicant", "about"]).Some?
    ensures Best(Routes(), ["applicant", "about"]).value.route == Routes()[8]
    ensures Best(Routes(), ["applicant", "about"]).value.params == map[]
  {
    var segs := ["applicant", "about"];
    SplatScore();
    assert SegsScore(Routes()[8].pattern) == 20 by {
      assert Routes()[8].pattern[..1] == [Static("applicant")];
    }
    assert SegsScore(Routes()[7].pattern) == 13 by {
      assert Routes()[7].pattern[..1] == [Static("applicant")];
    }
    forall i | 0 <= i < |Routes()| && i != 8 ensures Beats(Routes()[8], Routes()[i], segs) {
      if Match(Routes()[i].pattern, segs).Some? { MatchShape(Routes()[i].pattern, segs); }
    }
    assert Match(Routes()[8].pattern, segs) == Some(map[]);
    BestIs(Routes(), segs, 8);
  }

  /**
   * With the guards as written, a signed-in user whose role is neither "hr"
   * nor "applicant" is sent from /hr to /applicant and from /applicant back to /hr.
   */
  lemma RedirectLoopAsWritten(user: Option<Store.SessionUser>)
    requires user.Some? && user.value.role !in {"hr", "applicant"}
    ensures ResolveAsWritten(HrPath, user) == Redirect(ApplicantPath)
    ensures ResolveAsWritten(ApplicantPath, user) == Redirect(HrPath)
  {
    HomeBouncesAsWritten(HrPath, 1, user);
    HomeBouncesAsWritten(ApplicantPath, 6, user);
  }

  /** One half of the loop: the home route of one area sends such a user to the other area. */
  lemma HomeBouncesAsWritten(to: seq<string>, k: int, user: Option<Store.SessionUser>)
    requires (to == HrPath && k == 1) || (to == ApplicantPath && k == 6)
    requires user.Some? && user.value.role !in {"hr", "applicant"}
    ensures ResolveAsWritten(to, user) == Redirect(if to == HrPath then ApplicantPath else HrPath)
  {
    BestForHome(to, k);
    HomeGuardAsWritten(to, k, user);
    ResolveAsWrittenChoice(to, user);
  }

  lemma HomeGuardAsWritten(to: seq<string>, k: int, user: Option<Store.SessionUser>)
    requires (to == HrPath && k == 1) || (to == ApplicantPath && k == 6)
    requires user.Some? && user.value.role !in {"hr", "applicant"}
    ensures 0 <= k < |Routes()|
    ensures GuardAsWritten(Routes()[k].guard, user) == Some(if to == HrPath then ApplicantPath else HrPath)
  {
  }

  /** With a matching route, the router as written applies that route's guard. */
  lemma ResolveAsWrittenChoice(segs: seq<string>, user: Option<Store.SessionUser>)
    requires Best(Routes(), segs).Some?
    ensures var c := Best(Routes(), segs).value;
      ResolveAsWritten(segs, user) == Finish(c, GuardAsWritten(c.route.guard, user), user)
  {
  }
}
