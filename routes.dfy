/**
 * The two route tables (campaigns and submissions) as data: for each method and
 * path pattern, the middleware that runs before the handler. Together they are
 * the access policy: public reads and public intake, admin or editor to write
 * a campaign, admin only to delete one, any signed-in user to list or export
 * submissions.
 */
module Routes {
  import opened Wrappers
  import opened Strings
  import opened Auth

  datatype Verb = Get | Post | Put | Delete

  /** A pattern segment: literal text or a `:name` parameter. */
  datatype Segment = Lit(text: string) | Param(name: string)

  datatype Guard = RequireToken | RequireRole(roles: seq<string>)

  datatype Handler =
    | GetCampaigns | GetCampaignById | CreateCampaign | UpdateCampaign | DeleteCampaign
    | CreateSubmission | GetSubmissionsByCampaign | ExportSubmissions

  datatype Route = Route(verb: Verb, pattern: seq<Segment>, guards: seq<Guard>, handler: Handler)

  const Writers: seq<string> := ["admin", "editor"]
  const Admins: seq<string> := ["admin"]

  /** The campaign router, mounted at `/campaigns`. */
  const CampaignRoutes: seq<Route> := [
    Route(Get, [Lit("campaigns")], [], GetCampaigns),
    Route(Get, [Lit("campaigns"), Param("id")], [], GetCampaignById),
    Route(Post, [Lit("campaigns")], [RequireToken, RequireRole(Writers)], CreateCampaign),
    Route(Put, [Lit("campaigns"), Param("id")], [RequireToken, RequireRole(Writers)], UpdateCampaign),
    Route(Delete, [Lit("campaigns"), Param("id")], [RequireToken, RequireRole(Admins)], DeleteCampaign)
  ]

  /** The submission router, mounted at `/submissions`. */
  const SubmissionRoutes: seq<Route> := [
    Route(Post, [Lit("submissions")], [], CreateSubmission),
    Route(Get, [Lit("submissions"), Lit("campaign"), Param("campaignId")], [RequireToken], GetSubmissionsByCampaign),
    Route(Get, [Lit("submissions"), Lit("campaign"), Param("campaignId"), Lit("export")], [RequireToken], ExportSubmissions)
  ]

  const Table: seq<Route> := CampaignRoutes + SubmissionRoutes

  /** The segments of a path: `/a/b` gives `a`, `b`; a trailing slash is ignored, as non-strict routing does. */
  function Segments(path: string): seq<string>
  {
    var parts := Split(path, '/');
    var p := if parts[0] == "" then parts[1..] else parts;
    if |p| > 0 && p[|p| - 1] == "" then p[..|p| - 1] else p
  }

  /** Matching a pattern: literals compare equal, a parameter takes one non-empty segment. */
  function MatchPattern(pattern: seq<Segment>, segs: seq<string>): (r: Option<map<string, string>>)
    ensures r.Some? ==> |pattern| == |segs|
  {
    if pattern == [] then (if segs == [] then Some(map[]) else None)
    else if segs == [] then None
    else
      var head := match pattern[0]
        case Lit(t) => if segs[0] == t then Some(map[]) else None
        case Param(n) => if segs[0] != "" then Some(map[n := segs[0]]) else None;
      match (head, MatchPattern(pattern[1..], segs[1..]))
      case (Some(h), Some(rest)) => Some(h + rest)
      case _ => None
  }

  /** The first route, in registration order, with this verb whose pattern matches the path. */
  function Resolve(routes: seq<Route>, verb: Verb, path: string): (r: Option<(Route, map<string, string>)>)
    ensures r.Some? ==>
      r.value.0 in routes && r.value.0.verb == verb && MatchPattern(r.value.0.pattern, Segments(path)) == Some(r.value.1)
  {
    ResolveFrom(routes, 0, verb, Segments(path))
  }

  function ResolveFrom(routes: seq<Route>, i: nat, verb: Verb, segs: seq<string>): (r: Option<(Route, map<string, string>)>)
    requires i <= |routes|
    ensures r.Some? ==>
      r.value.0 in routes[i..] && r.value.0.verb == verb && MatchPattern(r.value.0.pattern, segs) == Some(r.value.1)
    decreases |routes| - i
  {
    if i == |routes| then None
    else if routes[i].verb == verb && MatchPattern(routes[i].pattern, segs).Some? then
      Some((routes[i], MatchPattern(routes[i].pattern, segs).value))
    else ResolveFrom(routes, i + 1, verb, segs)
  }

  /** The result of the middleware chain, run in order. */
  datatype Decision = Admitted(user: Option<User>) | Refused(status: nat, message: string)

  function RunGuards(guards: seq<Guard>, header: Option<string>, verify: string -> Option<Claims>,
                     user: Option<User>): Decision
  {
    if guards == [] then Admitted(user)
    else
      match guards[0]
      case RequireToken =>
        (match Authenticated(header, verify)
         case Accepted(u) => RunGuards(guards[1..], header, verify, Some(u))
         case Rejected(m) => Refused(401, m))
      case RequireRole(roles) =>
        if Permits(roles, user) then RunGuards(guards[1..], header, verify, user)
        else Refused(403, ForbiddenMessage)
  }

  /** What happens to one request: no route, refused by a guard, or handed to a handler. */
  datatype Outcome =
    | NoRoute
    | Denied(status: nat, message: string)
    | Handled(handler: Handler, params: map<string, string>, user: Option<User>)

  function Access(verb: Verb, path: string, header: Option<string>, verify: string -> Option<Claims>): Outcome
  {
    match Resolve(Table, verb, path)
    case None => NoRoute
    case Some((route, params)) =>
      match RunGuards(route.guards, header, verify, None)
      case Refused(s, m) => Denied(s, m)
      case Admitted(u) => Handled(route.handler, params, u)
  }

  // ---------------------------------------------------------------- paths

  /** A path parameter as the client writes one: non-empty and without a slash. */
  predicate PlainSegment(s: string)
  {
    s != "" && '/' !in s
  }

  lemma SegmentsOfOne(a: string)
    requires PlainSegment(a)
    ensures Segments("/" + a) == [a]
  {
    assert "/" + a == [] + ['/'] + a;
    SplitAtSeparator([], a, '/');
    SplitWithoutSeparator(a, '/');
  }

  lemma SegmentsOfTwo(a: string, b: string)
    requires PlainSegment(a) && PlainSegment(b)
    ensures Segments("/" + a + "/" + b) == [a, b]
  {
    assert "/" + a + "/" + b == [] + ['/'] + (a + ['/'] + b);
    SplitAtSeparator([], a + ['/'] + b, '/');
    SplitAtSeparator(a, b, '/');
    SplitWithoutSeparator(b, '/');
  }

  lemma SegmentsOfThree(a: string, b: string, c: string)
    requires PlainSegment(a) && PlainSegment(b) && PlainSegment(c)
    ensures Segments("/" + a + "/" + b + "/" + c) == [a, b, c]
  {
    assert "/" + a + "/" + b + "/" + c == [] + ['/'] + (a + ['/'] + (b + ['/'] + c));
    SplitAtSeparator([], a + ['/'] + (b + ['/'] + c), '/');
    SplitAtSeparator(a, b + ['/'] + c, '/');
    SplitAtSeparator(b, c, '/');
    SplitWithoutSeparator(c, '/');
  }

  lemma SegmentsOfFour(a: string, b: string, c: string, d: string)
    requires PlainSegment(a) && PlainSegment(b) && PlainSegment(c) && PlainSegment(d)
    ensures Segments("/" + a + "/" + b + "/" + c + "/" + d) == [a, b, c, d]
  {
    assert "/" + a + "/" + b + "/" + c + "/" + d == [] + ['/'] + (a + ['/'] + (b + ['/'] + (c + ['/'] + d)));
    SplitAtSeparator([], a + ['/'] + (b + ['/'] + (c + ['/'] + d)), '/');
    SplitAtSeparator(a, b + ['/'] + (c + ['/'] + d), '/');
    SplitAtSeparator(b, c + ['/'] + d, '/');
    SplitAtSeparator(c, d, '/');
    SplitWithoutSeparator(d, '/');
  }

  // ---------------------------------------------------------------- the policy

  /** Every guarded route checks the token before anything else. */
  lemma TokenCheckedFirst()
    ensures forall r :: r in Table && r.guards != [] ==> r.guards[0] == RequireToken
  {
  }

  /** A request without a bearer token is answered 401 by every guarded route, never 403. */
  lemma {:induction false} NoTokenIsUnauthorized(guards: seq<Guard>, header: Option<string>,
                                                 verify: string -> Option<Claims>, user: Option<User>)
    requires guards != [] && guards[0] == RequireToken
    requires ExtractToken(header).None?
    ensures RunGuards(guards, header, verify, user) == Refused(401, NoTokenMessage)
  {
  }

  /** The two guard chains of the tables: a token alone, or a token and then a role. */
  lemma TokenChain(header: Option<string>, verify: string -> Option<Claims>, user: Option<User>)
    ensures RunGuards([RequireToken], header, verify, user).Admitted? <==> RoleOf(header, verify).Some?
    ensures !RunGuards([RequireToken], header, verify, user).Admitted? ==>
      RunGuards([RequireToken], header, verify, user).status == 401
  {
  }

  lemma RoleChain(roles: seq<string>, header: Option<string>, verify: string -> Option<Claims>, user: Option<User>)
    ensures var d := RunGuards([RequireToken, RequireRole(roles)], header, verify, user);
      && (d.Admitted? <==> RoleOf(header, verify).Some? && RoleOf(header, verify).value in roles)
      && (RoleOf(header, verify).None? ==> d.Refused? && d.status == 401)
      && (RoleOf(header, verify).Some? && RoleOf(header, verify).value !in roles ==> d == Refused(403, ForbiddenMessage))
  {
    var chain := [RequireToken, RequireRole(roles)];
    assert chain[1..] == [RequireRole(roles)];
    assert [RequireRole(roles)][1..] == [];
    match Authenticated(header, verify)
    case Accepted(u) =>
      assert RunGuards(chain, header, verify, user) == RunGuards([RequireRole(roles)], header, verify, Some(u));
    case Rejected(m) =>
      assert RunGuards(chain, header, verify, user) == Refused(401, m);
  }

  // ---------------------------------------------------------------- resolution

  predicate Fits(r: Route, verb: Verb, segs: seq<string>)
  {
    r.verb == verb && MatchPattern(r.pattern, segs).Some?
  }

  /** Routes that do not fit are passed over, in order. */
  lemma {:induction false} SkipTo(routes: seq<Route>, i: nat, j: nat, verb: Verb, segs: seq<string>)
    requires i <= j <= |routes|
    requires forall k :: i <= k < j ==> !Fits(routes[k], verb, segs)
    ensures ResolveFrom(routes, i, verb, segs) == ResolveFrom(routes, j, verb, segs)
    decreases j - i
  {
    if i < j {
      SkipTo(routes, i + 1, j, verb, segs);
    }
  }

  /** A one-parameter tail matches one non-empty segment and binds it. */
  lemma MatchParam(name: string, seg: string)
    requires seg != ""
    ensures MatchPattern([Param(name)], [seg]) == Some(map[name := seg])
  {
    assert map[name := seg] + map[] == map[name := seg];
  }

  lemma TableShape()
    ensures |Table| == 8
    ensures forall k :: 0 <= k < 5 ==> Table[k] == CampaignRoutes[k]
    ensures forall k :: 5 <= k < 8 ==> Table[k] == SubmissionRoutes[k - 5]
  {
  }

  /** The first route that fits is the one chosen. */
  lemma FirstFit(routes: seq<Route>, k: nat, verb: Verb, segs: seq<string>, params: map<string, string>)
    requires k < |routes|
    requires forall j :: 0 <= j < k ==> !Fits(routes[j], verb, segs)
    requires routes[k].verb == verb && MatchPattern(routes[k].pattern, segs) == Some(params)
    ensures ResolveFrom(routes, 0, verb, segs) == Some((routes[k], params))
  {
    SkipTo(routes, 0, k, verb, segs);
  }

  lemma PathCampaigns()
    ensures Segments("/campaigns") == ["campaigns"]
  {
    SegmentsOfOne("campaigns");
    assert "/campaigns" == "/" + "campaigns";
  }

  lemma PathCampaign(id: string)
    requires PlainSegment(id)
    ensures Segments("/campaigns/" + id) == ["campaigns", id]
  {
    SegmentsOfTwo("campaigns", id);
    assert "/campaigns/" + id == "/" + "campaigns" + "/" + id;
  }

  lemma PathSubmissions()
    ensures Segments("/submissions") == ["submissions"]
  {
    SegmentsOfOne("submissions");
    assert "/submissions" == "/" + "submissions";
  }

  lemma PathCampaignSubmissions(id: string)
    requires PlainSegment(id)
    ensures Segments("/submissions/campaign/" + id) == ["submissions", "campaign", id]
  {
    SegmentsOfThree("submissions", "campaign", id);
    ListingPrefix();
  }

  lemma ListingPrefix()
    ensures "/" + "submissions" + "/" + "campaign" + "/" == "/submissions/campaign/"
  {
  }

  lemma PathExport(id: string)
    requires PlainSegment(id)
    ensures Segments("/submissions/campaign/" + id + "/export") == ["submissions", "campaign", id, "export"]
  {
    SegmentsOfFour("submissions", "campaign", id, "export");
    ListingPrefix();
    var front := "/" + "submissions" + "/" + "campaign" + "/";
    assert front + id + "/" + "export" == front + id + "/export";
  }

  /** `[campaigns, id]` against the id pattern. */
  lemma MatchCampaignId(id: string)
    requires id != ""
    ensures MatchPattern([Lit("campaigns"), Param("id")], ["campaigns", id]) == Some(map["id" := id])
  {
    MatchParam("id", id);
    assert [Lit("campaigns"), Param("id")][1..] == [Param("id")];
    assert ["campaigns", id][1..] == [id];
    assert map[] + map["id" := id] == map["id" := id];
  }

  lemma MatchCampaignSubmissions(id: string)
    requires id != ""
    ensures MatchPattern([Lit("submissions"), Lit("campaign"), Param("campaignId")], ["submissions", "campaign", id])
      == Some(map["campaignId" := id])
  {
    MatchParam("campaignId", id);
    var p, q := [Lit("submissions"), Lit("campaign"), Param("campaignId")], ["submissions", "campaign", id];
    assert p[1..][1..] == [Param("campaignId")] && q[1..][1..] == [id];
    assert MatchPattern(p[1..], q[1..]) == Some(map[] + map["campaignId" := id]);
    assert map[] + map["campaignId" := id] == map["campaignId" := id];
  }

  lemma MatchExport(id: string)
    requires id != ""
    ensures MatchPattern([Lit("submissions"), Lit("campaign"), Param("campaignId"), Lit("export")],
                         ["submissions", "campaign", id, "export"]) == Some(map["campaignId" := id])
  {
    var p, q := [Lit("submissions"), Lit("campaign"), Param("campaignId"), Lit("export")],
                ["submissions", "campaign", id, "export"];
    assert p[1..][1..][1..] == [Lit("export")] && q[1..][1..][1..] == ["export"];
    assert MatchPattern(p[1..][1..][1..], q[1..][1..][1..]) == Some(map[]);
    assert p[1..][1..][0] == Param("campaignId") && q[1..][1..][0] == id;
    assert MatchPattern(p[1..][1..], q[1..][1..]) == Some(map["campaignId" := id] + map[]);
    assert map["campaignId" := id] + map[] == map["campaignId" := id];
    assert map[] + map["campaignId" := id] == map["campaignId" := id];
  }

  /** The paths the client sends reach the routes the tables list for them, with the id bound. */
  lemma FitCampaignList()
    ensures ResolveFrom(Table, 0, Get, ["campaigns"]) == Some((Table[0], map[]))
  {
    TableShape();
    var none: map<string, string> := map[];
    assert none + none == none;
    assert MatchPattern(Table[0].pattern, ["campaigns"]) == Some(map[]);
    FirstFit(Table, 0, Get, ["campaigns"], map[]);
  }

  lemma ResolveCampaignList()
    ensures Resolve(Table, Get, "/campaigns") == Some((Table[0], map[]))
  {
    PathCampaigns();
    FitCampaignList();
  }

  lemma FitCampaignCreate()
    ensures ResolveFrom(Table, 0, Post, ["campaigns"]) == Some((Table[2], map[]))
  {
    TableShape();
    assert !Fits(Table[0], Post, ["campaigns"]) && !Fits(Table[1], Post, ["campaigns"]);
    var none: map<string, string> := map[];
    assert none + none == none;
    assert MatchPattern(Table[2].pattern, ["campaigns"]) == Some(map[]);
    FirstFit(Table, 2, Post, ["campaigns"], map[]);
  }

  lemma ResolveCampaignCreate()
    ensures Resolve(Table, Post, "/campaigns") == Some((Table[2], map[]))
  {
    PathCampaigns();
    FitCampaignCreate();
  }

  lemma ResolveCampaignById(verb: Verb, id: string)
    requires PlainSegment(id)
    requires verb != Post
    ensures Resolve(Table, verb, "/campaigns/" + id)
      == Some((Table[match verb case Get => 1 case Put => 3 case _ => 4], map["id" := id]))
  {
    TableShape();
    PathCampaign(id);
    MatchCampaignId(id);
    var k := match verb case Get => 1 case Put => 3 case _ => 4;
    assert MatchPattern(Table[0].pattern, ["campaigns", id]).None?;
    FirstFit(Table, k, verb, ["campaigns", id], map["id" := id]);
  }

  lemma FitIntake()
    ensures ResolveFrom(Table, 0, Post, ["submissions"]) == Some((Table[5], map[]))
  {
    TableShape();
    var segs := ["submissions"];
    assert !Fits(Table[0], Post, segs) && !Fits(Table[1], Post, segs);
    assert !Fits(Table[3], Post, segs) && !Fits(Table[4], Post, segs);
    assert MatchPattern(Table[2].pattern, segs).None?;
    var none: map<string, string> := map[];
    assert none + none == none;
    assert MatchPattern(Table[5].pattern, segs) == Some(map[]);
    FirstFit(Table, 5, Post, segs, map[]);
  }

  lemma ResolveIntake()
    ensures Resolve(Table, Post, "/submissions") == Some((Table[5], map[]))
  {
    PathSubmissions();
    FitIntake();
  }

  lemma ResolveListing(id: string)
    requires PlainSegment(id)
    ensures Resolve(Table, Get, "/submissions/campaign/" + id) == Some((Table[6], map["campaignId" := id]))
  {
    TableShape();
    PathCampaignSubmissions(id);
    MatchCampaignSubmissions(id);
    var segs := ["submissions", "campaign", id];
    assert MatchPattern(Table[0].pattern, segs).None? && MatchPattern(Table[1].pattern, segs).None?;
    FirstFit(Table, 6, Get, segs, map["campaignId" := id]);
  }

  lemma ResolveExport(id: string)
    requires PlainSegment(id)
    ensures Resolve(Table, Get, "/submissions/campaign/" + id + "/export") == Some((Table[7], map["campaignId" := id]))
  {
    TableShape();
    PathExport(id);
    MatchExport(id);
    var segs := ["submissions", "campaign", id, "export"];
    assert MatchPattern(Table[0].pattern, segs).None? && MatchPattern(Table[1].pattern, segs).None?;
    assert MatchPattern(Table[6].pattern, segs).None?;
    FirstFit(Table, 7, Get, segs, map["campaignId" := id]);
  }

  // ---------------------------------------------------------------- the policy

  /** Listing campaigns and reading one need no token. */
  lemma CampaignReadsArePublic(id: string, header: Option<string>, verify: string -> Option<Claims>)
    requires PlainSegment(id)
    ensures Access(Get, "/campaigns", header, verify) == Handled(GetCampaigns, map[], None)
    ensures Access(Get, "/campaigns/" + id, header, verify) == Handled(GetCampaignById, map["id" := id], None)
  {
    ResolveCampaignList();
    ResolveCampaignById(Get, id);
  }

  /** Creating a submission needs no token. */
  lemma IntakeIsPublic(header: Option<string>, verify: string -> Option<Claims>)
    ensures Access(Post, "/submissions", header, verify) == Handled(CreateSubmission, map[], None)
  {
    ResolveIntake();
  }

  /** Creating a campaign needs a valid token whose role is admin or editor; without a token the answer is 401. */
  lemma CampaignCreateNeedsWriter(header: Option<string>, verify: string -> Option<Claims>)
    ensures var create := Access(Post, "/campaigns", header, verify);
      && (create.Handled? <==> RoleOf(header, verify).Some? && RoleOf(header, verify).value in Writers)
      && (create.Handled? ==> create.handler == CreateCampaign)
      && (RoleOf(header, verify).None? ==> create.Denied? && create.status == 401)
  {
    ResolveCampaignCreate();
    RoleChain(Writers, header, verify, None);
  }

  /** Updating a campaign needs a valid token whose role is admin or editor; another role gets 403. */
  lemma CampaignUpdateNeedsWriter(id: string, header: Option<string>, verify: string -> Option<Claims>)
    requires PlainSegment(id)
    ensures var update := Access(Put, "/campaigns/" + id, header, verify);
      && (update.Handled? <==> RoleOf(header, verify).Some? && RoleOf(header, verify).value in Writers)
      && (update.Handled? ==> update.handler == UpdateCampaign && update.params == map["id" := id])
      && (RoleOf(header, verify).Some? && RoleOf(header, verify).value !in Writers ==>
            update == Denied(403, ForbiddenMessage))
  {
    ResolveCampaignById(Put, id);
    RoleChain(Writers, header, verify, None);
  }

  /**
   * Only an admin can delete a campaign: without a valid token the answer is 401,
   * and an editor or viewer (any role other than admin) gets 403.
   */
  lemma OnlyAdminDeletes(id: string, header: Option<string>, verify: string -> Option<Claims>)
    requires PlainSegment(id)
    ensures Access(Delete, "/campaigns/" + id, header, verify).Handled? <==> RoleOf(header, verify) == Some("admin")
    ensures RoleOf(header, verify).None? ==>
      Access(Delete, "/campaigns/" + id, header, verify).Denied? && Access(Delete, "/campaigns/" + id, header, verify).status == 401
    ensures RoleOf(header, verify).Some? && RoleOf(header, verify) != Some("admin") ==>
      Access(Delete, "/campaigns/" + id, header, verify) == Denied(403, ForbiddenMessage)
  {
    ResolveCampaignById(Delete, id);
    RoleChain(Admins, header, verify, None);
  }

  /** Listing and exporting submissions need a valid token and nothing more: any role, viewer included. */
  lemma SubmissionReadsNeedToken(id: string, header: Option<string>, verify: string -> Option<Claims>)
    requires PlainSegment(id)
    ensures var list := Access(Get, "/submissions/campaign/" + id, header, verify);
      && (list.Handled? <==> RoleOf(header, verify).Some?)
      && (list.Handled? ==> list.handler == GetSubmissionsByCampaign && list.params == map["campaignId" := id])
      && (!list.Handled? ==> list.Denied? && list.status == 401)
    ensures var exported := Access(Get, "/submissions/campaign/" + id + "/export", header, verify);
      && (exported.Handled? <==> RoleOf(header, verify).Some?)
      && (exported.Handled? ==> exported.handler == ExportSubmissions && exported.params == map["campaignId" := id])
      && (!exported.Handled? ==> exported.Denied? && exported.status == 401)
  {
    ResolveListing(id);
    ResolveExport(id);
    TokenChain(header, verify, None);
  }
}
