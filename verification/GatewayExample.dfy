/**
 One application router, one probe router, two middlewares: which of their variants pass the audit,
 and which of those that pass send the probes where they belong.
 */
module GatewayExample {
  import opened Text
  import opened Middlewares
  import opened RuleTokens
  import opened RuleSyntax
  import opened RuleVerdict
  import opened Gateway
  import opened GatewayGuarantee
  import opened GatewayGap
  import opened CallRules
  import GatewayAudit

  const BOTH := Items([Value.Text("web"), Value.Text("websecure")])
  const REWRITE := Fields([("regex", Value.Text(PROBE_REGEX)), ("replacement", Value.Text(PROBE_REPLACEMENT))])
  const DEFS: Definitions := map[
    HEADERS := Fields([("headers", Fields([]))]),
    "probe-rewrite" := Fields([("replacePathRegex", REWRITE)])]

  function ProbePaths(): seq<string> {
    [PREFIX + "/healthz", PREFIX + "/readyz", PREFIX + "/version"]
  }

  function AppRouter(): Router {
    Router(Rule("PathPrefix", Or, [PREFIX]), Int(100), BOTH, Value.Text(SERVICE), Items([Value.Text(HEADERS)]), Fields([]))
  }

  /** The three probe paths, joined by || as they should be, or by &&. */
  function ProbeRouter(joiner: Joiner): Router {
    Router(Rule("Path", joiner, ProbePaths()), Int(200), BOTH, Value.Text(SERVICE),
           Items([Value.Text(HEADERS), Value.Text("probe-rewrite")]), Fields([]))
  }

  function Example(joiner: Joiner): Config {
    Config(Routers(ProbeRouter(joiner), AppRouter()), DEFS)
  }

  // ----- the application rule -----

  lemma {:induction false} CountNone(s: string, part: string)
    requires part != "" && part[0] !in s
    ensures Count(s, part) == 0
    decreases |s|
  {
    if s != "" {
      assert s[0] in s && forall c <- s[1..] :: c in s;
      CountNone(s[1..], part);
    }
  }

  lemma {:induction false} ContainsAt(s: string, part: string)
    requires Contains(s, part)
    ensures exists i: nat :: At(s, i, part)
    decreases |s|
  {
    if part <= s {
      assert At(s, 0, part);
    } else {
      ContainsAt(s[1..], part);
      var i: nat :| At(s[1..], i, part);
      assert s[i + 1..i + 1 + |part|] == s[1..][i..i + |part|];
      assert At(s, i + 1, part);
    }
  }

  lemma NoPathCall(s: string, tail: string)
    requires s == "PathPrefix" + tail && 'P' !in tail
    ensures !Contains(s, "Path(")
  {
    forall i: nat
      ensures !At(s, i, "Path(")
    {
      if i == 0 || i == 4 {
        NotAt(s, i, "Path(", 4);
      } else {
        assert 10 <= i < |s| ==> s[i] == tail[i - 10];
        NotAt(s, i, "Path(", 0);
      }
    }
    if Contains(s, "Path(") {
      ContainsAt(s, "Path(");
    }
  }

  /** Without Path( there is nothing for Path to capture. */
  lemma {:induction false} NoPathCapturesFrom(s: string, i: nat)
    requires forall k: nat :: !At(s, k, "Path(")
    ensures Captures(s, i, "Path") == {}
    decreases |s| - i
  {
    if i < |s| {
      if At(s, i, "Path" + "(`") {
        assert "Path" + "(`" == "Path(" + "`";
        AtSplit(s, i, "Path(", "`");
      }
      NoPathCapturesFrom(s, i + 1);
    }
  }

  lemma {:induction false} AtContains(s: string, i: nat, part: string)
    requires At(s, i, part)
    ensures Contains(s, part)
    decreases i
  {
    if i > 0 && s != "" {
      assert s[1..][i - 1..i - 1 + |part|] == s[i..i + |part|];
      AtContains(s[1..], i - 1, part);
    }
  }

  lemma NoPathCaptures(s: string)
    requires !Contains(s, "Path(")
    ensures Captures(s, 0, "Path") == {}
  {
    forall k: nat
      ensures !At(s, k, "Path(")
    {
      if At(s, k, "Path(") {
        AtContains(s, k, "Path(");
      }
    }
    NoPathCapturesFrom(s, 0);
  }

  lemma PrefixRoles(r: Router, prefix: string)
    requires r.rule == Rule("PathPrefix", Or, [prefix]) && prefix != "" && '`' !in prefix && 'P' !in prefix
    ensures Captures(r.rule, 0, "PathPrefix") == {prefix} && Captures(r.rule, 0, "Path") == {}
    ensures Count(r.rule, "PathPrefix") == 1 && !Contains(r.rule, "Path(")
  {
    RuleReads("PathPrefix", Or, [prefix]);
    OnePrefix(r.rule, prefix);
    assert ArgSet([prefix]) == {prefix} + ArgSet([]);
  }

  lemma AppRoles()
    ensures Captures(AppRouter().rule, 0, "PathPrefix") == {PREFIX} && Captures(AppRouter().rule, 0, "Path") == {}
    ensures Count(AppRouter().rule, "PathPrefix") == 1 && !Contains(AppRouter().rule, "Path(")
    ensures RoleOf(AppRouter()) == App
  {
    PrefixRoles(AppRouter(), PREFIX);
    RoleByCaptures(AppRouter(), PREFIX);
  }

  lemma RoleByCaptures(r: Router, path: string)
    ensures PREFIX in Captures(r.rule, 0, "PathPrefix") ==> RoleOf(r) == App
    ensures Captures(r.rule, 0, "PathPrefix") == {} && path in Captures(r.rule, 0, "Path") && PREFIX + "/" <= path ==>
      RoleOf(r) == Probe
  {
  }

  lemma OnePrefix(s: string, prefix: string)
    requires s == Call("PathPrefix", prefix) && 'P' !in prefix
    ensures Count(s, "PathPrefix") == 1 && !Contains(s, "Path(") && Captures(s, 0, "Path") == {}
  {
    var tail := "(`" + (prefix + "`)");
    assert 'P' !in tail;
    NoPathCall(s, tail);
    CountNone(tail, "PathPrefix");
    assert "PathPrefix" <= s && s[10..] == tail;
    NoPathCaptures(s);
  }

  // ----- the probe rule -----

  lemma {:induction false} NoneIn(word: string, joiner: Joiner, args: seq<string>, c: char)
    requires args != [] && c !in word && c != SignChar(joiner) && c != '(' && c != ')' && c != '`'
    requires forall a <- args :: c !in a
    ensures c !in Rule(word, joiner, args)
    decreases |args|
  {
    assert c !in Call(word, args[0]) && c !in SignText(joiner);
    if |args| > 1 {
      NoneIn(word, joiner, args[1..], c);
    }
  }

  lemma PlainProbePaths()
    ensures PlainArgs(ProbePaths()) && (forall p <- ProbePaths() :: 'x' !in p)
  {
    assert '`' !in PREFIX && 'x' !in PREFIX;
  }

  lemma ProbePathsAre(path: string)
    ensures path in ProbePaths() <==> IsProbePath(path)
  {
    ProbeSpelled();
    var paths := ProbePaths();
    assert PROBES[0] in PROBES && PROBES[1] in PROBES && PROBES[2] in PROBES && |PROBES| == 3;
    assert paths[0] in paths && paths[1] in paths && paths[2] in paths && |paths| == 3;
  }

  lemma ProbePathsDiffer()
    ensures exists a <- ProbePaths(), b <- ProbePaths() :: a != b
  {
    var a, b := ProbePaths()[0], ProbePaths()[1];
    assert a in ProbePaths() && b in ProbePaths() && |a| != |b|;
  }

  lemma {:induction false} ArgSetExact(args: seq<string>, a: string)
    ensures a in ArgSet(args) <==> a in args
    decreases |args|
  {
    if args != [] {
      ArgSetExact(args[1..], a);
    }
  }

  lemma ProbeSet()
    ensures ArgSet(ProbePaths()) == (set p <- PROBES :: PREFIX + "/" + p)
  {
    forall path: string
      ensures path in ArgSet(ProbePaths()) <==> path in (set p <- PROBES :: PREFIX + "/" + p)
    {
      ArgSetExact(ProbePaths(), path);
      ProbePathsAre(path);
    }
  }

  lemma PathRoles(r: Router, joiner: Joiner, paths: seq<string>)
    requires PlainArgs(paths) && r.rule == Rule("Path", joiner, paths) && forall p <- paths :: 'x' !in p
    ensures Captures(r.rule, 0, "PathPrefix") == {} && Captures(r.rule, 0, "Path") == ArgSet(paths)
  {
    RuleReads("Path", joiner, paths);
    NoneIn("Path", joiner, paths, 'x');
    NoCaptures(r.rule, 0, "PathPrefix", 9);
  }

  /** The audit captures the same from both rules. */
  lemma ProbeRoles(joiner: Joiner)
    ensures Captures(ProbeRouter(joiner).rule, 0, "PathPrefix") == {}
    ensures Captures(ProbeRouter(joiner).rule, 0, "Path") == (set p <- PROBES :: PREFIX + "/" + p)
    ensures RoleOf(ProbeRouter(joiner)) == Probe
  {
    PlainProbePaths();
    PathRoles(ProbeRouter(joiner), joiner, ProbePaths());
    ProbeSet();
    HealthzIsProbe();
    RoleByCaptures(ProbeRouter(joiner), PREFIX + "/" + PROBES[0]);
  }

  lemma HealthzIsProbe()
    ensures PREFIX + "/" + PROBES[0] in (set p <- PROBES :: PREFIX + "/" + p) && PREFIX + "/" <= PREFIX + "/" + PROBES[0]
  {
    assert PROBES[0] in PROBES;
  }

  // ----- both variants pass -----

  lemma {:induction false} NoProvider(s: string, i: nat)
    requires '@' !in s && i <= |s|
    ensures Find(s, i, '@') == |s|
    decreases |s| - i
  {
    if i < |s| {
      assert s[i] in s;
      NoProvider(s, i + 1);
    }
  }

  lemma PlainName(s: string)
    requires '@' !in s
    ensures NameOf(Value.Text(s)) == s
  {
    NoProvider(s, 0);
  }

  lemma OneKind(name: string, kind: string, body: Value, defs: Definitions)
    requires '@' !in name && name in defs && defs[name] == Fields([(kind, body)]) && kind != "chain"
    ensures Expand(Value.Text(name), defs, []) == Expansion([Applied(name, kind, body)], [])
  {
    PlainName(name);
    var fields := [(kind, body)];
    assert fields[1..] == [];
    assert Get(fields, "chain") == None;
    assert OwnKinds(name, fields) == [Applied(name, kind, body)];
  }

  lemma OneReference(ref: Value, defs: Definitions, items: seq<Applied>)
    requires Expand(ref, defs, []) == Expansion(items, [])
    ensures ExpandAll([ref], defs, []) == Expansion(items, [])
  {
    assert [ref][1..] == [] && ExpandAll([], defs, []) == Expansion([], []);
    assert items + [] == items;
  }

  lemma TwoReferences(a: Value, b: Value, defs: Definitions, x: seq<Applied>, y: seq<Applied>)
    requires Expand(a, defs, []) == Expansion(x, []) && Expand(b, defs, []) == Expansion(y, [])
    ensures ExpandAll([a, b], defs, []) == Expansion(x + y, [])
  {
    OneReference(b, defs, y);
    assert [a, b][1..] == [b];
  }

  lemma HeadersExpand()
    ensures Expand(Value.Text(HEADERS), DEFS, []) == Expansion([Applied(HEADERS, "headers", Fields([]))], [])
  {
    OneKind(HEADERS, "headers", Fields([]), DEFS);
  }

  lemma RewriteExpands()
    ensures Expand(Value.Text("probe-rewrite"), DEFS, []) == Expansion([Applied("probe-rewrite", "replacePathRegex", REWRITE)], [])
  {
    OneKind("probe-rewrite", "replacePathRegex", REWRITE, DEFS);
  }

  lemma Common(r: Router, items: seq<Applied>, defs: Definitions)
    requires r.entryPoints == BOTH && r.service == Value.Text(SERVICE) && r.tls == Fields([]) && r.priority.Int?
    requires Resolve(r.middlewares, defs) == Expansion(items, []) && items != []
    requires items[0] == Applied(HEADERS, "headers", Fields([]))
    ensures CommonHolds(r, defs)
    ensures Mentions(r.entryPoints, "web") && Mentions(r.entryPoints, "websecure")
  {
    assert BOTH.items[0] == Value.Text("web") && BOTH.items[1] == Value.Text("websecure");
    assert items[0] in items;
  }

  lemma AppPasses()
    ensures CommonHolds(AppRouter(), DEFS) && AppHolds(AppRouter(), DEFS)
    ensures Mentions(AppRouter().entryPoints, "web") && Mentions(AppRouter().entryPoints, "websecure")
  {
    HeadersExpand();
    var h := Applied(HEADERS, "headers", Fields([]));
    OneReference(Value.Text(HEADERS), DEFS, [h]);
    Common(AppRouter(), [h], DEFS);
    AppRoles();
    LeavesPath(AppRouter(), h, DEFS);
  }

  lemma LeavesPath(r: Router, h: Applied, defs: Definitions)
    requires Count(r.rule, "PathPrefix") == 1 && !Contains(r.rule, "Path(")
    requires h.kind == "headers" && Resolve(r.middlewares, defs) == Expansion([h], [])
    ensures AppHolds(r, defs)
  {
    assert [h][1..] == [];
    assert PathChangers([h]) == [];
  }

  lemma ProbePasses(joiner: Joiner)
    ensures CommonHolds(ProbeRouter(joiner), DEFS) && ProbeHolds(ProbeRouter(joiner), DEFS)
    ensures Mentions(ProbeRouter(joiner).entryPoints, "web") && Mentions(ProbeRouter(joiner).entryPoints, "websecure")
  {
    ProbeRoles(joiner);
    HeadersExpand();
    RewriteExpands();
    var h, w := Applied(HEADERS, "headers", Fields([])), Applied("probe-rewrite", "replacePathRegex", REWRITE);
    TwoReferences(Value.Text(HEADERS), Value.Text("probe-rewrite"), DEFS, [h], [w]);
    assert [h] + [w] == [h, w];
    Common(ProbeRouter(joiner), [h, w], DEFS);
    OneChanger(h, w);
  }

  lemma OneChanger(h: Applied, w: Applied)
    requires h.kind == "headers" && w == Applied("probe-rewrite", "replacePathRegex", REWRITE)
    ensures PathChangers([h, w]) == [w] && IsProbeRewrite(w)
  {
    assert [h, w][1..] == [w] && [w][1..] == [];
    assert PathChangers([w]) == [w];
    RewriteFields(REWRITE.fields);
  }

  lemma RewriteFields(fields: seq<(string, Value)>)
    requires fields == [("regex", Value.Text(PROBE_REGEX)), ("replacement", Value.Text(PROBE_REPLACEMENT))]
    ensures Keys(fields) == {"regex", "replacement"}
    ensures Get(fields, "regex") == Some(Value.Text(PROBE_REGEX))
    ensures Get(fields, "replacement") == Some(Value.Text(PROBE_REPLACEMENT))
  {
    var last := [("replacement", Value.Text(PROBE_REPLACEMENT))];
    assert fields[1..] == last;
    assert Get(last, "replacement") == Some(Value.Text(PROBE_REPLACEMENT));
    assert "regex" != "replacement";
    assert fields[0] in fields && fields[1] in fields && forall f <- fields :: f == fields[0] || f == fields[1];
  }

  function Routers(probe: Router, app: Router): seq<(string, Entry)> {
    [("probes", Mapping(probe))] + ([("app", Mapping(app))] + [])
  }

  lemma WithRoles(probe: Router, app: Router)
    requires RoleOf(probe) == Probe && RoleOf(app) == App
    ensures WithRole(Routers(probe, app), App) == [("app", app)] && WithRole(Routers(probe, app), Probe) == [("probes", probe)]
  {
    forall role: Role
      ensures WithRole(Routers(probe, app), role)
           == (if role == Probe then [("probes", probe)] else []) + ((if role == App then [("app", app)] else []) + [])
    {
      GatewayAudit.OneWithRole(("probes", Mapping(probe)), [("app", Mapping(app))] + [], role);
      GatewayAudit.OneWithRole(("app", Mapping(app)), [], role);
      assert WithRole([], role) == [];
    }
  }

  lemma TwoRoutersPass(probe: Router, app: Router, defs: Definitions)
    requires RoleOf(probe) == Probe && RoleOf(app) == App
    requires CommonHolds(app, defs) && AppHolds(app, defs) && CommonHolds(probe, defs) && ProbeHolds(probe, defs)
    requires forall e <- ENTRYPOINTS :: Mentions(app.entryPoints, e) && Mentions(probe.entryPoints, e)
    requires Above(probe, app)
    ensures Passes(Config(Routers(probe, app), defs))
  {
    WithRoles(probe, app);
    var apps, probes := [("app", app)], [("probes", probe)];
    assert ("app", app) in apps && ("probes", probe) in probes;
    forall e <- ENTRYPOINTS
      ensures EntrypointHolds(e, probes, apps)
    {
    }
    forall r <- Routers(probe, app)
      ensures r.1.Mapping? && RoleOf(r.1.router) != Neither
    {
    }
  }

  lemma EntryNames(e: string)
    requires e in ENTRYPOINTS
    ensures e == "web" || e == "websecure"
  {
  }

  lemma TwoNames(probe: Router, app: Router)
    ensures DistinctKeys(Routers(probe, app))
  {
    assert Routers(probe, app)[0].0 == "probes" && Routers(probe, app)[1].0 == "app" && |Routers(probe, app)| == 2;
  }

  lemma Priorities(joiner: Joiner)
    ensures EffectivePriority(ProbeRouter(joiner)) == Some(200) && EffectivePriority(AppRouter()) == Some(100)
  {
  }

  lemma TwoListed(probe: Router, app: Router, defs: Definitions)
    requires RoleOf(probe) == Probe && RoleOf(app) == App
    requires probe.entryPoints.Items? && probe.entryPoints.items != [] && app.entryPoints == probe.entryPoints
    ensures ListsEntrypoints(Config(Routers(probe, app), defs))
  {
    WithRoles(probe, app);
  }

  lemma ListsBoth(joiner: Joiner)
    ensures ListsEntrypoints(Example(joiner))
  {
    AppRoles();
    ProbeRoles(joiner);
    TwoListed(ProbeRouter(joiner), AppRouter(), DEFS);
  }

  /** Either way, the audit reports nothing, every name is used once, and every router lists its entry points. */
  lemma ExamplePasses(joiner: Joiner)
    ensures Passes(Example(joiner)) && DistinctKeys(Example(joiner).routers) && ListsEntrypoints(Example(joiner))
  {
    AppRoles();
    ProbeRoles(joiner);
    AppPasses();
    ProbePasses(joiner);
    Priorities(joiner);
    forall e <- ENTRYPOINTS
      ensures Mentions(AppRouter().entryPoints, e) && Mentions(ProbeRouter(joiner).entryPoints, e)
    {
      EntryNames(e);
    }
    TwoRoutersPass(ProbeRouter(joiner), AppRouter(), DEFS);
    TwoNames(ProbeRouter(joiner), AppRouter());
    ListsBoth(joiner);
  }

  // ----- but only one of them serves the probes -----

  lemma ListensOnBoth(t: Traefik, r: Router, entry: string)
    requires r.entryPoints == BOTH && entry in ENTRYPOINTS
    ensures Listens(t, r, entry)
  {
    EntryNames(entry);
    assert BOTH.items[0] == Value.Text("web") && BOTH.items[1] == Value.Text("websecure");
  }

  lemma PrefixAccepts(w: World, prefix: string, q: Request)
    requires prefix != "" && '`' !in prefix && prefix <= q.path
    ensures RuleAccepts(w, Rule("PathPrefix", Or, [prefix]), q)
  {
    RuleMeans(w, "PathPrefix", Or, [prefix], q);
    assert prefix in [prefix];
    assert MatcherAccepts(w, "PathPrefix", [prefix], q);
  }

  lemma Serving(t: Traefik, config: Config, q: Request, entry: string, name: string, r: Router)
    requires config.Config? && (name, Mapping(r)) in config.routers && r.entryPoints == BOTH && entry in ENTRYPOINTS
    ensures Serves(t, config, q, entry, r) <==> RuleAccepts(t.rules, r.rule, q)
  {
    ListensOnBoth(t, r, entry);
    assert (name, Mapping(r)).1 == Mapping(r);
  }

  lemma AppServes(t: Traefik, joiner: Joiner, q: Request, entry: string)
    requires entry in ENTRYPOINTS && PREFIX <= q.path
    ensures Serves(t, Example(joiner), q, entry, AppRouter())
  {
    PrefixAccepts(t.rules, PREFIX, q);
    Members(ProbeRouter(joiner), AppRouter());
    Serving(t, Example(joiner), q, entry, "app", AppRouter());
  }

  lemma Members(probe: Router, app: Router)
    ensures ("probes", Mapping(probe)) in Routers(probe, app) && ("app", Mapping(app)) in Routers(probe, app)
    ensures forall e <- Routers(probe, app) :: e == ("probes", Mapping(probe)) || e == ("app", Mapping(app))
  {
    assert Routers(probe, app)[0] == ("probes", Mapping(probe)) && Routers(probe, app)[1] == ("app", Mapping(app));
  }

  lemma ProbeServes(t: Traefik, joiner: Joiner, q: Request, entry: string)
    requires entry in ENTRYPOINTS
    ensures Serves(t, Example(joiner), q, entry, ProbeRouter(joiner)) <==> joiner == Or && IsProbePath(q.path)
  {
    PlainProbePaths();
    ProbePathsDiffer();
    ProbePathsAre(q.path);
    PathsMean(t.rules, joiner, ProbePaths(), q);
    Members(ProbeRouter(joiner), AppRouter());
    Serving(t, Example(joiner), q, entry, "probes", ProbeRouter(joiner));
  }

  lemma OnlyTwoRouters(joiner: Joiner, r: Router)
    requires HasRouter(Example(joiner), r)
    ensures r == ProbeRouter(joiner) || r == AppRouter()
  {
    Members(ProbeRouter(joiner), AppRouter());
  }

  lemma ProbeUnderPrefix(path: string)
    requires IsProbePath(path)
    ensures PREFIX <= path
  {
  }

  /**
   The audit cannot tell the two rules apart, and it matters: joined by ||, every request for a probe
   is rewritten; joined by &&, the probe router matches nothing, and none is.
   */
  lemma SignDecides(t: Traefik, joiner: Joiner, q: Request, entry: string)
    requires RefusesOddHosts(t) && entry in ENTRYPOINTS && IsProbePath(q.path)
    ensures (forall r: Router | Wins(t, Example(joiner), q, entry, r) :: Received(t, Example(joiner), r, q.path) == ProbePath(q.path))
            <==> joiner == Or
    ensures joiner == And ==>
      && Wins(t, Example(joiner), q, entry, AppRouter())
      && Received(t, Example(joiner), AppRouter(), q.path) == q.path
  {
    ProbeUnderPrefix(q.path);
    ExamplePasses(joiner);
    AppRoles();
    ProbeRoles(joiner);
    AppServes(t, joiner, q, entry);
    ProbeServes(t, joiner, q, entry);
    ListedProbesLead(t, Example(joiner), q, entry);
    ProbesRewrittenExactly(t, Example(joiner), q, entry, AppRouter());
    forall p: Router | RoleOf(p) == Probe && Serves(t, Example(joiner), q, entry, p)
      ensures p == ProbeRouter(joiner)
    {
      OnlyTwoRouters(joiner, p);
    }
    if joiner == And {
      forall s: Router | Serves(t, Example(joiner), q, entry, s)
        ensures s == AppRouter()
      {
        OnlyTwoRouters(joiner, s);
      }
      AuditGuarantee(t, Example(joiner), q, entry, AppRouter(), AppRouter());
    }
  }

  // ----- a spare router without entry points -----

  /** The example with a second application router that lists no entry points and has this priority. */
  function WithSpare(priority: int): Config {
    Extended(Example(Or), "spare", Unlisted(AppRouter(), priority))
  }

  lemma SpareOfPasses(config: Config, name: string, other: string, a: Router, n: int)
    requires Passes(config) && (other, Mapping(a)) in config.routers && RoleOf(a) == App && n != 0
    requires forall e <- config.routers :: RoleOf(e.1.router) != Neither && e.0 != name
    requires DistinctKeys(config.routers)
    ensures var wider := Extended(config, name, Unlisted(a, n));
      Passes(wider) && DistinctKeys(wider.routers) && !ListsEntrypoints(wider)
  {
    StillPassesWithRoles(config, name, other, a, n);
    WiderIsDictionary(config, name, Unlisted(a, n));
    UnlistedIsUnlisted(config, name, a, n);
  }

  lemma OnlyRoles()
    ensures forall e <- Example(Or).routers :: e.1.Mapping? && RoleOf(e.1.router) != Neither && e.0 != "spare"
  {
    AppRoles();
    ProbeRoles(Or);
    Members(ProbeRouter(Or), AppRouter());
  }

  lemma SparePasses(priority: int)
    requires priority != 0
    ensures Passes(WithSpare(priority)) && DistinctKeys(WithSpare(priority).routers) && !ListsEntrypoints(WithSpare(priority))
  {
    AppRoles();
    OnlyRoles();
    ExamplePasses(Or);
    Members(ProbeRouter(Or), AppRouter());
    SpareOfPasses(Example(Or), "spare", "app", AppRouter(), priority);
  }

  /** Three routers match: the probe router leads just if the spare one is below it. */
  lemma LeadsAmongThree(t: Traefik, config: Config, q: Request, entry: string, p: Router, a: Router, spare: Router)
    requires config.Config? && RoleOf(p) == Probe && RoleOf(a) == App && RoleOf(spare) == App
    requires Serves(t, config, q, entry, p) && Serves(t, config, q, entry, a) && Serves(t, config, q, entry, spare)
    requires forall s: Router | Serves(t, config, q, entry, s) :: s == p || s == a || s == spare
    requires Priority(t, a) < Priority(t, p)
    ensures ProbeLeads(t, config, q, entry) <==> Priority(t, spare) < Priority(t, p)
  {
    if Priority(t, spare) < Priority(t, p) {
      assert ProbeAboveAll(t, config, q, entry, p);
    }
  }

  lemma RewrittenAmongThree(
      t: Traefik, config: Config, q: Request, entry: string, p: Router, a: Router, spare: Router)
    requires Passes(config) && RefusesOddHosts(t) && entry in ENTRYPOINTS && IsProbePath(q.path) && PREFIX <= q.path
    requires RoleOf(p) == Probe && RoleOf(a) == App && RoleOf(spare) == App
    requires Serves(t, config, q, entry, p) && Serves(t, config, q, entry, a) && Serves(t, config, q, entry, spare)
    requires forall s: Router | Serves(t, config, q, entry, s) :: s == p || s == a || s == spare
    requires Priority(t, a) < Priority(t, p)
    ensures (forall r: Router | Wins(t, config, q, entry, r) :: Received(t, config, r, q.path) == ProbePath(q.path))
            <==> Priority(t, spare) < Priority(t, p)
  {
    ProbesRewrittenExactly(t, config, q, entry, a);
    LeadsAmongThree(t, config, q, entry, p, a, spare);
  }

  /**
   A spare router without entry points passes whatever its priority. The probes are rewritten just as
   long as that is below the probe router's: listing entry points is enough, but not needed.
   */
  lemma SpareDecides(t: Traefik, priority: int, q: Request, entry: string)
    requires priority != 0 && RefusesOddHosts(t) && entry in ENTRYPOINTS && IsProbePath(q.path)
    ensures Serves(t, WithSpare(priority), q, entry, ProbeRouter(Or))
    ensures (forall r: Router | Wins(t, WithSpare(priority), q, entry, r) ::
               Received(t, WithSpare(priority), r, q.path) == ProbePath(q.path))
            <==> priority < 200
  {
    ProbeUnderPrefix(q.path);
    SparePasses(priority);
    SpareServes(t, priority, q, entry);
    Priorities(Or);
    SparePriority(priority);
    RolesOfThree(priority);
    RewrittenAmongThree(t, WithSpare(priority), q, entry, ProbeRouter(Or), AppRouter(), Unlisted(AppRouter(), priority));
  }

  lemma SparePriority(priority: int)
    requires priority != 0
    ensures EffectivePriority(Unlisted(AppRouter(), priority)) == Some(priority)
  {
  }

  lemma RolesOfThree(priority: int)
    ensures RoleOf(ProbeRouter(Or)) == Probe && RoleOf(AppRouter()) == App && RoleOf(Unlisted(AppRouter(), priority)) == App
  {
    AppRoles();
    ProbeRoles(Or);
  }

  lemma SpareServes(t: Traefik, priority: int, q: Request, entry: string)
    requires entry in ENTRYPOINTS && IsProbePath(q.path) && PREFIX <= q.path
    ensures Serves(t, WithSpare(priority), q, entry, ProbeRouter(Or)) && Serves(t, WithSpare(priority), q, entry, AppRouter())
    ensures Serves(t, WithSpare(priority), q, entry, Unlisted(AppRouter(), priority))
    ensures forall s: Router | Serves(t, WithSpare(priority), q, entry, s) ::
      s == ProbeRouter(Or) || s == AppRouter() || s == Unlisted(AppRouter(), priority)
  {
    AppServes(t, Or, q, entry);
    ProbeServes(t, Or, q, entry);
    StillServes(t, Example(Or), "spare", Unlisted(AppRouter(), priority), q, entry, AppRouter());
    StillServes(t, Example(Or), "spare", Unlisted(AppRouter(), priority), q, entry, ProbeRouter(Or));
    UnlistedServes(t, Example(Or), "spare", AppRouter(), priority, q, entry);
    forall s: Router | Serves(t, WithSpare(priority), q, entry, s)
      ensures s == ProbeRouter(Or) || s == AppRouter() || s == Unlisted(AppRouter(), priority)
    {
      ServersOfExtended(t, Example(Or), "spare", Unlisted(AppRouter(), priority), q, entry, s);
      if s != Unlisted(AppRouter(), priority) {
        OnlyTwoRouters(Or, s);
      }
    }
  }
}
