/** What a gateway configuration that passes the audit does to the traffic under the notifications prefix. */
module GatewayGuarantee {
  import opened Text
  import opened Middlewares
  import opened RuleTokens
  import opened RuleSyntax
  import opened RuleVerdict
  import opened Gateway

  /** Traefik, as far as the audit leaves it open: nothing is assumed about any of the functions. */
  datatype Traefik = Traefik(
    rules: World,
    priority: Router -> int,                       // of a router whose priority is no plain integer
    listens: (Value, string) -> bool,              // of entry points that are no list
    rewrites: (string, Value, string) -> string)   // the path after a path middleware

  /** A router that names no entry point listens on all of them. */
  predicate Listens(t: Traefik, r: Router, entry: string) {
    match r.entryPoints
    case Null => true
    case Items(items) => items == [] || Text(entry) in items
    case other => t.listens(other, entry)
  }

  function Priority(t: Traefik, r: Router): int {
    match EffectivePriority(r)
    case Some(p) => p
    case None => t.priority(r)
  }

  ghost predicate HasRouter(config: Config, r: Router)
    requires config.Config?
  {
    exists entry <- config.routers :: entry.1 == Mapping(r)
  }

  /** `r` is a router of the configuration that matches request `q` on the entry point. */
  ghost predicate Serves(t: Traefik, config: Config, q: Request, entry: string, r: Router)
    requires config.Config?
  {
    HasRouter(config, r) && Listens(t, r, entry) && RuleAccepts(t.rules, r.rule, q)
  }

  /** Traefik may pick `r`: nothing that matches has a higher priority. */
  ghost predicate Wins(t: Traefik, config: Config, q: Request, entry: string, r: Router)
    requires config.Config?
  {
    && Serves(t, config, q, entry, r)
    && forall s: Router | Serves(t, config, q, entry, s) :: Priority(t, s) <= Priority(t, r)
  }

  /** What the probe rewrite makes of a path. */
  function ProbePath(path: string): string {
    if path == PREFIX + "/healthz" then "/healthz"
    else if path == PREFIX + "/readyz" then "/readyz"
    else if path == PREFIX + "/version" then "/version"
    else path
  }

  /** The kinds of middleware that give the backend another path than the request's. */
  predicate ChangesPath(kind: string) {
    || kind == "stripPrefix" || kind == "stripPrefixRegex" || kind == "replacePath" || kind == "replacePathRegex"
    || kind == "addPrefix"
  }

  function AfterOne(t: Traefik, a: Applied, path: string): string {
    if !ChangesPath(a.kind) then path
    else if IsProbeRewrite(a) then ProbePath(path)
    else t.rewrites(a.kind, a.body, path)
  }

  /** The path the backend receives through the middlewares, first to last. */
  function BackendPath(t: Traefik, applied: seq<Applied>, path: string): string {
    if applied == [] then path else BackendPath(t, applied[1..], AfterOne(t, applied[0], path))
  }

  /** Traefik refuses a rule with a host that is not ASCII; it then matches no request. */
  ghost predicate RefusesOddHosts(t: Traefik) {
    forall host: string, q: Request :: !t.rules.oddHost(host, q)
  }

  // ----- paths -----

  lemma {:induction false} OnlyChangersMatter(t: Traefik, applied: seq<Applied>, path: string)
    ensures BackendPath(t, applied, path) == BackendPath(t, PathChangers(applied), path)
  {
    if applied != [] {
      var next := AfterOne(t, applied[0], path);
      OnlyChangersMatter(t, applied[1..], next);
      var rest := PathChangers(applied[1..]);
      assert ([applied[0]] + rest)[1..] == rest && [] + rest == rest;
    }
  }

  lemma BackendPathOfRole(t: Traefik, r: Router, defs: Definitions, path: string)
    ensures AppHolds(r, defs) ==> BackendPath(t, Resolve(r.middlewares, defs).items, path) == path
    ensures ProbeHolds(r, defs) ==> BackendPath(t, Resolve(r.middlewares, defs).items, path) == ProbePath(path)
  {
    OnlyChangersMatter(t, Resolve(r.middlewares, defs).items, path);
  }

  // ----- hosts -----

  lemma QuotedArg(s: string, quote: nat, arg: string)
    requires '`' !in arg && At(s, quote, "`") && At(s, quote + 1, arg) && At(s, quote + 1 + |arg|, "`)")
    ensures var close := quote + 1 + |arg|; var a := ArgSpan(quote, close, close + 1, close + 1);
      ArgsWritten(s, quote, [a], close + 2) && TextsAre(s, [a], [arg])
  {
    var close := quote + 1 + |arg|;
    AtEach(s, quote, "`");
    AtEach(s, quote + 1, arg);
    AtEach(s, close, "`)");
    var a := ArgSpan(quote, close, close + 1, close + 1);
    ArgsCons(s, quote, a, [], close + 2);
    assert [a] + [] == [a];
  }

  /** A matcher with one argument and no white space inside. */
  lemma CallWritten(s: string, i: nat, b: nat, name: string, arg: string, end: nat) returns (x: TokenSpan)
    requires name != "" && (forall c <- name :: IsWord(c)) && '`' !in arg
    requires Blank(s, i, b) && At(s, b, name + "(") && At(s, b + |name| + 1, "`")
    requires At(s, b + |name| + 2, arg) && At(s, b + |name| + 2 + |arg|, "`)")
    requires Blank(s, b + |name| + |arg| + 4, end)
    ensures TokenWritten(s, i, x, Matcher(name, [arg])) && x.end == end
  {
    var quote := b + |name| + 1;
    var close := quote + 1 + |arg|;
    NamePrinted(s, b, name);
    QuotedArg(s, quote, arg);
    x := TokenSpan(b, b + |name|, [ArgSpan(quote, close, close + 1, close + 1)], close + 2, end);
  }

  lemma WrittenCons(s: string, i: nat, x: TokenSpan, xs: seq<TokenSpan>, t: Token, ts: seq<Token>)
    requires TokenWritten(s, i, x, t) && Written(s, x.end, xs, ts)
    ensures Written(s, i, [x] + xs, [t] + ts)
  {
    assert ([x] + xs)[1..] == xs && ([t] + ts)[1..] == ts;
  }

  lemma HostCall(rule: string, i: nat, end: nat, sign: nat) returns (x: TokenSpan)
    requires At(rule, i, "Host(`") && i + 6 <= end && At(rule, end, "`)")
    requires forall k | i + 6 <= k < end :: rule[k] != '`'
    requires Blank(rule, 0, i) && Blank(rule, end + 2, sign)
    ensures TokenWritten(rule, 0, x, Matcher("Host", [rule[i + 6..end]])) && x.end == sign
  {
    assert "Host(" + "`" == "Host(`" && "Host" + "(" == "Host(";
    AtSplit(rule, i, "Host(", "`");
    x := CallWritten(rule, 0, i, "Host", rule[i + 6..end], sign);
  }

  /** The host at the front is a token, with the white space after it up to `sign`. */
  lemma HostPart(rule: string, host: string, next: nat) returns (x: TokenSpan)
    requires HostFront(rule) == Some((host, next))
    ensures TokenWritten(rule, 0, x, Matcher("Host", [host])) && x.end == SkipSpace(rule, next)
  {
    var i, end := HostFrontParts(rule, host, next);
    SkipsBlank(rule, next);
    x := HostCall(rule, i, end, SkipSpace(rule, next));
  }

  lemma HostFrontParts(rule: string, host: string, next: nat) returns (i: nat, end: nat)
    requires HostFront(rule) == Some((host, next))
    ensures At(rule, i, "Host(`") && i + 6 <= end && At(rule, end, "`)") && Blank(rule, 0, i)
    ensures forall k | i + 6 <= k < end :: rule[k] != '`'
    ensures host == rule[i + 6..end] && next == end + 2 <= |rule|
  {
    i := SkipSpace(rule, 0);
    end := Find(rule, i + 6, '`');
    SkipsBlank(rule, 0);
    Finds(rule, i + 6, '`');
  }

  lemma PrefixPart(rule: string, i: nat) returns (and: TokenSpan, prefix: TokenSpan)
    requires i <= |rule| && PrefixRest(rule, i)
    ensures TokenWritten(rule, SkipSpace(rule, i), and, AndOp)
    ensures TokenWritten(rule, and.end, prefix, Matcher("PathPrefix", [PREFIX])) && prefix.end == |rule|
  {
    var sign := SkipSpace(rule, i);
    var last := SkipSpace(rule, sign + 2);
    SkipsBlank(rule, sign + 2);
    SkipsBlank(rule, last + 12 + |PREFIX| + 2);
    AtEach(rule, sign, "&&");
    and := TokenSpan(sign, sign, [], sign + 2, last);
    prefix := PrefixCall(rule, last);
  }

  lemma PrefixCall(rule: string, b: nat) returns (x: TokenSpan)
    requires At(rule, b, "PathPrefix(`" + PREFIX + "`)") && Blank(rule, b + 12 + |PREFIX| + 2, |rule|)
    ensures TokenWritten(rule, b, x, Matcher("PathPrefix", [PREFIX])) && x.end == |rule|
  {
    AtSplit(rule, b, "PathPrefix(`" + PREFIX, "`)");
    AtSplit(rule, b, "PathPrefix(`", PREFIX);
    assert "PathPrefix(" + "`" == "PathPrefix(`" && "PathPrefix" + "(" == "PathPrefix(";
    AtSplit(rule, b, "PathPrefix(", "`");
    x := CallWritten(rule, b, b, "PathPrefix", PREFIX, |rule|);
  }

  lemma ThreeTokens(s: string, x: TokenSpan, and: TokenSpan, y: TokenSpan, a: Token, b: Token)
    requires TokenWritten(s, 0, x, a) && TokenWritten(s, x.end, and, AndOp) && TokenWritten(s, and.end, y, b)
    requires y.end == |s|
    ensures Tokens(s) == Some([a] + ([AndOp] + [b]))
  {
    assert [y] + [] == [y] && [b] + [] == [b];
    WrittenCons(s, and.end, y, [], b, []);
    WrittenCons(s, x.end, and, [y], AndOp, [b]);
    WrittenCons(s, 0, x, [and] + [y], a, [AndOp] + [b]);
    ReadWritten(s, 0, [x] + ([and] + [y]), [a] + ([AndOp] + [b]));
  }

  lemma ConjunctionParses(a: Token, b: Token)
    requires a.Matcher? && b.Matcher?
    ensures Parse([a] + ([AndOp] + [b])) == Some(Join(And, Match(a.name, a.args), Match(b.name, b.args)))
  {
    var tree := Join(And, Match(a.name, a.args), Match(b.name, b.args));
    assert Unparse(tree) == [a] + [AndOp] + [b] == [a] + ([AndOp] + [b]);
    ParserExact([a] + ([AndOp] + [b]), tree);
  }

  /** The exact form reads as the conjunction of a host and the prefix. */
  lemma ApplicationRuleReads(rule: string)
    requires ApplicationHost(rule).Some?
    ensures ReadRule(rule) == Some(Join(And, Match("Host", [ApplicationHost(rule).value]), Match("PathPrefix", [PREFIX])))
  {
    var (name, next) := HostFront(rule).value;
    var host := HostPart(rule, name, next);
    var and, prefix := PrefixPart(rule, next);
    var h, p := Matcher("Host", [ApplicationHost(rule).value]), Matcher("PathPrefix", [PREFIX]);
    ThreeTokens(rule, host, and, prefix, h, p);
    ConjunctionParses(h, p);
  }

  lemma ExactRuleHost(w: World, rule: string, q: Request)
    requires ApplicationHost(rule).Some? && RuleAccepts(w, rule, q)
    requires forall host: string, r: Request :: !w.oddHost(host, r)
    ensures q.host in HostRequests(ApplicationHost(rule).value)
  {
    var host := ApplicationHost(rule).value;
    ApplicationRuleReads(rule);
    assert Accepts(w, Match("Host", [host]), q);
    HostRequestsExact(host, q.host);
  }

  lemma AcceptedHostIsListed(t: Traefik, apps: seq<(string, Router)>, name: string, a: Router, q: Request)
    requires RefusesOddHosts(t) && (name, a) in apps && RuleAccepts(t.rules, a.rule, q)
    ensures ApplicationHosts(apps) == {} || q.host in ApplicationHosts(apps)
  {
    if forall x <- apps :: ApplicationHost(x.1.rule).Some? {
      assert ApplicationHost((name, a).1.rule).Some?;
      ExactRuleHost(t.rules, a.rule, q);
    }
  }

  // ----- the guarantee -----

  lemma WinnerIsNotBeaten(t: Traefik, config: Config, q: Request, entry: string, r: Router, s: Router)
    requires config.Config? && Wins(t, config, q, entry, r) && Serves(t, config, q, entry, s)
    ensures Priority(t, s) <= Priority(t, r)
  {
  }

  lemma OutrankedLoses(t: Traefik, r: Router, apps: seq<(string, Router)>, name: string, a: Router)
    requires Outranked(r, apps) && (name, a) in apps
    ensures Priority(t, r) < Priority(t, a)
  {
    assert EffectivePriority((name, a).1).Some?;
  }

  /** A router that is neither and matches too has a lower priority than the application router. */
  lemma OthersAreBelow(t: Traefik, config: Config, q: Request, entry: string, a: Router, s: Router)
    requires Passes(config) && RefusesOddHosts(t) && entry in ENTRYPOINTS && PREFIX <= q.path
    requires HasRouter(config, a) && RoleOf(a) == App && RuleAccepts(t.rules, a.rule, q)
    requires Serves(t, config, q, entry, s) && RoleOf(s) == Neither
    ensures Priority(t, s) < Priority(t, a)
  {
    var apps := WithRole(config.routers, App);
    var ea :| ea in config.routers && ea.1 == Mapping(a);
    var es :| es in config.routers && es.1 == Mapping(s);
    RolesAreRouters(config.routers, App, ea.0, a);
    AcceptedHostIsListed(t, apps, ea.0, a, q);
    assert PublicEntrypoints(s);
    if Outranked(s, apps) {
      OutrankedLoses(t, s, apps, ea.0, a);
    } else {
      ProvablyDisjointIsSound(t.rules, s.rule, ApplicationHosts(apps), q);
    }
  }

  lemma RoleConditions(config: Config, r: Router)
    requires Passes(config) && HasRouter(config, r) && RoleOf(r) != Neither
    ensures CommonHolds(r, config.middlewares)
    ensures if RoleOf(r) == App then AppHolds(r, config.middlewares) else ProbeHolds(r, config.middlewares)
  {
    var e :| e in config.routers && e.1 == Mapping(r);
    RolesAreRouters(config.routers, RoleOf(r), e.0, r);
  }

  /**
   If the audit reports nothing, then whichever router Traefik picks for a request under the prefix
   that some application router matches on a public entry point: it is an application or a probe
   router, it forwards to notification-service through the security headers, its middlewares have
   a meaning, and the backend sees the path unchanged, or rewritten as a probe by a probe router.
   */
  lemma AuditGuarantee(t: Traefik, config: Config, q: Request, entry: string, a: Router, r: Router)
    requires Passes(config) && RefusesOddHosts(t) && entry in ENTRYPOINTS && PREFIX <= q.path
    requires RoleOf(a) == App && Serves(t, config, q, entry, a) && Wins(t, config, q, entry, r)
    ensures RoleOf(r) != Neither && r.service == Text(SERVICE)
    ensures var applied := Resolve(r.middlewares, config.middlewares).items;
      && HasSecurityHeaders(applied)
      && (r.middlewares.Items? ==> Means(r.middlewares.items, config.middlewares, applied))
      && BackendPath(t, applied, q.path) == if RoleOf(r) == Probe then ProbePath(q.path) else q.path
  {
    WinnerIsNotBeaten(t, config, q, entry, r, a);
    if RoleOf(r) == Neither {
      OthersAreBelow(t, config, q, entry, a, r);
    }
    RoleConditions(config, r);
    BackendPathOfRole(t, r, config.middlewares, q.path);
    if r.middlewares.Items? {
      var expansion := Resolve(r.middlewares, config.middlewares);
      ExpansionExact(r.middlewares.items, config.middlewares, expansion.items);
    }
  }

  // ----- which of the two roles wins -----

  /** Of finitely many routers that match, one has the highest priority. */
  lemma {:induction false} HighestAmong(t: Traefik, entries: seq<(string, Entry)>, serves: Router -> bool, a: Router)
    returns (r: Router)
    requires serves(a)
    ensures serves(r) && Priority(t, a) <= Priority(t, r)
    ensures forall e <- entries :: e.1.Mapping? && serves(e.1.router) ==> Priority(t, e.1.router) <= Priority(t, r)
    decreases |entries|
  {
    if entries == [] {
      r := a;
    } else {
      r := HighestAmong(t, entries[1..], serves, a);
      var first := entries[0].1;
      if first.Mapping? && serves(first.router) && Priority(t, first.router) > Priority(t, r) {
        r := first.router;
      }
      assert forall e <- entries :: e == entries[0] || e in entries[1..];
    }
  }

  /** Where some router matches, some router wins, with at least its priority. */
  lemma SomeWinner(t: Traefik, config: Config, q: Request, entry: string, a: Router) returns (r: Router)
    requires config.Config? && Serves(t, config, q, entry, a)
    ensures Wins(t, config, q, entry, r) && Priority(t, a) <= Priority(t, r)
  {
    r := HighestAmong(t, config.routers, (s: Router) => Serves(t, config, q, entry, s), a);
    forall s: Router | Serves(t, config, q, entry, s)
      ensures Priority(t, s) <= Priority(t, r)
    {
      var e :| e in config.routers && e.1 == Mapping(s);
      assert e.1.router == s;
    }
  }

  /** Some probe router matches the request and is above every application router that does. */
  ghost predicate ProbeLeads(t: Traefik, config: Config, q: Request, entry: string)
    requires config.Config?
  {
    exists p: Router :: ProbeAboveAll(t, config, q, entry, p)
  }

  ghost predicate ProbeAboveAll(t: Traefik, config: Config, q: Request, entry: string, p: Router)
    requires config.Config?
  {
    && RoleOf(p) == Probe && Serves(t, config, q, entry, p)
    && forall b: Router | RoleOf(b) == App && Serves(t, config, q, entry, b) :: Priority(t, b) < Priority(t, p)
  }

  /** Under a configuration that passes, just then only probe routers can win. */
  lemma ProbesWinExactly(t: Traefik, config: Config, q: Request, entry: string, a: Router)
    requires Passes(config) && RefusesOddHosts(t) && entry in ENTRYPOINTS && PREFIX <= q.path
    requires RoleOf(a) == App && Serves(t, config, q, entry, a)
    ensures (forall r: Router | Wins(t, config, q, entry, r) :: RoleOf(r) == Probe) <==> ProbeLeads(t, config, q, entry)
  {
    if ProbeLeads(t, config, q, entry) {
      var p: Router :| ProbeAboveAll(t, config, q, entry, p);
      forall r: Router | Wins(t, config, q, entry, r)
        ensures RoleOf(r) == Probe
      {
        AuditGuarantee(t, config, q, entry, a, r);
        WinnerIsNotBeaten(t, config, q, entry, r, p);
      }
    }
    if forall r: Router | Wins(t, config, q, entry, r) :: RoleOf(r) == Probe {
      var w := SomeWinner(t, config, q, entry, a);
      forall b: Router | RoleOf(b) == App && Serves(t, config, q, entry, b)
        ensures Priority(t, b) < Priority(t, w)
      {
        var higher := SomeWinner(t, config, q, entry, b);
        WinnerIsNotBeaten(t, config, q, entry, w, b);
        if Priority(t, b) == Priority(t, w) {
          assert Wins(t, config, q, entry, b);
        }
      }
      assert ProbeAboveAll(t, config, q, entry, w);
    }
  }

  /** What the backend receives from this router. */
  function Received(t: Traefik, config: Config, r: Router, path: string): string
    requires config.Config?
  {
    BackendPath(t, Resolve(r.middlewares, config.middlewares).items, path)
  }

  /** The paths that the backend serves outside the prefix. */
  predicate IsProbePath(path: string) {
    exists p <- PROBES :: path == PREFIX + "/" + p
  }

  /** The probe rewrite changes the three probe paths, and no other. */
  lemma OnlyProbesAreRewritten(path: string)
    ensures IsProbePath(path) <==> ProbePath(path) != path
  {
    ProbeSpelled();
    if IsProbePath(path) {
      var p :| p in PROBES && path == PREFIX + "/" + p;
      assert p == PROBES[0] || p == PROBES[1] || p == PROBES[2];
      assert path[0..5] == "/api/" && |path| > 5 && |ProbePath(path)| < |path|;
    } else {
      assert PROBES[0] in PROBES && PROBES[1] in PROBES && PROBES[2] in PROBES;
    }
  }

  lemma ProbeSpelled()
    ensures PREFIX + "/" + "healthz" == PREFIX + "/healthz"
    ensures PREFIX + "/" + "readyz" == PREFIX + "/readyz"
    ensures PREFIX + "/" + "version" == PREFIX + "/version"
    ensures PROBES[0] == "healthz" && PROBES[1] == "readyz" && PROBES[2] == "version"
  {
    assert "/" + "healthz" == "/healthz" && "/" + "readyz" == "/readyz" && "/" + "version" == "/version";
  }

  lemma WinnersReceive(t: Traefik, config: Config, q: Request, entry: string, a: Router)
    requires Passes(config) && RefusesOddHosts(t) && entry in ENTRYPOINTS && PREFIX <= q.path
    requires RoleOf(a) == App && Serves(t, config, q, entry, a)
    ensures forall r: Router | Wins(t, config, q, entry, r) ::
      Received(t, config, r, q.path) == if RoleOf(r) == Probe then ProbePath(q.path) else q.path
  {
    forall r: Router | Wins(t, config, q, entry, r)
      ensures Received(t, config, r, q.path) == if RoleOf(r) == Probe then ProbePath(q.path) else q.path
    {
      AuditGuarantee(t, config, q, entry, a, r);
    }
  }

  /**
   What the script is for: under a configuration that passes, a request for one of the three probes
   is rewritten whoever wins it, if and only if some probe router matches it and is above every
   application router that does. A request for anything else is never rewritten.
   */
  lemma ProbesRewrittenExactly(t: Traefik, config: Config, q: Request, entry: string, a: Router)
    requires Passes(config) && RefusesOddHosts(t) && entry in ENTRYPOINTS && PREFIX <= q.path
    requires RoleOf(a) == App && Serves(t, config, q, entry, a)
    ensures IsProbePath(q.path) ==>
      ((forall r: Router | Wins(t, config, q, entry, r) :: Received(t, config, r, q.path) == ProbePath(q.path))
       <==> ProbeLeads(t, config, q, entry))
    ensures !IsProbePath(q.path) ==>
      forall r: Router | Wins(t, config, q, entry, r) :: Received(t, config, r, q.path) == q.path
  {
    OnlyProbesAreRewritten(q.path);
    ProbesWinExactly(t, config, q, entry, a);
    WinnersReceive(t, config, q, entry, a);
  }

  // ----- a condition on the configuration alone -----

  /** Every notifications router lists its entry points, so that the audit compares the routers that meet. */
  predicate ListsEntrypoints(config: Config)
    requires config.Config?
  {
    forall role <- {App, Probe}, r <- WithRole(config.routers, role) ::
      r.1.entryPoints.Items? && r.1.entryPoints.items != []
  }

  lemma ListedIsAbove(t: Traefik, config: Config, q: Request, entry: string, p: Router, b: Router)
    requires Passes(config) && entry in ENTRYPOINTS && ListsEntrypoints(config)
    requires RoleOf(p) == Probe && Serves(t, config, q, entry, p) && RoleOf(b) == App && Serves(t, config, q, entry, b)
    ensures Priority(t, b) < Priority(t, p)
  {
    RoleConditions(config, p);
    RoleConditions(config, b);
    ListedMention(t, config, p, entry);
    ListedMention(t, config, b, entry);
    ProbeIsAbove(config, entry, p, b);
  }

  /** With entry points listed, it is enough that some probe router matches the request at all. */
  lemma ListedProbesLead(t: Traefik, config: Config, q: Request, entry: string)
    requires Passes(config) && entry in ENTRYPOINTS && ListsEntrypoints(config)
    ensures ProbeLeads(t, config, q, entry) <==> exists p: Router :: RoleOf(p) == Probe && Serves(t, config, q, entry, p)
  {
    forall p: Router, b: Router |
        RoleOf(p) == Probe && Serves(t, config, q, entry, p) && RoleOf(b) == App && Serves(t, config, q, entry, b)
      ensures Priority(t, b) < Priority(t, p)
    {
      ListedIsAbove(t, config, q, entry, p, b);
    }
    if p: Router :| RoleOf(p) == Probe && Serves(t, config, q, entry, p) {
      assert ProbeAboveAll(t, config, q, entry, p);
    }
  }

  /**
   With entry points listed, by application and probe routers alike, a request that a probe router
   matches goes to a probe router and arrives rewritten; what arrives on websecure ends its TLS there.
   */
  lemma ProbesWin(t: Traefik, config: Config, q: Request, entry: string, a: Router, p: Router, r: Router)
    requires Passes(config) && RefusesOddHosts(t) && entry in ENTRYPOINTS && PREFIX <= q.path
    requires RoleOf(a) == App && Serves(t, config, q, entry, a) && Wins(t, config, q, entry, r)
    requires RoleOf(p) == Probe && Serves(t, config, q, entry, p)
    requires ListsEntrypoints(config)
    ensures RoleOf(r) == Probe && Received(t, config, r, q.path) == ProbePath(q.path)
    ensures entry == "websecure" ==> TerminatesTls(r)
  {
    ListedProbesLead(t, config, q, entry);
    ProbesWinExactly(t, config, q, entry, a);
    AuditGuarantee(t, config, q, entry, a, r);
    RoleConditions(config, r);
    ListedMention(t, config, r, entry);
  }

  lemma ListedMention(t: Traefik, config: Config, r: Router, entry: string)
    requires config.Config? && ListsEntrypoints(config)
    requires HasRouter(config, r) && RoleOf(r) != Neither && Listens(t, r, entry)
    ensures Mentions(r.entryPoints, entry)
  {
    var e :| e in config.routers && e.1 == Mapping(r);
    RolesAreRouters(config.routers, RoleOf(r), e.0, r);
    assert (e.0, r).1.entryPoints.Items?;
  }

  lemma ProbeIsAbove(config: Config, entry: string, p: Router, a: Router)
    requires Passes(config) && entry in ENTRYPOINTS && HasRouter(config, p) && HasRouter(config, a)
    requires RoleOf(p) == Probe && RoleOf(a) == App
    requires Mentions(p.entryPoints, entry) && Mentions(a.entryPoints, entry)
    ensures Above(p, a)
  {
    var ep :| ep in config.routers && ep.1 == Mapping(p);
    var ea :| ea in config.routers && ea.1 == Mapping(a);
    RolesAreRouters(config.routers, Probe, ep.0, p);
    RolesAreRouters(config.routers, App, ea.0, a);
    assert Above((ep.0, p).1, (ea.0, a).1);
  }
}
