/**
 The audit of the gateway's notifications routes: what it requires of the configuration. What
 passing it guarantees about traffic is in GatewayGuarantee.
 */
module Gateway {
  import opened Text
  import opened Middlewares
  import opened RuleVerdict
  import RegexpProver

  const PROBES := ["healthz", "readyz", "version"]
  const PROBE_REGEX := "^/api/notifications/(healthz|readyz|version)$"
  const PROBE_REPLACEMENT := "/${1}"
  const PATH_MIDDLEWARES := {"stripPrefix", "stripPrefixRegex", "replacePath", "replacePathRegex", "addPrefix"}
  const ENTRYPOINTS := ["web", "websecure"]
  const PREFIX := RegexpProver.PREFIX
  const SERVICE := "notification-service"
  const HEADERS := "security-headers"
  const TLS_KEYS := {"options", "certResolver", "domains"}

  /** A router mapping. A field the mapping leaves out is Null, a missing rule the empty text. */
  datatype Router = Router(
    rule: string,
    priority: Value,
    entryPoints: Value,
    service: Value,
    middlewares: Value,
    tls: Value)

  datatype Entry = Mapping(router: Router) | NotMapping

  /** A dictionary of the source, as its items in order; a key occurs once. */
  ghost predicate DistinctKeys<T>(items: seq<(string, T)>) {
    forall i, j | 0 <= i < j < |items| :: items[i].0 != items[j].0
  }

  datatype Config = Malformed | Config(routers: seq<(string, Entry)>, middlewares: Definitions)

  // ----- reading a router -----

  /** `word` followed by a back-quoted argument in parentheses, anywhere in `rule` from `i` on: the arguments. */
  function Captures(rule: string, i: nat, word: string): set<string>
    requires word != ""
    decreases |rule| - i
  {
    if i >= |rule| then {}
    else
      if (i > 0 && IsWord(rule[i - 1])) || !At(rule, i, word + "(`") then Captures(rule, i + 1, word)
      else
        var start := i + |word| + 2;
        var end := Find(rule, start, '`');
        if end > start && At(rule, end, "`)") then {rule[start..end]} + Captures(rule, end + 2, word)
        else Captures(rule, i + 1, word)
  }

  datatype Role = App | Probe | Neither

  function RoleOf(router: Router): Role {
    var exact, prefixes := Captures(router.rule, 0, "Path"), Captures(router.rule, 0, "PathPrefix");
    if exists p <- prefixes :: p == PREFIX || PREFIX + "/" <= p then App
    else if exists p <- exact :: PREFIX + "/" <= p then Probe
    else Neither
  }

  /** The routers that have the role, in order. */
  function WithRole(routers: seq<(string, Entry)>, role: Role): seq<(string, Router)> {
    if routers == [] then []
    else
      var (name, entry) := routers[0];
      (if entry.Mapping? && RoleOf(entry.router) == role then [(name, entry.router)] else [])
      + WithRole(routers[1..], role)
  }

  /** The length of a text in UTF-8. */
  function Utf8Length(s: string): nat {
    if s == "" then 0
    else
      var n := s[0] as int;
      (if n < 0x80 then 1 else if n < 0x800 then 2 else if n < 0x1_0000 then 3 else 4) + Utf8Length(s[1..])
  }

  /** The priority Traefik gives the router, or None when it is not a plain integer. */
  function EffectivePriority(router: Router): Option<int> {
    match router.priority
    case Null => Some(Utf8Length(router.rule))
    case Int(i) => Some(if i == 0 then Utf8Length(router.rule) else i)
    case _ => None
  }

  /** Whether Python can look a name up in the value; anything else raises TypeError. */
  predicate Searchable(points: Value) {
    match points
    case Int(i) => i == 0
    case Bool(b) => !b
    case Other(_) => false
    case _ => true
  }

  /** Python's `entry in (points or [])`. */
  predicate Mentions(points: Value, entry: string) {
    match points
    case Items(items) => Text(entry) in items
    case Text(s) => Contains(s, entry)
    case Fields(fields) => entry in Keys(fields)
    case _ => false
  }

  predicate TerminatesTls(router: Router) {
    router.tls.Fields? && Keys(router.tls.fields) <= TLS_KEYS
  }

  predicate HasSecurityHeaders(applied: seq<Applied>) {
    exists a <- applied :: a.name == HEADERS && a.kind == "headers"
  }

  function PathChangers(applied: seq<Applied>): seq<Applied> {
    if applied == [] then []
    else (if applied[0].kind in PATH_MIDDLEWARES then [applied[0]] else []) + PathChangers(applied[1..])
  }

  predicate IsProbeRewrite(a: Applied) {
    && a.kind == "replacePathRegex" && a.body.Fields?
    && Keys(a.body.fields) == {"regex", "replacement"}
    && Get(a.body.fields, "regex") == Some(Text(PROBE_REGEX))
    && Get(a.body.fields, "replacement") == Some(Text(PROBE_REPLACEMENT))
  }

  /** How often `part` occurs in `s` without overlap. */
  function Count(s: string, part: string): nat
    requires part != ""
    decreases |s|
  {
    if s == "" then 0
    else if part <= s then 1 + Count(s[|part|..], part)
    else Count(s[1..], part)
  }

  /** Whether the router listens on a public entry point; anything unreadable counts as yes. */
  predicate PublicEntrypoints(router: Router) {
    match router.entryPoints
    case Items(items) => items == [] || exists e <- ENTRYPOINTS :: Text(e) in items
    case _ => true
  }

  /** Python cannot put a list or a mapping into a set. */
  predicate Hashable(points: Value) {
    points.Items? ==> forall x <- points.items :: !x.Items? && !x.Fields?
  }

  /** Host(`h`) at the front of a rule, after white space: the host, and the position behind it. */
  function HostFront(rule: string): (r: Option<(string, nat)>)
    ensures r.Some? ==> r.value.1 <= |rule|
  {
    var i := SkipSpace(rule, 0);
    if !At(rule, i, "Host(`") then None
    else
      var end := Find(rule, i + 6, '`');
      if end == i + 6 || !At(rule, end, "`)") then None else Some((rule[i + 6..end], end + 2))
  }

  /** && PathPrefix(PREFIX) from `i` to the end of a rule, white space aside. */
  predicate PrefixRest(rule: string, i: nat)
    requires i <= |rule|
  {
    var sign := SkipSpace(rule, i);
    && At(rule, sign, "&&")
    && var last := SkipSpace(rule, sign + 2);
       var text := "PathPrefix(`" + PREFIX + "`)";
       At(rule, last, text) && SkipSpace(rule, last + |text|) == |rule|
  }

  /** The host of a rule of the exact form Host(`h`) && PathPrefix(PREFIX), white space around it aside. */
  function ApplicationHost(rule: string): Option<string> {
    var (host, next) :- HostFront(rule);
    if PrefixRest(rule, next) then Some(host) else None
  }

  /** Every application router is restricted to hosts, and these are the request hosts; otherwise none. */
  function ApplicationHosts(apps: seq<(string, Router)>): set<string> {
    if exists a <- apps :: ApplicationHost(a.1.rule).None? then {}
    else set a <- apps, h <- HostRequests(ApplicationHost(a.1.rule).value) :: h
  }

  // ----- what passing means, condition by condition -----

  predicate CommonHolds(router: Router, defs: Definitions) {
    var expansion := Resolve(router.middlewares, defs);
    && expansion.faults == []
    && router.service == Text(SERVICE)
    && HasSecurityHeaders(expansion.items)
    && Searchable(router.entryPoints)
    && (Mentions(router.entryPoints, "websecure") ==> TerminatesTls(router))
    && EffectivePriority(router).Some?
  }

  predicate ProbeHolds(router: Router, defs: Definitions) {
    && Captures(router.rule, 0, "PathPrefix") == {}
    && Captures(router.rule, 0, "Path") == (set p <- PROBES :: PREFIX + "/" + p)
    && var changers := PathChangers(Resolve(router.middlewares, defs).items);
       |changers| == 1 && IsProbeRewrite(changers[0])
  }

  predicate AppHolds(router: Router, defs: Definitions) {
    && Count(router.rule, "PathPrefix") == 1 && !Contains(router.rule, "Path(")
    && PathChangers(Resolve(router.middlewares, defs).items) == []
  }

  /** Both roles are present on the entry point, and every probe router is above every application router. */
  predicate EntrypointHolds(entry: string, probes: seq<(string, Router)>, apps: seq<(string, Router)>) {
    && (exists p <- probes :: Mentions(p.1.entryPoints, entry))
    && (exists a <- apps :: Mentions(a.1.entryPoints, entry))
    && (forall p <- probes, a <- apps | Mentions(p.1.entryPoints, entry) && Mentions(a.1.entryPoints, entry) ::
          Above(p.1, a.1))
  }

  /** `r` is known to have the higher priority; where one of the two is unknown, nothing is asked. */
  predicate Above(r: Router, s: Router) {
    EffectivePriority(r).Some? && EffectivePriority(s).Some? ==>
      EffectivePriority(r).value > EffectivePriority(s).value
  }

  /** Proven to lose to every application router. */
  predicate Outranked(router: Router, apps: seq<(string, Router)>) {
    && EffectivePriority(router).Some?
    && forall a <- apps ::
         EffectivePriority(a.1).Some? && EffectivePriority(router).value < EffectivePriority(a.1).value
  }

  predicate CanShadow(router: Router, apps: seq<(string, Router)>) {
    && PublicEntrypoints(router)
    && !Outranked(router, apps)
    && !ProvablyDisjoint(router.rule, ApplicationHosts(apps))
  }

  ghost predicate Passes(config: Config) {
    && config.Config?
    && var apps, probes := WithRole(config.routers, App), WithRole(config.routers, Probe);
       && (forall r <- config.routers :: r.1.Mapping?)
       && (forall a <- apps :: CommonHolds(a.1, config.middlewares) && AppHolds(a.1, config.middlewares))
       && (forall p <- probes :: CommonHolds(p.1, config.middlewares) && ProbeHolds(p.1, config.middlewares))
       && (forall e <- ENTRYPOINTS :: EntrypointHolds(e, probes, apps))
       && (forall r <- config.routers | RoleOf(r.1.router) == Neither ::
             Hashable(r.1.router.entryPoints) && !CanShadow(r.1.router, apps))
  }

  lemma {:induction false} RolesAreRouters(routers: seq<(string, Entry)>, role: Role, name: string, router: Router)
    ensures (name, router) in WithRole(routers, role)
            <==> (name, Mapping(router)) in routers && RoleOf(router) == role
  {
    if routers != [] {
      var rest := WithRole(routers[1..], role);
      RolesAreRouters(routers[1..], role, name, router);
      assert forall e :: e in routers <==> e == routers[0] || e in routers[1..];
      var (n, entry) := routers[0];
      assert WithRole(routers, role)
          == (if entry.Mapping? && RoleOf(entry.router) == role then [(n, entry.router)] else []) + rest;
    }
  }
}
