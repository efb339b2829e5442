/**
 What the audit does not notice: a notifications router that names no entry point listens on all of
 them, but is compared with no probe router.
 */
module GatewayGap {
  import opened Text
  import opened Middlewares
  import opened RuleVerdict
  import opened Gateway
  import opened GatewayGuarantee

  /** A copy of an application router with a priority of its own and no entry points. */
  function Unlisted(a: Router, priority: int): Router {
    a.(entryPoints := Null, priority := Int(priority))
  }

  function Extended(config: Config, name: string, r: Router): Config
    requires config.Config?
  {
    Config(config.routers + [(name, Mapping(r))], config.middlewares)
  }

  /** `n` is above the priority of every notifications router. */
  ghost predicate Highest(config: Config, n: int)
    requires config.Config?
  {
    n > 0 && forall role <- {App, Probe}, r <- WithRole(config.routers, role) ::
      EffectivePriority(r.1).Some? ==> EffectivePriority(r.1).value < n
  }

  lemma {:induction false} WithRoleExtended(routers: seq<(string, Entry)>, name: string, r: Router, role: Role)
    ensures WithRole(routers + [(name, Mapping(r))], role)
         == WithRole(routers, role) + if RoleOf(r) == role then [(name, r)] else []
  {
    var all := routers + [(name, Mapping(r))];
    if routers == [] {
      assert all == [(name, Mapping(r))] && WithRole(all[1..], role) == [];
    } else {
      WithRoleExtended(routers[1..], name, r, role);
      assert all[1..] == routers[1..] + [(name, Mapping(r))] && all[0] == routers[0];
    }
  }

  lemma SameHosts(apps: seq<(string, Router)>, name: string, a: Router, r: Router, other: string)
    requires (other, a) in apps && a.rule == r.rule
    ensures ApplicationHosts(apps + [(name, r)]) == ApplicationHosts(apps)
  {
    var more := apps + [(name, r)];
    assert forall x :: x in more <==> x in apps || x == (name, r);
    if forall x <- apps :: ApplicationHost(x.1.rule).Some? {
      assert ApplicationHost((other, a).1.rule).Some?;
      forall h
        ensures h in ApplicationHosts(more) <==> h in ApplicationHosts(apps)
      {
        if h in ApplicationHosts(more) {
          var x :| x in more && h in HostRequests(ApplicationHost(x.1.rule).value);
          var y := if x in apps then x else (other, a);
          assert y in apps && h in HostRequests(ApplicationHost(y.1.rule).value);
        }
        if h in ApplicationHosts(apps) {
          var x :| x in apps && h in HostRequests(ApplicationHost(x.1.rule).value);
          assert x in more;
        }
      }
    }
  }

  lemma StillNotShadowed(apps: seq<(string, Router)>, name: string, other: string, a: Router, n: int, x: Router)
    requires (other, a) in apps && EffectivePriority(a).Some? && EffectivePriority(a).value < n && n > 0
    requires !CanShadow(x, apps)
    ensures !CanShadow(x, apps + [(name, Unlisted(a, n))])
  {
    var r := Unlisted(a, n);
    SameHosts(apps, name, a, r, other);
    assert forall y :: y in apps + [(name, r)] <==> y in apps || y == (name, r);
    if Outranked(x, apps) {
      assert EffectivePriority(x).value < EffectivePriority((other, a).1).value;
      assert EffectivePriority(r) == Some(n);
    }
  }

  lemma StillCompared(entry: string, probes: seq<(string, Router)>, apps: seq<(string, Router)>, name: string, r: Router)
    requires EntrypointHolds(entry, probes, apps) && r.entryPoints == Null
    ensures EntrypointHolds(entry, probes, apps + [(name, r)])
  {
    assert forall y :: y in apps + [(name, r)] <==> y in apps || y == (name, r);
    var a :| a in apps && Mentions(a.1.entryPoints, entry);
    assert a in apps + [(name, r)];
  }

  lemma StillCompares(config: Config, name: string, r: Router)
    requires Passes(config) && r.entryPoints == Null
    ensures forall e <- ENTRYPOINTS ::
      EntrypointHolds(e, WithRole(config.routers, Probe), WithRole(config.routers, App) + [(name, r)])
  {
    forall e <- ENTRYPOINTS
      ensures EntrypointHolds(e, WithRole(config.routers, Probe), WithRole(config.routers, App) + [(name, r)])
    {
      StillCompared(e, WithRole(config.routers, Probe), WithRole(config.routers, App), name, r);
    }
  }

  lemma NoneShadows(config: Config, name: string, other: string, a: Router, n: int)
    requires Passes(config) && (other, Mapping(a)) in config.routers && RoleOf(a) == App && Highest(config, n)
    ensures forall x <- config.routers | RoleOf(x.1.router) == Neither ::
      !CanShadow(x.1.router, WithRole(config.routers, App) + [(name, Unlisted(a, n))])
  {
    var apps := WithRole(config.routers, App);
    RolesAreRouters(config.routers, App, other, a);
    RoleConditions(config, a);
    PriorityBelow(config, other, a, n);
    forall x <- config.routers | RoleOf(x.1.router) == Neither
      ensures !CanShadow(x.1.router, apps + [(name, Unlisted(a, n))])
    {
      StillNotShadowed(apps, name, other, a, n, x.1.router);
    }
  }

  lemma UnlistedHolds(a: Router, n: int, defs: Definitions)
    requires CommonHolds(a, defs) && AppHolds(a, defs)
    ensures CommonHolds(Unlisted(a, n), defs) && AppHolds(Unlisted(a, n), defs) && RoleOf(Unlisted(a, n)) == RoleOf(a)
  {
  }

  /** The audit asks nothing new of the extended configuration. */
  lemma StillPasses(config: Config, name: string, other: string, a: Router, n: int)
    requires Passes(config) && (other, Mapping(a)) in config.routers && RoleOf(a) == App && Highest(config, n)
    ensures Passes(Extended(config, name, Unlisted(a, n)))
  {
    RoleConditions(config, a);
    UnlistedHolds(a, n, config.middlewares);
    StillCompares(config, name, Unlisted(a, n));
    NoneShadows(config, name, other, a, n);
    PassesExtended(config, name, Unlisted(a, n));
  }

  lemma PriorityBelow(config: Config, name: string, a: Router, n: int)
    requires config.Config? && Highest(config, n) && RoleOf(a) != Neither && (name, Mapping(a)) in config.routers
    ensures EffectivePriority(a).Some? ==> EffectivePriority(a).value < n
  {
    RolesAreRouters(config.routers, RoleOf(a), name, a);
    assert EffectivePriority((name, a).1).Some? ==> EffectivePriority((name, a).1).value < n;
  }

  lemma PassesExtended(config: Config, name: string, r: Router)
    requires Passes(config) && RoleOf(r) == App && CommonHolds(r, config.middlewares) && AppHolds(r, config.middlewares)
    requires var more := WithRole(config.routers, App) + [(name, r)];
      (forall e <- ENTRYPOINTS :: EntrypointHolds(e, WithRole(config.routers, Probe), more))
      && forall x <- config.routers | RoleOf(x.1.router) == Neither :: !CanShadow(x.1.router, more)
    ensures Passes(Extended(config, name, r))
  {
    WithRoleExtended(config.routers, name, r, App);
    WithRoleExtended(config.routers, name, r, Probe);
    var probes := WithRole(config.routers, Probe);
    assert probes + [] == probes;
  }

  lemma ServersOfExtended(t: Traefik, config: Config, name: string, r: Router, q: Request, entry: string, s: Router)
    requires config.Config? && Serves(t, Extended(config, name, r), q, entry, s)
    ensures s == r || Serves(t, config, q, entry, s)
  {
    var e :| e in Extended(config, name, r).routers && e.1 == Mapping(s);
    assert e in config.routers || e == (name, Mapping(r));
  }

  lemma NotificationsBelow(t: Traefik, config: Config, r: Router, n: int)
    requires Passes(config) && Highest(config, n) && HasRouter(config, r) && RoleOf(r) != Neither
    ensures Priority(t, r) < n
  {
    var e :| e in config.routers && e.1 == Mapping(r);
    RoleConditions(config, r);
    PriorityBelow(config, e.0, r, n);
  }

  /** Nothing that matches along with the application router has a higher priority than `n`. */
  lemma NothingAbove(t: Traefik, config: Config, q: Request, entry: string, a: Router, s: Router, n: int)
    requires Passes(config) && Highest(config, n) && RefusesOddHosts(t) && entry in ENTRYPOINTS && PREFIX <= q.path
    requires HasRouter(config, a) && RoleOf(a) == App && RuleAccepts(t.rules, a.rule, q)
    requires Serves(t, config, q, entry, s)
    ensures Priority(t, s) <= n
  {
    if RoleOf(s) == Neither {
      NotificationsBelow(t, config, a, n);
      OthersAreBelow(t, config, q, entry, a, s);
    } else {
      NotificationsBelow(t, config, s, n);
    }
  }

  /** The new router matches what the old one matches, on every entry point. */
  lemma UnlistedServes(t: Traefik, config: Config, name: string, a: Router, n: int, q: Request, entry: string)
    requires config.Config? && RuleAccepts(t.rules, a.rule, q)
    ensures Serves(t, Extended(config, name, Unlisted(a, n)), q, entry, Unlisted(a, n))
  {
    assert (name, Mapping(Unlisted(a, n))) in Extended(config, name, Unlisted(a, n)).routers;
  }

  lemma NothingServesAbove(t: Traefik, config: Config, a: Router, n: int, q: Request, entry: string)
    requires Passes(config) && HasRouter(config, a) && RoleOf(a) == App && Highest(config, n)
    requires RefusesOddHosts(t) && entry in ENTRYPOINTS && PREFIX <= q.path && RuleAccepts(t.rules, a.rule, q)
    ensures forall s: Router | Serves(t, config, q, entry, s) :: Priority(t, s) <= n
  {
    forall s: Router | Serves(t, config, q, entry, s)
      ensures Priority(t, s) <= n
    {
      NothingAbove(t, config, q, entry, a, s, n);
    }
  }

  /** What is above all that matches wins. */
  lemma HighestWins(t: Traefik, config: Config, name: string, a: Router, n: int, q: Request, entry: string)
    requires config.Config? && n != 0 && RuleAccepts(t.rules, a.rule, q)
    requires forall s: Router | Serves(t, config, q, entry, s) :: Priority(t, s) <= n
    ensures Wins(t, Extended(config, name, Unlisted(a, n)), q, entry, Unlisted(a, n))
  {
    UnlistedServes(t, config, name, a, n, q, entry);
    assert Priority(t, Unlisted(a, n)) == n;
    forall s: Router | Serves(t, Extended(config, name, Unlisted(a, n)), q, entry, s)
      ensures Priority(t, s) <= n
    {
      ServersOfExtended(t, config, name, Unlisted(a, n), q, entry, s);
    }
  }

  lemma UnlistedWins(t: Traefik, config: Config, name: string, a: Router, n: int, q: Request, entry: string)
    requires Passes(config) && HasRouter(config, a) && RoleOf(a) == App && Highest(config, n)
    requires RefusesOddHosts(t) && entry in ENTRYPOINTS && PREFIX <= q.path && RuleAccepts(t.rules, a.rule, q)
    ensures Wins(t, Extended(config, name, Unlisted(a, n)), q, entry, Unlisted(a, n))
  {
    NothingServesAbove(t, config, a, n, q, entry);
    HighestWins(t, config, name, a, n, q, entry);
  }

  // ----- any priority, where every router has a role -----

  /** Where every router is an application or a probe router, the audit accepts whatever priority the new one has. */
  lemma StillPassesWithRoles(config: Config, name: string, other: string, a: Router, n: int)
    requires Passes(config) && (other, Mapping(a)) in config.routers && RoleOf(a) == App && n != 0
    requires forall e <- config.routers :: RoleOf(e.1.router) != Neither
    ensures Passes(Extended(config, name, Unlisted(a, n)))
  {
    assert (other, Mapping(a)).1 == Mapping(a);
    RoleConditions(config, a);
    UnlistedHolds(a, n, config.middlewares);
    StillCompares(config, name, Unlisted(a, n));
    PassesExtended(config, name, Unlisted(a, n));
  }

  lemma UnlistedIsUnlisted(config: Config, name: string, a: Router, n: int)
    requires config.Config? && RoleOf(a) == App
    ensures !ListsEntrypoints(Extended(config, name, Unlisted(a, n)))
  {
    var r := Unlisted(a, n);
    WithRoleExtended(config.routers, name, r, App);
    assert (name, r) in WithRole(Extended(config, name, r).routers, App);
    assert !(name, r).1.entryPoints.Items?;
  }

  /** A name not used yet keeps the wider configuration a dictionary, in which every router is still there. */
  lemma WiderIsDictionary(config: Config, name: string, r: Router)
    requires config.Config? && DistinctKeys(config.routers) && forall e <- config.routers :: e.0 != name
    ensures DistinctKeys(Extended(config, name, r).routers)
  {
  }

  lemma StillServes(t: Traefik, config: Config, name: string, r: Router, q: Request, entry: string, p: Router)
    requires config.Config? && Serves(t, config, q, entry, p)
    ensures Serves(t, Extended(config, name, r), q, entry, p)
  {
    var e :| e in config.routers && e.1 == Mapping(p);
    assert e in Extended(config, name, r).routers;
  }

  /**
   Give any passing configuration one more application router without entry points and with a high
   priority: it still passes, and every probe router still matches what it matched. Yet the new router
   wins every request its rule matches; a probe request among them reaches the backend unrewritten.
   */
  lemma UnlistedRouterTakesTheProbes(
      t: Traefik, config: Config, name: string, a: Router, n: int, q: Request, entry: string)
    requires Passes(config) && HasRouter(config, a) && RoleOf(a) == App && Highest(config, n)
    requires RefusesOddHosts(t) && entry in ENTRYPOINTS && PREFIX <= q.path && RuleAccepts(t.rules, a.rule, q)
    ensures var wider := Extended(config, name, Unlisted(a, n));
      && Passes(wider)
      && (DistinctKeys(config.routers) && (forall e <- config.routers :: e.0 != name) ==> DistinctKeys(wider.routers))
      && (forall p: Router | Serves(t, config, q, entry, p) :: Serves(t, wider, q, entry, p))
      && Wins(t, wider, q, entry, Unlisted(a, n))
      && Received(t, wider, Unlisted(a, n), q.path) == q.path
      && (IsProbePath(q.path) ==> q.path != ProbePath(q.path))
  {
    var ea :| ea in config.routers && ea.1 == Mapping(a);
    StillPasses(config, name, ea.0, a, n);
    RoleConditions(config, a);
    BackendPathOfRole(t, a, config.middlewares, q.path);
    UnlistedWins(t, config, name, a, n, q, entry);
    OnlyProbesAreRewritten(q.path);
    if DistinctKeys(config.routers) && forall e <- config.routers :: e.0 != name {
      WiderIsDictionary(config, name, Unlisted(a, n));
    }
    forall p: Router | Serves(t, config, q, entry, p)
      ensures Serves(t, Extended(config, name, Unlisted(a, n)), q, entry, p)
    {
      StillServes(t, config, name, Unlisted(a, n), q, entry, p);
    }
  }
}
