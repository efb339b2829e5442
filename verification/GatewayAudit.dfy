/** The audit as the script runs it: one pass after another over the routers, collecting problems. */
module GatewayAudit {
  import opened Text
  import opened Middlewares
  import opened RuleVerdict
  import opened Gateway

  datatype Problem =
    | NotMappings
    | NotARouter(name: string)
    | BadMiddleware(name: string, fault: Fault)
    | WrongService(name: string)
    | NoHeaders(name: string)
    | NoTls(name: string)
    | BadPriority(name: string)
    | ProbePaths(name: string)
    | ProbeRewrite(name: string)
    | AppPaths(name: string)
    | AppRewrite(name: string, used: string, kind: string)
    | NoProbe(entry: string)
    | NoApp(entry: string)
    | ProbeNotAbove(entry: string)
    | Shadows(name: string)
    | Raised(name: string) // stands for a TypeError of the script, which then reports nothing at all

  class Auditor {
    const routers: seq<(string, Entry)>
    const defs: Definitions
    var problems: seq<Problem>
    var apps: seq<(string, Router)>
    var probes: seq<(string, Router)>

    constructor (routers: seq<(string, Entry)>, defs: Definitions)
      ensures this.routers == routers && this.defs == defs
      ensures problems == [] && apps == [] && probes == []
    {
      this.routers, this.defs, this.problems, this.apps, this.probes := routers, defs, [], [], [];
    }

    /** The problems so far are kept, and something is added just when `holds` fails. */
    twostate predicate Reports(holds: bool)
      reads this
    {
      old(problems) <= problems && (problems == old(problems) <==> holds)
    }

    method Classify()
      requires problems == [] && apps == [] && probes == []
      modifies this
      ensures apps == WithRole(routers, App) && probes == WithRole(routers, Probe)
      ensures problems == [] <==> forall r <- routers :: r.1.Mapping?
    {
      for i := 0 to |routers|
        invariant apps == WithRole(routers[..i], App) && probes == WithRole(routers[..i], Probe)
        invariant problems == [] <==> forall r <- routers[..i] :: r.1.Mapping?
      {
        var (name, entry) := routers[i];
        RoleOfLast(routers[..i], routers[i], App);
        RoleOfLast(routers[..i], routers[i], Probe);
        assert routers[..i + 1] == routers[..i] + [routers[i]];
        match entry
        case NotMapping =>
          problems := problems + [NotARouter(name)];
        case Mapping(router) =>
          var role := RoleOf(router);
          if role == App {
            apps := apps + [(name, router)];
          } else if role == Probe {
            probes := probes + [(name, router)];
          }
      }
      assert routers[..|routers|] == routers;
    }

    method ReportFaults(name: string, faults: seq<Fault>)
      modifies this`problems
      ensures Reports(faults == [])
    {
      for i := 0 to |faults|
        invariant old(problems) <= problems && |problems| == |old(problems)| + i
      {
        problems := problems + [BadMiddleware(name, faults[i])];
      }
    }

    method CheckCommon(name: string, router: Router) returns (changers: seq<Applied>)
      modifies this`problems
      ensures changers == PathChangers(Resolve(router.middlewares, defs).items)
      ensures Reports(CommonHolds(router, defs))
    {
      var applied := Resolve(router.middlewares, defs);
      ReportFaults(name, applied.faults);
      if router.service != Text(SERVICE) {
        problems := problems + [WrongService(name)];
      }
      if !HasSecurityHeaders(applied.items) {
        problems := problems + [NoHeaders(name)];
      }
      if !Searchable(router.entryPoints) {
        problems := problems + [Raised(name)];
      } else if Mentions(router.entryPoints, "websecure") && !TerminatesTls(router) {
        problems := problems + [NoTls(name)];
      }
      if EffectivePriority(router).None? {
        problems := problems + [BadPriority(name)];
      }
      changers := PathChangers(applied.items);
    }

    method CheckProbe(name: string, router: Router, changers: seq<Applied>)
      requires changers == PathChangers(Resolve(router.middlewares, defs).items)
      modifies this`problems
      ensures Reports(ProbeHolds(router, defs))
    {
      var exact, prefixes := Captures(router.rule, 0, "Path"), Captures(router.rule, 0, "PathPrefix");
      if prefixes != {} || exact != (set p <- PROBES :: PREFIX + "/" + p) {
        problems := problems + [ProbePaths(name)];
      }
      if |changers| != 1 || !IsProbeRewrite(changers[0]) {
        problems := problems + [ProbeRewrite(name)];
      }
    }

    method CheckApp(name: string, router: Router, changers: seq<Applied>)
      requires changers == PathChangers(Resolve(router.middlewares, defs).items)
      modifies this`problems
      ensures Reports(AppHolds(router, defs))
    {
      if Count(router.rule, "PathPrefix") != 1 || Contains(router.rule, "Path(") {
        problems := problems + [AppPaths(name)];
      }
      ghost var before := problems;
      for i := 0 to |changers|
        invariant before <= problems && |problems| == |before| + i
      {
        problems := problems + [AppRewrite(name, changers[i].name, changers[i].kind)];
      }
    }

    method CheckEntrypoint(entry: string)
      modifies this`problems
      ensures (forall r <- apps + probes :: EffectivePriority(r.1).Some?) ==> Reports(EntrypointHolds(entry, probes, apps))
      ensures old(problems) <= problems
    {
      var probe, app := On(entry, probes), On(entry, apps);
      OnExact(entry, probes);
      OnExact(entry, apps);
      if probe == [] {
        problems := problems + [NoProbe(entry)];
      } else {
        assert probe[0] in probe;
      }
      if app == [] {
        problems := problems + [NoApp(entry)];
      } else {
        assert app[0] in app;
      }
      if exists r <- app + probe :: EffectivePriority(r.1).None? {
        return;
      }
      if exists p <- probe, a <- app :: !Above(p.1, a.1) {
        problems := problems + [ProbeNotAbove(entry)];
      }
    }

    method CheckShadowing()
      modifies this`problems
      ensures Reports(apps == [] || forall r <- routers :: Spared(r, apps, probes))
    {
      if apps == [] {
        return;
      }
      for i := 0 to |routers|
        invariant old(problems) <= problems
        invariant problems == old(problems) <==> forall r <- routers[..i] :: Spared(r, apps, probes)
      {
        var (name, entry) := routers[i];
        ghost var before := problems;
        assert routers[..i + 1] == routers[..i] + [routers[i]];
        if !Named(name, apps) && !Named(name, probes) && entry.Mapping? {
          if !Hashable(entry.router.entryPoints) {
            problems := problems + [Raised(name)];
          } else if CanShadow(entry.router, apps) {
            problems := problems + [Shadows(name)];
          }
        }
        assert problems == before <==> Spared(routers[i], apps, probes);
        assert before != old(problems) ==> problems != old(problems);
      }
      assert routers[..|routers|] == routers;
    }

    method CheckEntrypoints()
      modifies this`problems
      ensures (forall r <- apps + probes :: EffectivePriority(r.1).Some?) ==>
        Reports(forall e <- ENTRYPOINTS :: EntrypointHolds(e, probes, apps))
      ensures old(problems) <= problems
    {
      ghost var readable := forall r <- apps + probes :: EffectivePriority(r.1).Some?;
      for i := 0 to |ENTRYPOINTS|
        invariant old(problems) <= problems
        invariant readable ==>
          (problems == old(problems) <==> forall e <- ENTRYPOINTS[..i] :: EntrypointHolds(e, probes, apps))
      {
        assert ENTRYPOINTS[..i + 1] == ENTRYPOINTS[..i] + [ENTRYPOINTS[i]];
        CheckEntrypoint(ENTRYPOINTS[i]);
      }
      assert ENTRYPOINTS[..|ENTRYPOINTS|] == ENTRYPOINTS;
    }

    method Run()
      requires problems == [] && apps == [] && probes == []
      requires DistinctKeys(routers)
      modifies this
      ensures problems == [] <==> Passes(Config(routers, defs))
    {
      Classify();
      CheckRole(apps, App);
      CheckRole(probes, Probe);
      CheckEntrypoints();
      CheckShadowing();
      PassesInSteps(routers, defs, apps, probes);
    }

    /** The checks of one role, for each of its routers. */
    method CheckRole(rs: seq<(string, Router)>, role: Role)
      requires role != Neither
      modifies this`problems
      ensures Reports(forall r <- rs :: RoleHolds(r.1, role, defs))
    {
      for i := 0 to |rs|
        invariant old(problems) <= problems
        invariant problems == old(problems) <==> forall r <- rs[..i] :: RoleHolds(r.1, role, defs)
      {
        assert rs[..i + 1] == rs[..i] + [rs[i]];
        var changers := CheckCommon(rs[i].0, rs[i].1);
        if role == App {
          CheckApp(rs[i].0, rs[i].1, changers);
        } else {
          CheckProbe(rs[i].0, rs[i].1, changers);
        }
      }
      assert rs[..|rs|] == rs;
    }
  }

  predicate RoleHolds(router: Router, role: Role, defs: Definitions) {
    CommonHolds(router, defs) && if role == App then AppHolds(router, defs) else ProbeHolds(router, defs)
  }

  /** A router the shadowing pass has nothing against. */
  predicate Spared(r: (string, Entry), apps: seq<(string, Router)>, probes: seq<(string, Router)>) {
    Named(r.0, apps) || Named(r.0, probes) || r.1.NotMapping?
    || (Hashable(r.1.router.entryPoints) && !CanShadow(r.1.router, apps))
  }

  lemma OneWithRole(first: (string, Entry), more: seq<(string, Entry)>, role: Role)
    ensures WithRole([first] + more, role)
         == (if first.1.Mapping? && RoleOf(first.1.router) == role then [(first.0, first.1.router)] else []) + WithRole(more, role)
  {
    assert ([first] + more)[1..] == more;
  }

  lemma {:induction false} RoleOfLast(routers: seq<(string, Entry)>, last: (string, Entry), role: Role)
    ensures WithRole(routers + [last], role)
         == WithRole(routers, role)
            + if last.1.Mapping? && RoleOf(last.1.router) == role then [(last.0, last.1.router)] else []
  {
    if routers == [] {
      OneWithRole(last, [], role);
      assert routers + [last] == [last] + [];
    } else {
      RoleOfLast(routers[1..], last, role);
      OneWithRole(routers[0], routers[1..], role);
      OneWithRole(routers[0], routers[1..] + [last], role);
      assert routers == [routers[0]] + routers[1..];
      assert routers + [last] == [routers[0]] + (routers[1..] + [last]);
    }
  }

  function On(entry: string, rs: seq<(string, Router)>): seq<(string, Router)> {
    if rs == [] then []
    else (if Mentions(rs[0].1.entryPoints, entry) then [rs[0]] else []) + On(entry, rs[1..])
  }

  lemma {:induction false} OnExact(entry: string, rs: seq<(string, Router)>)
    ensures forall r :: r in On(entry, rs) <==> r in rs && Mentions(r.1.entryPoints, entry)
  {
    if rs != [] {
      OnExact(entry, rs[1..]);
      assert forall r :: r in rs <==> r == rs[0] || r in rs[1..];
    }
  }

  predicate Named(name: string, rs: seq<(string, Router)>) {
    exists r <- rs :: r.0 == name
  }

  lemma NamedExact(routers: seq<(string, Entry)>, r: (string, Entry), role: Role)
    requires DistinctKeys(routers) && r in routers && r.1.Mapping?
    ensures Named(r.0, WithRole(routers, role)) <==> RoleOf(r.1.router) == role
  {
    RolesAreRouters(routers, role, r.0, r.1.router);
    if Named(r.0, WithRole(routers, role)) {
      var x :| x in WithRole(routers, role) && x.0 == r.0;
      RolesAreRouters(routers, role, x.0, x.1);
      assert (x.0, Mapping(x.1)) == r;
    }
  }

  /** Names tell roles apart, because a name is a key: the pass spares who has a role, by name. */
  lemma SparedExact(routers: seq<(string, Entry)>, apps: seq<(string, Router)>, probes: seq<(string, Router)>)
    requires DistinctKeys(routers) && apps == WithRole(routers, App) && probes == WithRole(routers, Probe)
    requires forall r <- routers :: r.1.Mapping?
    ensures (forall r <- routers :: Spared(r, apps, probes)) <==>
      forall r <- routers | RoleOf(r.1.router) == Neither :: Hashable(r.1.router.entryPoints) && !CanShadow(r.1.router, apps)
  {
    forall r <- routers
      ensures Named(r.0, apps) || Named(r.0, probes) <==> RoleOf(r.1.router) != Neither
    {
      NamedExact(routers, r, App);
      NamedExact(routers, r, Probe);
    }
  }

  lemma WebHasApps(probes: seq<(string, Router)>, apps: seq<(string, Router)>)
    requires forall e <- ENTRYPOINTS :: EntrypointHolds(e, probes, apps)
    ensures apps != []
  {
    assert "web" in ENTRYPOINTS;
  }

  /** The passes together ask for what `Passes` says. */
  lemma PassesInSteps(
      routers: seq<(string, Entry)>, defs: Definitions, apps: seq<(string, Router)>, probes: seq<(string, Router)>)
    requires DistinctKeys(routers) && apps == WithRole(routers, App) && probes == WithRole(routers, Probe)
    ensures Passes(Config(routers, defs)) <==>
      && (forall r <- routers :: r.1.Mapping?)
      && (forall a <- apps :: RoleHolds(a.1, App, defs)) && (forall p <- probes :: RoleHolds(p.1, Probe, defs))
      && (forall e <- ENTRYPOINTS :: EntrypointHolds(e, probes, apps))
      && (apps == [] || forall r <- routers :: Spared(r, apps, probes))
  {
    if forall r <- routers :: r.1.Mapping? {
      SparedExact(routers, apps, probes);
      if forall e <- ENTRYPOINTS :: EntrypointHolds(e, probes, apps) {
        WebHasApps(probes, apps);
      }
    }
  }

  /** The audit reports nothing exactly when every condition holds. */
  method Audit(config: Config) returns (report: seq<Problem>)
    requires config.Config? ==> DistinctKeys(config.routers)
    ensures report == [] <==> Passes(config)
  {
    if config.Malformed? {
      return [NotMappings];
    }
    var auditor := new Auditor(config.routers, config.middlewares);
    auditor.Run();
    report := auditor.problems;
  }
}
