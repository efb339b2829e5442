/** When the verdict on a rule must be positive: what it has to recognise, matcher by matcher and tree by tree. */
module VerdictComplete {
  import opened Text
  import opened RuleTokens
  import opened RuleSyntax
  import opened RuleVerdict
  import RegexpComplete
  import RegexpProver
  import RegexpSyntax

  const PREFIX := RegexpProver.PREFIX

  predicate KnownHost(name: string, args: seq<string>) {
    name == "Host" && args != [] && forall a <- args :: IsAscii(a)
  }

  predicate KnownPath(name: string, args: seq<string>) {
    (name == "Path" || name == "PathPrefix") && args != []
  }

  /** A usual pattern whose literal shows that no path under the prefix can match. */
  ghost predicate ShownPattern(pattern: string) {
    exists items: RegexpSyntax.Items ::
      && RegexpComplete.UsualItems(items) && pattern == "^" + RegexpSyntax.PrintItems(items)
      && RegexpComplete.Lead(items) != "" && !RegexpComplete.Hides(items)
      && !(PREFIX <= RegexpComplete.Lead(items)) && !(RegexpComplete.Lead(items) <= PREFIX)
  }

  lemma ShownPatternFound(pattern: string)
    requires ShownPattern(pattern)
    ensures RegexpProver.RegexpDisjoint(pattern)
  {
    var items: RegexpSyntax.Items :|
      && RegexpComplete.UsualItems(items) && pattern == "^" + RegexpSyntax.PrintItems(items)
      && RegexpComplete.Lead(items) != "" && !RegexpComplete.Hides(items)
      && !(PREFIX <= RegexpComplete.Lead(items)) && !(RegexpComplete.Lead(items) <= PREFIX);
    RegexpComplete.UsualPatternVerdict(items);
  }

  // ----- one matcher -----

  /** A host matcher that is not judged disjoint accepts a host of the application, whatever the path. */
  lemma HostAccepted(w: World, args: seq<string>, hosts: set<string>) returns (h: string)
    requires KnownHost("Host", args) && !MatcherDisjoint("Host", args, hosts)
    ensures hosts == {} || h in hosts
    ensures forall path, other :: MatcherAccepts(w, "Host", args, Request(h, path, other))
  {
    var a := args[0];
    if hosts == {} {
      h := Lower(a);
      HostRequestsExact(a, h);
    } else {
      a :| a in args && !(HostRequests(a) !! hosts);
      h :| h in HostRequests(a) && h in hosts;
      HostRequestsExact(a, h);
    }
    assert a in args && IsAscii(a) && HostAccepts(a, h);
  }

  /** A path matcher that is not judged disjoint accepts a path under the prefix, whatever the host. */
  lemma PathAccepted(w: World, name: string, args: seq<string>, hosts: set<string>) returns (path: string)
    requires KnownPath(name, args) && !MatcherDisjoint(name, args, hosts)
    ensures PREFIX <= path
    ensures forall h, other :: MatcherAccepts(w, name, args, Request(h, path, other))
  {
    if name == "Path" {
      path :| path in args && PREFIX <= path;
    } else {
      var a :| a in args && (PREFIX <= a || a <= PREFIX);
      path := if PREFIX <= a then a else PREFIX;
      assert a in args && a <= path;
    }
  }

  /** Host, Path and PathPrefix are judged disjoint just when no request of the application under the prefix is accepted. */
  lemma MatcherExact(w: World, name: string, args: seq<string>, hosts: set<string>)
    requires KnownHost(name, args) || KnownPath(name, args)
    ensures MatcherDisjoint(name, args, hosts) <==> forall q | Concerned(q, hosts) :: !MatcherAccepts(w, name, args, q)
  {
    if MatcherDisjoint(name, args, hosts) {
      forall q | Concerned(q, hosts)
        ensures !MatcherAccepts(w, name, args, q)
      {
        MatcherSound(w, name, args, hosts, q);
      }
    } else {
      var h, path := if hosts == {} then "" else SomeHost(hosts), PREFIX;
      if name == "Host" {
        h := HostAccepted(w, args, hosts);
      } else {
        path := PathAccepted(w, name, args, hosts);
      }
      assert Concerned(Request(h, path, ""), hosts) && MatcherAccepts(w, name, args, Request(h, path, ""));
    }
  }

  ghost function SomeHost(hosts: set<string>): (h: string)
    requires hosts != {}
    ensures h in hosts
  {
    var h :| h in hosts;
    h
  }

  /** Whatever the check does not know may accept everything. */
  ghost function Generous(): World {
    World((_, _, _) => true, (_, _) => true, (_, _) => true,
          RegexpSyntax.Oracle((_, _, _, _, _) => true, (_, _) => ""))
  }

  /** Every matcher but PathRegexp is judged disjoint just when no Traefik whatever accepts such a request for it. */
  lemma MatcherExactInEveryWorld(name: string, args: seq<string>, hosts: set<string>)
    requires name != "PathRegexp"
    ensures MatcherDisjoint(name, args, hosts)
      <==> forall w: World, q | Concerned(q, hosts) :: !MatcherAccepts(w, name, args, q)
  {
    if MatcherDisjoint(name, args, hosts) {
      forall w: World, q | Concerned(q, hosts)
        ensures !MatcherAccepts(w, name, args, q)
      {
        MatcherSound(w, name, args, hosts, q);
      }
    } else if KnownHost(name, args) || KnownPath(name, args) {
      MatcherExact(Generous(), name, args, hosts);
    } else {
      var q := Request(if hosts == {} then "" else SomeHost(hosts), PREFIX, "");
      assert Concerned(q, hosts) && MatcherAccepts(Generous(), name, args, q);
    }
  }

  /** `x` is `a` with its ASCII capitals in lower case. */
  predicate IsLowerOf(x: string, a: string) {
    && |x| == |a|
    && forall i | 0 <= i < |a| :: if 'A' <= a[i] <= 'Z' then x[i] as int == a[i] as int + 32 else x[i] == a[i]
  }

  lemma LowerIs(x: string, a: string)
    ensures x == Lower(a) <==> IsLowerOf(x, a)
  {
    if IsLowerOf(x, a) {
      assert forall i | 0 <= i < |a| :: x[i] == Lower(a)[i];
    }
  }

  /** A rule host accepts its own name in lower case, and that with one period more or one less at the end. */
  lemma HostMeans(a: string, h: string)
    ensures HostAccepts(a, h)
      <==> IsLowerOf(h, a) || IsLowerOf(h + ".", a) || (h != "" && h[|h| - 1] == '.' && IsLowerOf(h[..|h| - 1], a))
  {
    LowerIs(h, a);
    LowerIs(h + ".", a);
    if h != "" && h[|h| - 1] == '.' {
      LowerIs(h[..|h| - 1], a);
      assert h == h[..|h| - 1] + ".";
    }
    if h == Lower(a) + "." {
      assert h[|h| - 1] == '.' && h[..|h| - 1] == Lower(a);
    }
  }

  // ----- trees -----

  /** The matcher shows that it refuses: it accepts no such request, or its patterns all show it. */
  ghost predicate MatcherShows(w: World, name: string, args: seq<string>, hosts: set<string>) {
    || ((KnownHost(name, args) || KnownPath(name, args)) && forall q | Concerned(q, hosts) :: !MatcherAccepts(w, name, args, q))
    || (name == "PathRegexp" && args != [] && forall a <- args :: ShownPattern(a))
  }

  /**
   Somewhere the tree shows that it refuses: in one of the operands of each `&&`, in all operands of
   each `||`. Under a `!` nothing is shown.
   */
  ghost predicate Shows(w: World, t: Syntax, hosts: set<string>) {
    match t
    case Join(Or, left, right) => Shows(w, left, hosts) && Shows(w, right, hosts)
    case Join(And, left, right) => Shows(w, left, hosts) || Shows(w, right, hosts)
    case Not(_) => false
    case Paren(x) => Shows(w, x, hosts)
    case Match(name, args) => MatcherShows(w, name, args, hosts)
  }

  predicate HasRegexp(t: Syntax) {
    match t
    case Join(_, left, right) => HasRegexp(left) || HasRegexp(right)
    case Not(x) => HasRegexp(x)
    case Paren(x) => HasRegexp(x)
    case Match(name, _) => name == "PathRegexp"
  }

  lemma MatcherFound(w: World, name: string, args: seq<string>, hosts: set<string>)
    ensures MatcherShows(w, name, args, hosts) ==> MatcherDisjoint(name, args, hosts)
    ensures MatcherDisjoint(name, args, hosts) && name != "PathRegexp" ==> MatcherShows(w, name, args, hosts)
  {
    if KnownHost(name, args) || KnownPath(name, args) {
      MatcherExact(w, name, args, hosts);
    } else if MatcherShows(w, name, args, hosts) {
      forall a <- args
        ensures RegexpProver.RegexpDisjoint(a)
      {
        ShownPatternFound(a);
      }
    }
  }

  /** What a tree shows is found, and without regular expressions nothing else is. */
  lemma {:induction false} VerdictFindsWhatIsShown(w: World, t: Syntax, hosts: set<string>)
    ensures Shows(w, t, hosts) ==> Verdict(t, hosts)
    ensures Verdict(t, hosts) && !HasRegexp(t) ==> Shows(w, t, hosts)
  {
    match t
    case Join(_, left, right) =>
      VerdictFindsWhatIsShown(w, left, hosts);
      VerdictFindsWhatIsShown(w, right, hosts);
    case Not(_) =>
    case Paren(x) =>
      VerdictFindsWhatIsShown(w, x, hosts);
    case Match(name, args) =>
      MatcherFound(w, name, args, hosts);
  }

  // ----- the rules of hosts and paths, where the verdict is exact -----

  predicate HostsOnly(t: Syntax) {
    match t
    case Join(Or, left, right) => HostsOnly(left) && HostsOnly(right)
    case Paren(x) => HostsOnly(x)
    case Match(name, args) => KnownHost(name, args)
    case _ => false
  }

  predicate PathsOnly(t: Syntax) {
    match t
    case Join(Or, left, right) => PathsOnly(left) && PathsOnly(right)
    case Paren(x) => PathsOnly(x)
    case Match(name, args) => KnownPath(name, args)
    case _ => false
  }

  /** Alternatives, each of hosts, of paths, or of hosts and paths. */
  predicate HostsAndPaths(t: Syntax) {
    || HostsOnly(t)
    || PathsOnly(t)
    || match t
       case Join(Or, left, right) => HostsAndPaths(left) && HostsAndPaths(right)
       case Join(And, left, right) => (HostsOnly(left) && PathsOnly(right)) || (PathsOnly(left) && HostsOnly(right))
       case Paren(x) => HostsAndPaths(x)
       case _ => false
  }

  lemma {:induction false} SomeHostAccepted(w: World, t: Syntax, hosts: set<string>) returns (h: string)
    requires HostsOnly(t) && !Verdict(t, hosts)
    ensures hosts == {} || h in hosts
    ensures forall path, other :: Accepts(w, t, Request(h, path, other))
    decreases t
  {
    match t
    case Join(_, left, right) =>
      if !Verdict(left, hosts) {
        h := SomeHostAccepted(w, left, hosts);
      } else {
        h := SomeHostAccepted(w, right, hosts);
      }
    case Paren(x) =>
      h := SomeHostAccepted(w, x, hosts);
    case Match(name, args) =>
      h := HostAccepted(w, args, hosts);
  }

  lemma {:induction false} SomePathAccepted(w: World, t: Syntax, hosts: set<string>) returns (path: string)
    requires PathsOnly(t) && !Verdict(t, hosts)
    ensures PREFIX <= path
    ensures forall h, other :: Accepts(w, t, Request(h, path, other))
    decreases t
  {
    match t
    case Join(_, left, right) =>
      if !Verdict(left, hosts) {
        path := SomePathAccepted(w, left, hosts);
      } else {
        path := SomePathAccepted(w, right, hosts);
      }
    case Paren(x) =>
      path := SomePathAccepted(w, x, hosts);
    case Match(name, args) =>
      path := PathAccepted(w, name, args, hosts);
  }

  lemma {:induction false} SomeRequestAccepted(w: World, t: Syntax, hosts: set<string>) returns (q: Request)
    requires HostsAndPaths(t) && !Verdict(t, hosts)
    ensures Concerned(q, hosts) && Accepts(w, t, q)
    decreases t
  {
    var h, path := if hosts == {} then "" else SomeHost(hosts), PREFIX;
    if HostsOnly(t) {
      h := SomeHostAccepted(w, t, hosts);
      q := Request(h, path, "");
    } else if PathsOnly(t) {
      path := SomePathAccepted(w, t, hosts);
      q := Request(h, path, "");
    } else {
      match t
      case Join(Or, left, right) =>
        if !Verdict(left, hosts) {
          q := SomeRequestAccepted(w, left, hosts);
        } else {
          q := SomeRequestAccepted(w, right, hosts);
        }
      case Join(And, left, right) =>
        if HostsOnly(left) && PathsOnly(right) {
          h := SomeHostAccepted(w, left, hosts);
          path := SomePathAccepted(w, right, hosts);
        } else {
          path := SomePathAccepted(w, left, hosts);
          h := SomeHostAccepted(w, right, hosts);
        }
        q := Request(h, path, "");
      case Paren(x) =>
        q := SomeRequestAccepted(w, x, hosts);
    }
  }

  /**
   For every text of a rule that reads as alternatives of hosts and paths, the verdict is exact: it is
   positive just when the rule accepts no request of the application under the prefix.
   */
  lemma VerdictExact(w: World, rule: string, hosts: set<string>)
    requires ReadRule(rule).Some? && HostsAndPaths(ReadRule(rule).value)
    ensures ProvablyDisjoint(rule, hosts) <==> forall q | Concerned(q, hosts) :: !RuleAccepts(w, rule, q)
  {
    if ProvablyDisjoint(rule, hosts) {
      forall q | Concerned(q, hosts)
        ensures !RuleAccepts(w, rule, q)
      {
        ProvablyDisjointIsSound(w, rule, hosts, q);
      }
    } else {
      var q := SomeRequestAccepted(w, ReadRule(rule).value, hosts);
      assert RuleAccepts(w, rule, q);
    }
  }

  /** Whatever the other operand is: `&&` with a matcher that shows its refusal makes the rule disjoint. */
  lemma OneRefusingOperandIsEnough(w: World, f: Formula, name: string, args: seq<string>, hosts: set<string>)
    requires PrintableFormula(Both(f, Atom(name, args))) && MatcherShows(w, name, args, hosts)
    ensures ProvablyDisjoint(Print(Unparse(Write(Both(f, Atom(name, args))))), hosts)
    ensures ProvablyDisjoint(Print(Unparse(Write(Both(Atom(name, args), f)))), hosts)
  {
    MatcherFound(w, name, args, hosts);
    PrintedVerdict(Both(f, Atom(name, args)), hosts);
    PrintedVerdict(Both(Atom(name, args), f), hosts);
  }

  /** `||` of rules is judged disjoint just when each of them is. */
  lemma EveryAlternativeCounts(f: Formula, g: Formula, hosts: set<string>)
    requires PrintableFormula(Either(f, g))
    ensures ProvablyDisjoint(Print(Unparse(Write(Either(f, g)))), hosts)
      <==> ProvablyDisjoint(Print(Unparse(Write(f))), hosts) && ProvablyDisjoint(Print(Unparse(Write(g))), hosts)
  {
    PrintedVerdict(Either(f, g), hosts);
    PrintedVerdict(f, hosts);
    PrintedVerdict(g, hosts);
  }
}
