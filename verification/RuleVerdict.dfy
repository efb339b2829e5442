/**
 Whether a rule is proved never to match a request of the application under the notifications
 prefix, and what that verdict is worth.
 */
module RuleVerdict {
  import opened Text
  import opened RuleTokens
  import opened RuleSyntax
  import opened RegexpProver
  import RegexpSyntax

  // ----- requests, and what Traefik accepts -----

  /** `host` is the canonical request host: lower case and trimmed. `other` is the rest of the request. */
  datatype Request = Request(host: string, path: string, other: string)

  /** Everything about Traefik that the check does not know; nothing is assumed about any of it. */
  datatype World = World(
    matcher: (string, seq<string>, Request) -> bool,
    oddHost: (string, Request) -> bool,
    unread: (string, Request) -> bool,
    regexp: RegexpSyntax.Oracle)

  function LowerChar(c: char): char {
    if 'A' <= c <= 'Z' then (c as int + 32) as char else c
  }

  function Lower(s: string): string {
    seq(|s|, i requires 0 <= i < |s| => LowerChar(s[i]))
  }

  /** A rule host accepts a request host up to one trailing period on either side. */
  predicate HostAccepts(ruleHost: string, requestHost: string) {
    var h := Lower(ruleHost);
    requestHost == h || requestHost == h + "." || requestHost + "." == h
  }

  ghost predicate MatcherAccepts(w: World, name: string, args: seq<string>, q: Request) {
    if args == [] then w.matcher(name, args, q)
    else match name
      case "Host" => exists a <- args :: if IsAscii(a) then HostAccepts(a, q.host) else w.oddHost(a, q)
      case "Path" => q.path in args
      case "PathPrefix" => exists a <- args :: a <= q.path
      case "PathRegexp" => exists a <- args :: RegexpSyntax.PatternFound(w.regexp, a, q.path)
      case _ => w.matcher(name, args, q)
  }

  ghost predicate Accepts(w: World, t: Syntax, q: Request) {
    match t
    case Join(Or, left, right) => Accepts(w, left, q) || Accepts(w, right, q)
    case Join(And, left, right) => Accepts(w, left, q) && Accepts(w, right, q)
    case Not(x) => !Accepts(w, x, q)
    case Paren(x) => Accepts(w, x, q)
    case Match(name, args) => MatcherAccepts(w, name, args, q)
  }

  /** What a rule accepts, given as text; a text this file cannot read may accept anything. */
  ghost predicate RuleAccepts(w: World, rule: string, q: Request) {
    match ReadRule(rule)
    case Some(t) => Accepts(w, t, q)
    case None => w.unread(rule, q)
  }

  // ----- the verdict -----

  /** Every canonical request host that a rule host accepts. */
  function HostRequests(host: string): set<string> {
    var h := Lower(host);
    {h, h + "."} + if h != "" && h[|h| - 1] == '.' then {h[..|h| - 1]} else {}
  }

  lemma HostRequestsExact(host: string, r: string)
    ensures r in HostRequests(host) <==> HostAccepts(host, r)
  {
    var h := Lower(host);
    if h != "" && h[|h| - 1] == '.' {
      assert h[..|h| - 1] + "." == h;
    }
    if r + "." == h {
      assert h[|h| - 1] == '.' && h[..|h| - 1] == r;
    }
  }

  predicate HostsDisjoint(args: seq<string>, hosts: set<string>) {
    hosts != {} && forall a <- args :: IsAscii(a) && HostRequests(a) !! hosts
  }

  predicate MatcherDisjoint(name: string, args: seq<string>, hosts: set<string>) {
    if args == [] then false
    else match name
      case "Host" => HostsDisjoint(args, hosts)
      case "Path" => forall a <- args :: !(PREFIX <= a)
      case "PathPrefix" => forall a <- args :: !(PREFIX <= a) && !(a <= PREFIX)
      case "PathRegexp" => forall a <- args :: RegexpDisjoint(a)
      case _ => false
  }

  /** The verdict of a tree from the bottom up. */
  predicate Verdict(t: Syntax, hosts: set<string>) {
    match t
    case Join(Or, left, right) => Verdict(left, hosts) && Verdict(right, hosts)
    case Join(And, left, right) => Verdict(left, hosts) || Verdict(right, hosts)
    case Not(_) => false
    case Paren(x) => Verdict(x, hosts)
    case Match(name, args) => MatcherDisjoint(name, args, hosts)
  }

  predicate ProvablyDisjoint(rule: string, hosts: set<string>) {
    var t := ReadRule(rule);
    t.Some? && Verdict(t.value, hosts)
  }

  // ----- soundness -----

  /** The requests in question; an empty set of hosts means that the application answers on any host. */
  predicate Concerned(q: Request, hosts: set<string>) {
    PREFIX <= q.path && (hosts == {} || q.host in hosts)
  }

  lemma PrefixesCompatible(a: string, path: string)
    requires a <= path && PREFIX <= path
    ensures Compatible(a, PREFIX)
  {
    if !Compatible(a, PREFIX) {
      NotBothPrefixes(a, PREFIX, path);
    }
  }

  lemma MatcherSound(w: World, name: string, args: seq<string>, hosts: set<string>, q: Request)
    requires MatcherDisjoint(name, args, hosts) && Concerned(q, hosts)
    ensures !MatcherAccepts(w, name, args, q)
  {
    if name == "Host" {
      forall a <- args
        ensures !HostAccepts(a, q.host)
      {
        HostRequestsExact(a, q.host);
      }
    } else if name == "PathPrefix" {
      forall a <- args
        ensures !(a <= q.path)
      {
        if a <= q.path {
          PrefixesCompatible(a, q.path);
        }
      }
    } else if name == "PathRegexp" {
      forall a <- args
        ensures !RegexpSyntax.PatternFound(w.regexp, a, q.path)
      {
        RegexpDisjointIsSound(w.regexp, a, q.path);
      }
    }
  }

  /** A tree proved disjoint accepts no request of the application under the prefix. */
  lemma {:induction false} VerdictSound(w: World, t: Syntax, hosts: set<string>, q: Request)
    requires Verdict(t, hosts) && Concerned(q, hosts)
    ensures !Accepts(w, t, q)
  {
    match t
    case Join(Or, left, right) =>
      VerdictSound(w, left, hosts, q);
      VerdictSound(w, right, hosts, q);
    case Join(And, left, right) =>
      if Verdict(left, hosts) {
        VerdictSound(w, left, hosts, q);
      } else {
        VerdictSound(w, right, hosts, q);
      }
    case Paren(x) =>
      VerdictSound(w, x, hosts, q);
    case Match(name, args) =>
      MatcherSound(w, name, args, hosts, q);
  }

  /** For every rule text: proved disjoint means no request of the application under the prefix matches. */
  lemma ProvablyDisjointIsSound(w: World, rule: string, hosts: set<string>, q: Request)
    requires ProvablyDisjoint(rule, hosts) && Concerned(q, hosts)
    ensures !RuleAccepts(w, rule, q)
  {
    VerdictSound(w, ReadRule(rule).value, hosts, q);
  }

  /** Parentheses change neither what a rule accepts nor its verdict. */
  lemma {:induction false} FormulaDecides(w: World, t: Syntax, hosts: set<string>, q: Request)
    ensures Verdict(t, hosts) == Verdict(Write(FormulaOf(t)), hosts)
    ensures Accepts(w, t, q) == Accepts(w, Write(FormulaOf(t)), q)
  {
    match t
    case Join(_, left, right) => FormulaDecides(w, left, hosts, q); FormulaDecides(w, right, hosts, q);
    case Not(x) => FormulaDecides(w, x, hosts, q);
    case Paren(x) => FormulaDecides(w, x, hosts, q);
    case Match(_, _) =>
  }

  /** Printing a formula with minimal parentheses and judging the text judges the formula. */
  lemma PrintedVerdict(f: Formula, hosts: set<string>)
    requires PrintableFormula(f)
    ensures ProvablyDisjoint(Print(Unparse(Write(f))), hosts) <==> Verdict(Write(f), hosts)
  {
    FormulaRoundTrip(f);
  }

  // ----- the reader that judges while it reads -----

  function All(results: seq<bool>): bool {
    false !in results
  }

  function Any(results: seq<bool>): bool {
    true in results
  }

  function Combine(joiner: Joiner, results: seq<bool>): bool {
    if joiner == Or then All(results) else Any(results)
  }

  lemma CombineOne(joiner: Joiner, r: bool)
    ensures Combine(joiner, [r]) == r
  {
    assert r in [r];
  }

  lemma CombineMore(joiner: Joiner, results: seq<bool>, r: bool)
    ensures Combine(joiner, results + [r]) == if joiner == Or then Combine(joiner, results) && r else Combine(joiner, results) || r
  {
  }

  /** None stands for the ValueError of a rule that does not read. */
  class Reader {
    const tokens: seq<Token>
    const hosts: set<string>
    var at: nat

    constructor (tokens: seq<Token>, hosts: set<string>)
      ensures this.tokens == tokens && this.hosts == hosts && at == 0
    {
      this.tokens, this.hosts, this.at := tokens, hosts, 0;
    }

    predicate Valid()
      reads this
    {
      at <= |tokens|
    }

    function Peek(): Option<Token>
      requires Valid()
      reads this
    {
      if at < |tokens| then Some(tokens[at]) else None
    }

    method Take() returns (token: Option<Token>)
      requires Valid()
      modifies this
      ensures Valid() && token == old(Peek())
      ensures at == old(at) + if token.Some? then 1 else 0
    {
      token := Peek();
      if token.Some? {
        at := at + 1;
      }
    }

    /** What reading must give where the parser gives `parsed`: the verdict of its tree, read to its end. */
    ghost predicate Agrees(parsed: Parsed, r: Option<bool>)
      reads this
    {
      match parsed
      case Some((t, end)) => at == end && r == Some(Verdict(t, hosts))
      case None => r == None
    }

    method AnyOrAll(joiner: Joiner) returns (r: Option<bool>)
      requires Valid()
      modifies this
      ensures Valid() && Agrees(ParseJoined(tokens, old(at), joiner), r)
      decreases |tokens| - at, if joiner == Or then 5 else 3
    {
      ghost var start := at;
      var one := OperandOf(joiner);
      if one.None? {
        return None;
      }
      var results := [one.value];
      ghost var tree := ParseBelow(tokens, start, joiner).value.0;
      CombineOne(joiner, one.value);
      while Peek() == Some(joiner.Sign())
        invariant Valid() && start < at
        invariant ParseJoined(tokens, start, joiner) == ParseTail(tokens, at, joiner, tree)
        invariant Combine(joiner, results) == Verdict(tree, hosts)
        decreases |tokens| - at
      {
        ghost var before := at;
        var sign := Take();
        var next := OperandOf(joiner);
        if next.None? {
          return None;
        }
        CombineMore(joiner, results, next.value);
        results := results + [next.value];
        tree := Join(joiner, tree, ParseBelow(tokens, before + 1, joiner).value.0);
      }
      return Some(Combine(joiner, results));
    }

    method OperandOf(joiner: Joiner) returns (r: Option<bool>)
      requires Valid()
      modifies this
      ensures Valid() && Agrees(ParseBelow(tokens, old(at), joiner), r)
      decreases |tokens| - at, if joiner == Or then 4 else 2
    {
      if joiner == Or {
        r := AnyOrAll(And);
      } else {
        r := Operand();
      }
    }

    method Operand() returns (r: Option<bool>)
      requires Valid()
      modifies this
      ensures Valid() && Agrees(ParseOperand(tokens, old(at)), r)
      decreases |tokens| - at, 1
    {
      var token := Take();
      if token.None? {
        return None;
      }
      match token.value
      case NotOp =>
        var inner := Operand();
        return if inner.Some? then Some(false) else None;
      case Open =>
        var inner := AnyOrAll(Or);
        if inner.None? {
          return None;
        }
        var close := Take();
        return if close == Some(Close) then inner else None;
      case Matcher(name, args) =>
        return Some(MatcherDisjoint(name, args, hosts));
      case _ =>
        return None;
    }
  }

  method CheckProvablyDisjoint(rule: string, hosts: set<string>) returns (proven: bool)
    ensures proven <==> ProvablyDisjoint(rule, hosts)
  {
    var tokens := Tokenize(rule);
    if tokens.None? {
      return false;
    }
    var reader := new Reader(tokens.value, hosts);
    var verdict := reader.AnyOrAll(Or);
    return verdict == Some(true) && reader.Peek().None?;
  }
}
