/** What the audit asks of one router and of a whole configuration, told in the configuration's own words. */
module GatewayMeaning {
  import opened Text
  import opened Middlewares
  import opened RuleTokens
  import opened RuleSyntax
  import opened RuleVerdict
  import opened Gateway
  import opened GatewayGuarantee
  import opened GatewayGap
  import opened CallRules
  import GatewayExample

  // ----- the guarantee -----

  /** A middleware of this name and kind is applied. */
  predicate Applies(applied: seq<Applied>, name: string, kind: string) {
    exists a <- applied :: a.name == name && a.kind == kind
  }

  /**
   Whoever serves a request under /api/notifications on web or websecure, where some application router
   matches it: it goes to notification-service, through the headers middleware security-headers, and
   arrives as it was sent, or from a probe router as one of the three bare probe paths.
   */
  lemma GuaranteeInWords(t: Traefik, config: Config, q: Request, entry: string, a: Router, r: Router)
    requires Passes(config) && RefusesOddHosts(t) && (entry == "web" || entry == "websecure")
    requires "/api/notifications" <= q.path
    requires RoleOf(a) == App && Serves(t, config, q, entry, a) && Wins(t, config, q, entry, r)
    ensures r.service == Text("notification-service")
    ensures Applies(Resolve(r.middlewares, config.middlewares).items, "security-headers", "headers")
    ensures var path := Received(t, config, r, q.path);
      || path == q.path
      || (RoleOf(r) == Probe && q.path == "/api/notifications/healthz" && path == "/healthz")
      || (RoleOf(r) == Probe && q.path == "/api/notifications/readyz" && path == "/readyz")
      || (RoleOf(r) == Probe && q.path == "/api/notifications/version" && path == "/version")
  {
    assert entry in ENTRYPOINTS by {
      assert ENTRYPOINTS[0] == "web" && ENTRYPOINTS[1] == "websecure";
    }
    AuditGuarantee(t, config, q, entry, a, r);
    ProbesInWords(q.path);
  }

  lemma ProbesInWords(path: string)
    ensures ProbePath(path) ==
      if path == "/api/notifications/healthz" then "/healthz"
      else if path == "/api/notifications/readyz" then "/readyz"
      else if path == "/api/notifications/version" then "/version"
      else path
  {
    assert PREFIX + "/healthz" == "/api/notifications/healthz";
    assert PREFIX + "/readyz" == "/api/notifications/readyz";
    assert PREFIX + "/version" == "/api/notifications/version";
  }

  // ----- one router -----

  /** A tls mapping may hold options, a resolver and domains, and nothing else; without a mapping there is no TLS. */
  lemma TlsMeans(router: Router)
    ensures TerminatesTls(router)
      <==> router.tls.Fields?
           && forall f <- router.tls.fields :: f.0 == "options" || f.0 == "certResolver" || f.0 == "domains"
  {
    if router.tls.Fields? {
      var fields := router.tls.fields;
      assert forall f <- fields :: f.0 in Keys(fields);
    }
  }

  lemma {:induction false} AsciiLength(s: string)
    requires IsAscii(s)
    ensures Utf8Length(s) == |s|
  {
    if s != "" {
      assert s[0] in s && forall c <- s[1..] :: c in s;
      AsciiLength(s[1..]);
    }
  }

  /** A priority that is left out, or zero, is the length of the rule; of two rules that are left to it the longer is first. */
  lemma PriorityMeans(router: Router)
    requires IsAscii(router.rule)
    ensures router.priority == Null || router.priority == Int(0) ==> EffectivePriority(router) == Some(|router.rule|)
    ensures router.priority.Int? && router.priority.i != 0 ==> EffectivePriority(router) == Some(router.priority.i)
    ensures !router.priority.Null? && !router.priority.Int? ==> EffectivePriority(router) == None
  {
    AsciiLength(router.rule);
  }

  /** What every notifications router has to meet, where it lists its middlewares and its entry points. */
  ghost predicate CommonInWords(r: Router, defs: Definitions)
    requires r.middlewares.Items? && r.entryPoints.Items?
  {
    && (exists items :: Means(r.middlewares.items, defs, items) && Applies(items, "security-headers", "headers"))
    && r.service == Text("notification-service")
    && (Text("websecure") in r.entryPoints.items ==>
          r.tls.Fields? && forall f <- r.tls.fields :: f.0 == "options" || f.0 == "certResolver" || f.0 == "domains")
    && (r.priority.Null? || r.priority.Int?)
  }

  lemma CommonMeans(r: Router, defs: Definitions)
    requires r.middlewares.Items? && r.entryPoints.Items?
    ensures CommonHolds(r, defs) <==> CommonInWords(r, defs)
  {
    var expansion := Resolve(r.middlewares, defs);
    TlsMeans(r);
    if CommonHolds(r, defs) {
      ExpansionExact(r.middlewares.items, defs, expansion.items);
      assert Applies(expansion.items, "security-headers", "headers");
    }
    if CommonInWords(r, defs) {
      var items :| Means(r.middlewares.items, defs, items) && Applies(items, "security-headers", "headers");
      ExpansionExact(r.middlewares.items, defs, items);
    }
  }

  /** A passing configuration has an application and a probe router on web, and on websecure. */
  lemma BothRolesOnBoth(config: Config, entry: string)
    requires Passes(config) && (entry == "web" || entry == "websecure")
    ensures exists p: Router :: HasRouter(config, p) && RoleOf(p) == Probe && Mentions(p.entryPoints, entry)
    ensures exists a: Router :: HasRouter(config, a) && RoleOf(a) == App && Mentions(a.entryPoints, entry)
  {
    assert ENTRYPOINTS[0] == "web" && ENTRYPOINTS[1] == "websecure" && entry in ENTRYPOINTS;
    var probes, apps := WithRole(config.routers, Probe), WithRole(config.routers, App);
    assert EntrypointHolds(entry, probes, apps);
    var p :| p in probes && Mentions(p.1.entryPoints, entry);
    var a :| a in apps && Mentions(a.1.entryPoints, entry);
    RolesAreRouters(config.routers, Probe, p.0, p.1);
    RolesAreRouters(config.routers, App, a.0, a.1);
    assert (p.0, Mapping(p.1)).1 == Mapping(p.1) && (a.0, Mapping(a.1)).1 == Mapping(a.1);
  }

  lemma {:induction false} FirstSign(name: string, rest: string, i: nat)
    requires '@' !in name && i <= |name| && rest != "" && rest[0] == '@'
    ensures Find(name + rest, i, '@') == |name|
    decreases |name| - i
  {
    if i < |name| {
      assert (name + rest)[i] == name[i] && name[i] in name;
      FirstSign(name, rest, i + 1);
    }
  }

  /** A reference may name the provider of its middleware; that is left aside. */
  lemma ProviderIsLeftAside(name: string, provider: string)
    requires '@' !in name
    ensures NameOf(Text(name + ("@" + provider))) == name
  {
    FirstSign(name, "@" + provider, 0);
  }

  // ----- the rule of an application router -----

  lemma {:induction false} CountFrom(s: string, part: string, k: nat)
    requires part != "" && k <= |s| && forall i | 0 <= i < k :: s[i] != part[0]
    ensures Count(s, part) == Count(s[k..], part)
  {
    if k > 0 {
      assert s[0] != part[0];
      assert s[1..][k - 1..] == s[k..];
      CountFrom(s[1..], part, k - 1);
    } else {
      assert s[0..] == s;
    }
  }

  lemma {:induction false} ContainsFrom(s: string, part: string, k: nat)
    requires part != "" && k <= |s| && forall i | 0 <= i < k :: s[i] != part[0]
    ensures Contains(s, part) == Contains(s[k..], part)
  {
    if k > 0 {
      assert s[0] != part[0];
      assert s[1..][k - 1..] == s[k..];
      ContainsFrom(s[1..], part, k - 1);
    } else {
      assert s[0..] == s;
    }
  }

  lemma PrefixWord(tail: string)
    ensures Count("PathPrefix" + tail, "PathPrefix") == 1 + Count(tail, "PathPrefix")
    ensures Contains("PathPrefix" + tail, "Path(") == Contains(tail, "Path(")
  {
    var s := "PathPrefix" + tail;
    assert s[10..] == tail;
    assert s[0] == 'P' && s[4] == 'P' && s[5] == 'r';
    assert s[1..][3..] == s[4..] && s[5..][5..] == tail && s[4..][1..] == s[5..];
    ContainsFrom(s[1..], "Path(", 3);
    ContainsFrom(s[5..], "Path(", 5);
  }

  lemma WordsBetween(arg: string, more: string, s: string)
    requires 'P' !in arg && s == "(`" + (arg + ("`)" + more)) && (more != "" ==> |more| >= 2 && more[0] != 'P' && more[1] != 'P')
    ensures var k := |arg| + 4 + if more == "" then 0 else 2;
      && k <= |s| && s[k..] == (if more == "" then "" else more[2..])
      && Count(s, "PathPrefix") == Count(s[k..], "PathPrefix") && Contains(s, "Path(") == Contains(s[k..], "Path(")
  {
    var k := |arg| + 4 + if more == "" then 0 else 2;
    forall i | 0 <= i < k
      ensures s[i] != 'P'
    {
      assert 2 <= i < |arg| + 2 ==> s[i] == arg[i - 2] && arg[i - 2] in arg;
    }
    CountFrom(s, "PathPrefix", k);
    ContainsFrom(s, "Path(", k);
  }

  lemma RuleSplit(joiner: Joiner, args: seq<string>) returns (more: string)
    requires args != []
    ensures Rule("PathPrefix", joiner, args) == "PathPrefix" + ("(`" + (args[0] + ("`)" + more)))
    ensures |args| == 1 ==> more == ""
    ensures |args| > 1 ==>
      |more| >= 2 && more[0] != 'P' && more[1] != 'P' && more[2..] == Rule("PathPrefix", joiner, args[1..])
  {
    more := if |args| == 1 then "" else SignText(joiner) + Rule("PathPrefix", joiner, args[1..]);
    assert Rule("PathPrefix", joiner, args) == Call("PathPrefix", args[0]) + more;
  }

  /**
   Of a rule written as calls of PathPrefix the script counts the calls and sees no Path; so it accepts
   such a rule for an application router just if there is one call.
   */
  lemma {:induction false} PrefixCallsCounted(joiner: Joiner, args: seq<string>)
    requires args != [] && forall a <- args :: 'P' !in a
    ensures Count(Rule("PathPrefix", joiner, args), "PathPrefix") == |args|
    ensures !Contains(Rule("PathPrefix", joiner, args), "Path(")
    decreases |args|
  {
    var more := RuleSplit(joiner, args);
    var tail := "(`" + (args[0] + ("`)" + more));
    assert args[0] in args;
    PrefixWord(tail);
    WordsBetween(args[0], more, tail);
    if |args| > 1 {
      PrefixCallsCounted(joiner, args[1..]);
    }
  }

  lemma PathCallsSeen(joiner: Joiner, args: seq<string>)
    requires args != []
    ensures Contains(Rule("Path", joiner, args), "Path(")
  {
    assert "Path(" <= Call("Path", args[0]) by {
      assert Call("Path", args[0])[..5] == "Path(";
    }
    assert "Path(" <= Rule("Path", joiner, args);
  }

  /** Only one call of PathPrefix, no call of Path, and no middleware that changes the path. */
  lemma ApplicationRuleMeans(r: Router, defs: Definitions, joiner: Joiner, args: seq<string>)
    requires args != [] && forall a <- args :: 'P' !in a
    ensures r.rule == Rule("PathPrefix", joiner, args) ==>
      (AppHolds(r, defs) <==> |args| == 1 && forall a <- Resolve(r.middlewares, defs).items :: !ChangesPath(a.kind))
    ensures r.rule == Rule("Path", joiner, args) ==> !AppHolds(r, defs)
  {
    PrefixCallsCounted(joiner, args);
    PathCallsSeen(joiner, args);
    NoChangers(Resolve(r.middlewares, defs).items);
  }

  lemma {:induction false} NoChangers(applied: seq<Applied>)
    ensures PathChangers(applied) == [] <==> forall a <- applied :: !ChangesPath(a.kind)
  {
    if applied != [] {
      NoChangers(applied[1..]);
      assert forall a <- applied :: a == applied[0] || a in applied[1..];
      assert applied[0].kind in PATH_MIDDLEWARES <==> ChangesPath(applied[0].kind);
    }
  }

  // ----- roles -----

  /** Every opening parenthesis follows the word. */
  lemma {:induction false} OpenFollowsWord(word: string, joiner: Joiner, args: seq<string>, i: nat)
    requires args != [] && word != "" && '(' !in word && forall a <- args :: '(' !in a
    requires i < |Rule(word, joiner, args)| && Rule(word, joiner, args)[i] == '('
    ensures i > 0 && Rule(word, joiner, args)[i - 1] == word[|word| - 1]
    decreases |args|
  {
    var s, call := Rule(word, joiner, args), Call(word, args[0]);
    if i < |call| {
      assert s[i] == call[i] && (i > 0 ==> s[i - 1] == call[i - 1]);
      OpenInCall(word, args[0], i);
    } else {
      var rest := Rule(word, joiner, args[1..]);
      assert s == call + (SignText(joiner) + rest);
      assert i >= |call| + 2 && rest[i - |call| - 2] == '(';
      OpenFollowsWord(word, joiner, args[1..], i - |call| - 2);
    }
  }

  lemma OpenInCall(word: string, arg: string, i: nat)
    requires word != "" && '(' !in word && '(' !in arg && i < |Call(word, arg)| && Call(word, arg)[i] == '('
    ensures i == |word| && Call(word, arg)[i - 1] == word[|word| - 1]
  {
    var call := Call(word, arg);
    assert forall j | 0 <= j < |word| :: call[j] == word[j];
    assert forall j | 0 <= j < |arg| :: arg[j] == call[j + |word| + 2];
  }

  lemma {:induction false} OtherWordsNotCaptured(s: string, from: nat, word: string, last: char)
    requires word != "" && word[|word| - 1] != last
    requires forall i: nat | i < |s| && s[i] == '(' :: i > 0 && s[i - 1] == last
    ensures Captures(s, from, word) == {}
    decreases |s| - from
  {
    if from < |s| {
      var n := from + |word|;
      if n < |s| && s[n] == '(' {
        assert s[n - 1] == last;
        NotAt(s, from, word + "(`", |word| - 1);
      } else {
        NotAt(s, from, word + "(`", |word|);
      }
      OtherWordsNotCaptured(s, from + 1, word, last);
    }
  }

  /** `path` is the prefix of the notifications itself, or lies under it. */
  predicate UnderPrefix(path: string) {
    path == "/api/notifications" || "/api/notifications/" <= path
  }

  lemma CapturedAre(r: Router, word: string, joiner: Joiner, args: seq<string>, other: string)
    requires PlainWord(word) && PlainArgs(args) && '(' !in word && (forall a <- args :: '(' !in a) && r.rule == Rule(word, joiner, args)
    requires other != "" && other[|other| - 1] != word[|word| - 1]
    ensures forall a :: a in Captures(r.rule, 0, word) <==> a in args
    ensures Captures(r.rule, 0, other) == {}
  {
    RuleReads(word, joiner, args);
    forall a
      ensures a in ArgSet(args) <==> a in args
    {
      GatewayExample.ArgSetExact(args, a);
    }
    forall i: nat | i < |r.rule| && r.rule[i] == '('
      ensures i > 0 && r.rule[i - 1] == word[|word| - 1]
    {
      OpenFollowsWord(word, joiner, args, i);
    }
    OtherWordsNotCaptured(r.rule, 0, other, word[|word| - 1]);
  }

  lemma RoleOfCaptures(r: Router, prefixes: set<string>, exact: set<string>)
    requires prefixes == Captures(r.rule, 0, "PathPrefix") && exact == Captures(r.rule, 0, "Path")
    ensures RoleOf(r) == App <==> exists p <- prefixes :: UnderPrefix(p)
    ensures RoleOf(r) == Probe <==> RoleOf(r) != App && exists p <- exact :: "/api/notifications/" <= p
  {
    var below := PREFIX + "/";
    assert below == "/api/notifications/";
    assert (exists p <- prefixes :: p == PREFIX || below <= p) <==> exists p <- prefixes :: UnderPrefix(p);
    if RoleOf(r) == Probe {
      var p :| p in exact && below <= p;
    }
    if p :| p in exact && "/api/notifications/" <= p {
      assert below <= p;
    }
  }

  /** Calls of PathPrefix make an application router just if one of their paths is under the prefix, and no other router. */
  lemma PrefixCallsMean(r: Router, joiner: Joiner, args: seq<string>)
    requires PlainArgs(args) && (forall a <- args :: '(' !in a) && r.rule == Rule("PathPrefix", joiner, args)
    ensures RoleOf(r) == if exists a <- args :: UnderPrefix(a) then App else Neither
  {
    CapturedAre(r, "PathPrefix", joiner, args, "Path");
    RoleOfCaptures(r, Captures(r.rule, 0, "PathPrefix"), Captures(r.rule, 0, "Path"));
  }

  /** Calls of Path make a probe router just if one of their paths lies below the prefix, and no other router. */
  lemma PathCallsMean(r: Router, joiner: Joiner, args: seq<string>)
    requires PlainArgs(args) && (forall a <- args :: '(' !in a) && r.rule == Rule("Path", joiner, args)
    ensures RoleOf(r) == if exists a <- args :: "/api/notifications/" <= a then Probe else Neither
  {
    CapturedAre(r, "Path", joiner, args, "PathPrefix");
    RoleOfCaptures(r, Captures(r.rule, 0, "PathPrefix"), Captures(r.rule, 0, "Path"));
  }

  lemma {:induction false} GetExact(fields: seq<(string, Value)>, key: string, value: Value)
    requires DistinctKeys(fields)
    ensures Get(fields, key) == Some(value) <==> (key, value) in fields
  {
    if fields != [] {
      var rest := fields[1..];
      assert forall i, j | 0 <= i < j < |rest| :: rest[i].0 == fields[i + 1].0 && rest[j].0 == fields[j + 1].0;
      GetExact(rest, key, value);
      assert forall f :: f in fields <==> f == fields[0] || f in rest;
      assert forall j | 0 <= j < |rest| :: rest[j] == fields[j + 1] && rest[j].0 != fields[0].0;
    }
  }

  const REGEX_FIELD := ("regex", Text("^/api/notifications/(healthz|readyz|version)$"))
  const REPLACEMENT_FIELD := ("replacement", Text("/${1}"))

  lemma TwoFields(fields: seq<(string, Value)>, a: (string, Value), b: (string, Value))
    requires DistinctKeys(fields) && a.0 != b.0
    ensures Keys(fields) == {a.0, b.0} && a in fields && b in fields <==> forall f :: f in fields <==> f == a || f == b
  {
    if Keys(fields) == {a.0, b.0} && a in fields && b in fields {
      forall f | f in fields
        ensures f == a || f == b
      {
        assert f.0 in Keys(fields);
        var c := if f.0 == a.0 then a else b;
        var i :| 0 <= i < |fields| && fields[i] == f;
        var j :| 0 <= j < |fields| && fields[j] == c;
        assert i == j;
      }
    }
    if forall f :: f in fields <==> f == a || f == b {
      assert a in fields && b in fields;
      assert forall k :: k in Keys(fields) <==> k == a.0 || k == b.0;
    }
  }

  /** The probe rewrite is a replacePathRegex of just this expression and this replacement. */
  lemma RewriteMeans(a: Applied)
    requires a.body.Fields? ==> DistinctKeys(a.body.fields)
    ensures IsProbeRewrite(a)
      <==> && a.kind == "replacePathRegex" && a.body.Fields?
           && forall f :: f in a.body.fields <==> f == REGEX_FIELD || f == REPLACEMENT_FIELD
  {
    if a.body.Fields? {
      GetExact(a.body.fields, "regex", REGEX_FIELD.1);
      GetExact(a.body.fields, "replacement", REPLACEMENT_FIELD.1);
      TwoFields(a.body.fields, REGEX_FIELD, REPLACEMENT_FIELD);
    }
  }

  /** One middleware is the probe rewrite, and no other changes the path. */
  ghost predicate RewritesOnce(applied: seq<Applied>) {
    exists i | 0 <= i < |applied| ::
      IsProbeRewrite(applied[i]) && forall j | 0 <= j < |applied| && j != i :: !ChangesPath(applied[j].kind)
  }

  lemma {:induction false} RewritesOnceMeans(applied: seq<Applied>)
    ensures RewritesOnce(applied) <==> |PathChangers(applied)| == 1 && IsProbeRewrite(PathChangers(applied)[0])
    decreases |applied|
  {
    if applied != [] {
      var first, rest := applied[0], applied[1..];
      assert first.kind in PATH_MIDDLEWARES <==> ChangesPath(first.kind);
      if ChangesPath(first.kind) {
        NoChangers(rest);
        FirstRewrites(applied);
      } else {
        RewritesOnceMeans(rest);
        RestRewrites(applied);
        assert PathChangers(applied) == PathChangers(rest);
      }
    }
  }

  lemma FirstRewrites(applied: seq<Applied>)
    requires applied != [] && ChangesPath(applied[0].kind)
    ensures RewritesOnce(applied) <==> IsProbeRewrite(applied[0]) && forall a <- applied[1..] :: !ChangesPath(a.kind)
  {
    if IsProbeRewrite(applied[0]) && forall a <- applied[1..] :: !ChangesPath(a.kind) {
      assert forall j | 0 < j < |applied| :: applied[j] == applied[1..][j - 1] && applied[j] in applied[1..];
    }
  }

  lemma RestRewrites(applied: seq<Applied>)
    requires applied != [] && !ChangesPath(applied[0].kind)
    ensures RewritesOnce(applied) <==> RewritesOnce(applied[1..])
  {
    var rest := applied[1..];
    if RewritesOnce(applied) {
      var i :| 0 <= i < |applied| && IsProbeRewrite(applied[i])
               && forall j | 0 <= j < |applied| && j != i :: !ChangesPath(applied[j].kind);
      assert rest[i - 1] == applied[i];
    }
    if RewritesOnce(rest) {
      var i :| 0 <= i < |rest| && IsProbeRewrite(rest[i])
               && forall j | 0 <= j < |rest| && j != i :: !ChangesPath(rest[j].kind);
      assert applied[i + 1] == rest[i];
      assert forall j | 0 < j < |applied| && j != i + 1 :: applied[j] == rest[j - 1];
    }
  }

  /** A probe router of calls of Path passes just if these are the three probe paths and it rewrites the path once. */
  lemma ProbeRuleMeans(r: Router, defs: Definitions, joiner: Joiner, args: seq<string>)
    requires PlainArgs(args) && (forall a <- args :: '(' !in a) && r.rule == Rule("Path", joiner, args)
    ensures ProbeHolds(r, defs) <==>
      && (forall a :: a in args <==> IsProbePath(a))
      && RewritesOnce(Resolve(r.middlewares, defs).items)
  {
    CapturedAre(r, "Path", joiner, args, "PathPrefix");
    RewritesOnceMeans(Resolve(r.middlewares, defs).items);
    var three := set p <- PROBES :: PREFIX + "/" + p;
    assert forall a :: a in three <==> IsProbePath(a);
    assert Captures(r.rule, 0, "Path") == three <==> forall a :: a in args <==> IsProbePath(a);
  }

  // ----- the hosts of the application -----

  const PREFIX_CALL := "PathPrefix(`/api/notifications`)"

  /** Host(`host`) from `i` up to `next`, with nothing but white space before it. */
  ghost predicate HostForm(rule: string, host: string, i: nat, next: nat) {
    && host != "" && '`' !in host && next == i + 8 + |host|
    && Blank(rule, 0, i) && At(rule, i, "Host(`") && At(rule, i + 6, host) && At(rule, i + 6 + |host|, "`)")
  }

  /** && at `sign`, PathPrefix(`/api/notifications`) at `last`, and white space around them, from `next` to the end. */
  ghost predicate PrefixForm(rule: string, next: nat, sign: nat, last: nat) {
    && Blank(rule, next, sign) && At(rule, sign, "&&")
    && Blank(rule, sign + 2, last) && At(rule, last, PREFIX_CALL) && Blank(rule, last + |PREFIX_CALL|, |rule|)
  }

  /** White space ends at the first character that is none. */
  lemma BlankEnds(s: string, i: nat, j: nat, part: string)
    requires Blank(s, i, j) && part != "" && !IsSpace(part[0]) && At(s, j, part)
    ensures SkipSpace(s, i) == j
  {
    SkipBlank(s, i, j);
    assert s[j] == s[j..j + |part|][0] == part[0];
  }

  lemma HostIsFound(rule: string, host: string, i: nat, next: nat)
    requires HostForm(rule, host, i, next)
    ensures HostFront(rule) == Some((host, next))
  {
    BlankEnds(rule, 0, i, "Host(`");
    AtEach(rule, i + 6 + |host|, "`)");
    FindEnd(rule, i + 6, host);
  }

  lemma PrefixIsFound(rule: string, next: nat, sign: nat, last: nat)
    requires PrefixForm(rule, next, sign, last)
    ensures PrefixRest(rule, next)
  {
    BlankEnds(rule, next, sign, "&&");
    BlankEnds(rule, sign + 2, last, PREFIX_CALL);
    SkipBlank(rule, last + |PREFIX_CALL|, |rule|);
    PrefixCallIs();
  }

  lemma PrefixCallIs()
    ensures PREFIX_CALL == "PathPrefix(`" + PREFIX + "`)" && |PREFIX_CALL| == |PREFIX| + 14
  {
  }

  lemma HostIsNonempty(rule: string, host: string, next: nat)
    requires HostFront(rule) == Some((host, next))
    ensures host != ""
  {
  }

  lemma HostParts(rule: string, host: string, next: nat) returns (i: nat)
    requires HostFront(rule) == Some((host, next))
    ensures HostForm(rule, host, i, next)
  {
    var end;
    i, end := HostFrontParts(rule, host, next);
    HostIsNonempty(rule, host, next);
    assert forall k | 0 <= k < |host| :: host[k] == rule[i + 6 + k];
  }

  lemma PrefixParts(rule: string, next: nat) returns (sign: nat, last: nat)
    requires next <= |rule| && PrefixRest(rule, next)
    ensures PrefixForm(rule, next, sign, last)
  {
    sign := SkipSpace(rule, next);
    last := SkipSpace(rule, sign + 2);
    SkipsBlank(rule, next);
    SkipsBlank(rule, sign + 2);
    PrefixCallIs();
    SkipsBlank(rule, last + |PREFIX_CALL|);
  }

  /** The rule is Host(`host`) and PathPrefix(`/api/notifications`) joined by &&, and white space. */
  ghost predicate ExactForm(rule: string, host: string) {
    exists i: nat, next: nat, sign: nat, last: nat :: HostForm(rule, host, i, next) && PrefixForm(rule, next, sign, last)
  }

  lemma HostOfParts(rule: string, host: string)
    ensures ApplicationHost(rule) == Some(host)
      <==> HostFront(rule).Some? && HostFront(rule).value.0 == host && PrefixRest(rule, HostFront(rule).value.1)
  {
  }

  /** A rule gives its host just if it has the exact form. */
  lemma ExactFormExact(rule: string, host: string)
    ensures ApplicationHost(rule) == Some(host) <==> ExactForm(rule, host)
  {
    HostOfParts(rule, host);
    if ApplicationHost(rule) == Some(host) {
      var next := HostFront(rule).value.1;
      var i := HostParts(rule, host, next);
      var sign, last := PrefixParts(rule, next);
      assert HostForm(rule, host, i, next) && PrefixForm(rule, next, sign, last);
    }
    if ExactForm(rule, host) {
      var i: nat, next: nat, sign: nat, last: nat :| HostForm(rule, host, i, next) && PrefixForm(rule, next, sign, last);
      HostIsFound(rule, host, i, next);
      PrefixIsFound(rule, next, sign, last);
    }
  }

  lemma {:induction false} SkipOtherWords(s: string, from: nat, last: nat, word: string)
    requires from <= last <= |s| && forall k | from <= k < last :: !At(s, k, word + "(`")
    requires word != ""
    ensures Captures(s, from, word) == Captures(s, last, word)
    decreases last - from
  {
    if from < last {
      SkipOtherWords(s, from + 1, last, word);
    }
  }

  lemma AtAll(s: string, i: nat, part: string, n: nat)
    requires At(s, i, part) && i <= n < i + |part|
    ensures s[n] == part[n - i]
  {
    assert s[n] == s[i..i + |part|][n - i];
  }

  lemma BlankHolds(s: string, i: nat, j: nat, n: nat)
    requires Blank(s, i, j) && i <= n < j
    ensures IsSpace(s[n]) && s[n] != '(' && !IsWord(s[n])
  {
  }

  /** Before the call of PathPrefix one parenthesis opens, the one behind Host. */
  lemma OneOpens(rule: string, host: string, i: nat, next: nat, sign: nat, last: nat, n: nat)
    requires HostForm(rule, host, i, next) && PrefixForm(rule, next, sign, last) && '(' !in host
    requires n < last && rule[n] == '('
    ensures n == i + 4 && rule[n - 1] == 't'
  {
    var end := i + 6 + |host|;
    if n < i {
      BlankHolds(rule, 0, i, n);
    } else if n < i + 6 {
      AtAll(rule, i, "Host(`", n);
      AtAll(rule, i, "Host(`", i + 3);
    } else if n < end {
      AtAll(rule, i + 6, host, n);
    } else if n < next {
      AtAll(rule, end, "`)", n);
    } else if n < sign {
      BlankHolds(rule, next, sign, n);
    } else if n < sign + 2 {
      AtAll(rule, sign, "&&", n);
    } else {
      BlankHolds(rule, sign + 2, last, n);
    }
  }

  lemma NoPrefixBefore(rule: string, host: string, i: nat, next: nat, sign: nat, last: nat, k: nat)
    requires HostForm(rule, host, i, next) && PrefixForm(rule, next, sign, last) && '(' !in host && k < last
    ensures !At(rule, k, "PathPrefix" + "(`")
  {
    var n, word := k + 10, "PathPrefix" + "(`";
    if n < last && rule[n] == '(' {
      OneOpens(rule, host, i, next, sign, last, n);
      NotAt(rule, k, word, 9);
    } else {
      if n >= last {
        AtAll(rule, last, PREFIX_CALL, n);
        FirstTen(n - last);
      }
      NotAt(rule, k, word, 10);
    }
  }

  lemma FirstTen(j: nat)
    requires j < 10
    ensures PREFIX_CALL[j] != '('
  {
    assert PREFIX_CALL[..10] == "PathPrefix";
    assert PREFIX_CALL[j] == "PathPrefix"[j];
  }

  /** A router of the exact form is an application router. */
  lemma ExactFormIsApplication(r: Router, host: string)
    requires ExactForm(r.rule, host) && '(' !in host
    ensures RoleOf(r) == App
  {
    var rule := r.rule;
    var i: nat, next: nat, sign: nat, last: nat :| HostForm(rule, host, i, next) && PrefixForm(rule, next, sign, last);
    forall k | 0 <= k < last
      ensures !At(rule, k, "PathPrefix" + "(`")
    {
      NoPrefixBefore(rule, host, i, next, sign, last, k);
    }
    SkipOtherWords(rule, 0, last, "PathPrefix");
    PrefixCallStands(rule, next, sign, last);
    CapturesCall(rule, last, "PathPrefix", PREFIX, last + |PREFIX_CALL|);
    RoleOfCaptures(r, Captures(rule, 0, "PathPrefix"), Captures(rule, 0, "Path"));
    assert UnderPrefix(PREFIX);
  }

  lemma PrefixCallStands(rule: string, next: nat, sign: nat, last: nat)
    requires PrefixForm(rule, next, sign, last)
    ensures CallAt(rule, last, "PathPrefix", PREFIX, last + |PREFIX_CALL|)
  {
    PrefixCallIs();
    if last == sign + 2 {
      AtAll(rule, sign, "&&", sign + 1);
    } else {
      BlankHolds(rule, sign + 2, last, last - 1);
    }
    assert PREFIX_CALL == Call("PathPrefix", PREFIX);
    CallParts(rule, last, "PathPrefix", PREFIX);
  }

  /** Where every application router is restricted to a host, the hosts are just what some of them accepts. */
  lemma ApplicationHostsExact(apps: seq<(string, Router)>, h: string)
    requires forall a <- apps :: ApplicationHost(a.1.rule).Some?
    ensures h in ApplicationHosts(apps) <==> exists a <- apps :: HostAccepts(ApplicationHost(a.1.rule).value, h)
  {
    forall a <- apps
      ensures h in HostRequests(ApplicationHost(a.1.rule).value) <==> HostAccepts(ApplicationHost(a.1.rule).value, h)
    {
      HostRequestsExact(ApplicationHost(a.1.rule).value, h);
    }
  }

  // ----- routers of other services -----

  /** It lists entry points, and none of them is public. */
  predicate ListsOnlyPrivate(r: Router) {
    r.entryPoints.Items? && r.entryPoints.items != []
    && Text("web") !in r.entryPoints.items && Text("websecure") !in r.entryPoints.items
  }

  /** Its priority is known, and below that of every application router. */
  ghost predicate BelowApplications(config: Config, r: Router)
    requires config.Config?
  {
    && EffectivePriority(r).Some?
    && forall a: Router | HasRouter(config, a) && RoleOf(a) == App ::
         EffectivePriority(a).Some? ==> EffectivePriority(r).value < EffectivePriority(a).value
  }

  /** The routers with a role, told without their order. */
  lemma InRole(config: Config, role: Role)
    requires config.Config?
    ensures forall x <- WithRole(config.routers, role) :: HasRouter(config, x.1) && RoleOf(x.1) == role
    ensures forall r: Router | HasRouter(config, r) && RoleOf(r) == role :: exists name :: (name, r) in WithRole(config.routers, role)
  {
    forall x <- WithRole(config.routers, role)
      ensures HasRouter(config, x.1) && RoleOf(x.1) == role
    {
      RolesAreRouters(config.routers, role, x.0, x.1);
      assert (x.0, Mapping(x.1)).1 == Mapping(x.1);
    }
    forall r: Router | HasRouter(config, r) && RoleOf(r) == role
      ensures exists name :: (name, r) in WithRole(config.routers, role)
    {
      var e :| e in config.routers && e.1 == Mapping(r);
      RolesAreRouters(config.routers, role, e.0, r);
      assert (e.0, r) in WithRole(config.routers, role);
    }
  }

  /** What holds of the routers with a role holds of each of them. */
  lemma EachInRole(config: Config, role: Role, holds: Router -> bool)
    requires config.Config?
    ensures (forall x <- WithRole(config.routers, role) :: holds(x.1))
      <==> forall r: Router | HasRouter(config, r) && RoleOf(r) == role :: holds(r)
  {
    InRole(config, role);
    if forall x <- WithRole(config.routers, role) :: holds(x.1) {
      forall r: Router | HasRouter(config, r) && RoleOf(r) == role
        ensures holds(r)
      {
        var name :| (name, r) in WithRole(config.routers, role);
        assert holds((name, r).1);
      }
    }
  }

  lemma OutrankedMeans(config: Config, r: Router)
    requires config.Config?
    requires forall a: Router | HasRouter(config, a) && RoleOf(a) == App :: EffectivePriority(a).Some?
    ensures Outranked(r, WithRole(config.routers, App)) <==> BelowApplications(config, r)
  {
    if EffectivePriority(r).Some? {
      var above := (a: Router) => EffectivePriority(a).Some? && EffectivePriority(r).value < EffectivePriority(a).value;
      EachInRole(config, App, above);
      assert Outranked(r, WithRole(config.routers, App)) <==> forall x <- WithRole(config.routers, App) :: above(x.1);
    }
  }

  lemma PublicMeans(r: Router)
    ensures PublicEntrypoints(r) <==> !ListsOnlyPrivate(r)
  {
    assert ENTRYPOINTS[0] == "web" && ENTRYPOINTS[1] == "websecure" && |ENTRYPOINTS| == 2;
  }

  /** What the audit asks of the routers that have a role. */
  ghost predicate RolesPass(apps: seq<(string, Router)>, probes: seq<(string, Router)>, defs: Definitions) {
    && (forall a <- apps :: CommonHolds(a.1, defs) && AppHolds(a.1, defs))
    && (forall p <- probes :: CommonHolds(p.1, defs) && ProbeHolds(p.1, defs))
    && forall e <- ENTRYPOINTS :: EntrypointHolds(e, probes, apps)
  }

  ghost predicate Stands(e: (string, Entry), apps: seq<(string, Router)>) {
    && e.1.Mapping?
    && (RoleOf(e.1.router) == Neither ==> Hashable(e.1.router.entryPoints) && !CanShadow(e.1.router, apps))
  }

  lemma PassesSplit(config: Config)
    requires config.Config?
    ensures var apps, probes := WithRole(config.routers, App), WithRole(config.routers, Probe);
      Passes(config) <==> RolesPass(apps, probes, config.middlewares) && forall e <- config.routers :: Stands(e, apps)
  {
  }

  lemma PassesWithOther(config: Config, name: string, r: Router)
    requires Passes(config) && RoleOf(r) == Neither
    ensures Passes(Extended(config, name, r))
      <==> Hashable(r.entryPoints) && !CanShadow(r, WithRole(config.routers, App))
  {
    var apps, probes, one := WithRole(config.routers, App), WithRole(config.routers, Probe), (name, Mapping(r));
    PassesSplit(config);
    PassesSplit(Extended(config, name, r));
    WithRoleExtended(config.routers, name, r, App);
    WithRoleExtended(config.routers, name, r, Probe);
    assert apps + [] == apps && probes + [] == probes;
    assert forall e :: e in config.routers + [one] <==> e in config.routers || e == one;
    assert Stands(one, apps) <==> Hashable(r.entryPoints) && !CanShadow(r, apps);
  }

  /**
   A router of another service may stand beside a passing configuration just if there is no list and no
   mapping among its entry points, and it cannot take over: it lists no public entry point, or it is
   below every application router, or its rule is proved disjoint.
   */
  lemma BystanderPasses(config: Config, name: string, r: Router)
    requires Passes(config) && RoleOf(r) == Neither
    ensures Passes(Extended(config, name, r))
      <==> (r.entryPoints.Items? ==> forall e <- r.entryPoints.items :: !e.Items? && !e.Fields?)
           && (ListsOnlyPrivate(r) || BelowApplications(config, r)
               || ProvablyDisjoint(r.rule, ApplicationHosts(WithRole(config.routers, App))))
  {
    PassesWithOther(config, name, r);
    PublicMeans(r);
    forall a: Router | HasRouter(config, a) && RoleOf(a) == App
      ensures EffectivePriority(a).Some?
    {
      RoleConditions(config, a);
    }
    OutrankedMeans(config, r);
  }

  // ----- the whole audit -----

  /** A router of this role mentions the entry point. */
  ghost predicate OnEntry(config: Config, role: Role, entry: string, r: Router)
    requires config.Config?
  {
    HasRouter(config, r) && RoleOf(r) == role && Mentions(r.entryPoints, entry)
  }

  /** On this entry point there are routers of both roles, and every probe router is above every application router. */
  ghost predicate EntryInWords(config: Config, entry: string)
    requires config.Config?
  {
    && (exists p: Router :: OnEntry(config, Probe, entry, p))
    && (exists a: Router :: OnEntry(config, App, entry, a))
    && forall p: Router, a: Router | OnEntry(config, Probe, entry, p) && OnEntry(config, App, entry, a) :: IsHigher(p, a)
  }

  /** Where both priorities are known, that of `p` is the higher one. */
  predicate IsHigher(p: Router, a: Router) {
    EffectivePriority(p).Some? && EffectivePriority(a).Some? ==> EffectivePriority(a).value < EffectivePriority(p).value
  }

  lemma AboveIsHigher(p: Router, a: Router)
    ensures Above(p, a) == IsHigher(p, a)
  {
  }

  lemma SomeOnEntry(config: Config, role: Role, entry: string)
    requires config.Config?
    ensures (exists x <- WithRole(config.routers, role) :: Mentions(x.1.entryPoints, entry))
      <==> exists r: Router :: OnEntry(config, role, entry, r)
  {
    var silent := (r: Router) => !Mentions(r.entryPoints, entry);
    EachInRole(config, role, silent);
    if r: Router :| OnEntry(config, role, entry, r) {
      assert !silent(r);
    }
    if x :| x in WithRole(config.routers, role) && Mentions(x.1.entryPoints, entry) {
      assert !silent(x.1);
      var r: Router :| HasRouter(config, r) && RoleOf(r) == role && !silent(r);
      assert OnEntry(config, role, entry, r);
    }
  }

  /** Every probe router that mentions the entry point is above every application router that does. */
  predicate AllAbove(entry: string, probes: seq<(string, Router)>, apps: seq<(string, Router)>) {
    forall p <- probes, a <- apps | Mentions(p.1.entryPoints, entry) && Mentions(a.1.entryPoints, entry) :: Above(p.1, a.1)
  }

  lemma AllAboveMeans(config: Config, entry: string)
    requires config.Config?
    ensures AllAbove(entry, WithRole(config.routers, Probe), WithRole(config.routers, App))
      <==> forall p: Router, a: Router | OnEntry(config, Probe, entry, p) && OnEntry(config, App, entry, a) :: IsHigher(p, a)
  {
    var probes, apps := WithRole(config.routers, Probe), WithRole(config.routers, App);
    InRole(config, Probe);
    InRole(config, App);
    if AllAbove(entry, probes, apps) {
      forall p: Router, a: Router | OnEntry(config, Probe, entry, p) && OnEntry(config, App, entry, a)
        ensures IsHigher(p, a)
      {
        var pn :| (pn, p) in probes;
        var an :| (an, a) in apps;
        assert Above((pn, p).1, (an, a).1);
        AboveIsHigher(p, a);
      }
    }
    if forall p: Router, a: Router | OnEntry(config, Probe, entry, p) && OnEntry(config, App, entry, a) :: IsHigher(p, a) {
      forall p <- probes, a <- apps | Mentions(p.1.entryPoints, entry) && Mentions(a.1.entryPoints, entry)
        ensures Above(p.1, a.1)
      {
        assert OnEntry(config, Probe, entry, p.1) && OnEntry(config, App, entry, a.1);
        AboveIsHigher(p.1, a.1);
      }
    }
  }

  lemma EntrySplit(entry: string, probes: seq<(string, Router)>, apps: seq<(string, Router)>)
    ensures EntrypointHolds(entry, probes, apps)
      <==> && (exists p <- probes :: Mentions(p.1.entryPoints, entry))
           && (exists a <- apps :: Mentions(a.1.entryPoints, entry))
           && AllAbove(entry, probes, apps)
  {
  }

  lemma EntryMeans(config: Config, entry: string)
    requires config.Config?
    ensures EntrypointHolds(entry, WithRole(config.routers, Probe), WithRole(config.routers, App)) <==> EntryInWords(config, entry)
  {
    EntrySplit(entry, WithRole(config.routers, Probe), WithRole(config.routers, App));
    SomeOnEntry(config, Probe, entry);
    SomeOnEntry(config, App, entry);
    AllAboveMeans(config, entry);
  }

  /** A router of no role can be hashed and cannot take over. */
  ghost predicate OtherInWords(config: Config, r: Router)
    requires config.Config?
  {
    && (r.entryPoints.Items? ==> forall e <- r.entryPoints.items :: !e.Items? && !e.Fields?)
    && (ListsOnlyPrivate(r) || BelowApplications(config, r)
        || ProvablyDisjoint(r.rule, ApplicationHosts(WithRole(config.routers, App))))
  }

  /** Every router with a role lists its middlewares and its entry points. */
  ghost predicate Lists(config: Config)
    requires config.Config?
  {
    forall r: Router | HasRouter(config, r) && RoleOf(r) != Neither :: r.middlewares.Items? && r.entryPoints.Items?
  }

  ghost predicate RoleInWords(config: Config, role: Role)
    requires config.Config? && Lists(config) && role != Neither
  {
    forall r: Router | HasRouter(config, r) && RoleOf(r) == role ::
      && CommonInWords(r, config.middlewares)
      && if role == App then AppHolds(r, config.middlewares) else ProbeHolds(r, config.middlewares)
  }

  lemma RoleMeans(config: Config, role: Role)
    requires config.Config? && Lists(config) && role != Neither
    ensures RoleInWords(config, role) <==> forall x <- WithRole(config.routers, role) ::
      && CommonHolds(x.1, config.middlewares)
      && if role == App then AppHolds(x.1, config.middlewares) else ProbeHolds(x.1, config.middlewares)
  {
    var holds := (r: Router) =>
      && CommonHolds(r, config.middlewares)
      && if role == App then AppHolds(r, config.middlewares) else ProbeHolds(r, config.middlewares);
    EachInRole(config, role, holds);
    forall r: Router | HasRouter(config, r) && RoleOf(r) == role
      ensures CommonHolds(r, config.middlewares) <==> CommonInWords(r, config.middlewares)
    {
      CommonMeans(r, config.middlewares);
    }
    assert (forall x <- WithRole(config.routers, role) :: holds(x.1)) <==> forall x <- WithRole(config.routers, role) ::
      && CommonHolds(x.1, config.middlewares)
      && if role == App then AppHolds(x.1, config.middlewares) else ProbeHolds(x.1, config.middlewares);
  }

  lemma RolesSplit(apps: seq<(string, Router)>, probes: seq<(string, Router)>, defs: Definitions)
    ensures RolesPass(apps, probes, defs)
      <==> && (forall a <- apps :: CommonHolds(a.1, defs) && AppHolds(a.1, defs))
           && (forall p <- probes :: CommonHolds(p.1, defs) && ProbeHolds(p.1, defs))
           && EntrypointHolds("web", probes, apps) && EntrypointHolds("websecure", probes, apps)
  {
    assert ENTRYPOINTS[0] == "web" && ENTRYPOINTS[1] == "websecure" && |ENTRYPOINTS| == 2;
    assert (forall e <- ENTRYPOINTS :: EntrypointHolds(e, probes, apps))
      <==> EntrypointHolds("web", probes, apps) && EntrypointHolds("websecure", probes, apps) by {
      assert ENTRYPOINTS[0] in ENTRYPOINTS && ENTRYPOINTS[1] in ENTRYPOINTS;
      assert forall e <- ENTRYPOINTS :: e == "web" || e == "websecure";
    }
  }

  lemma RolesMean(config: Config)
    requires config.Config? && Lists(config)
    ensures RolesPass(WithRole(config.routers, App), WithRole(config.routers, Probe), config.middlewares)
      <==> && RoleInWords(config, App) && RoleInWords(config, Probe)
           && EntryInWords(config, "web") && EntryInWords(config, "websecure")
  {
    RolesSplit(WithRole(config.routers, App), WithRole(config.routers, Probe), config.middlewares);
    RoleMeans(config, App);
    RoleMeans(config, Probe);
    EntryMeans(config, "web");
    EntryMeans(config, "websecure");
  }

  lemma OthersMean(config: Config, e: (string, Entry))
    requires config.Config? && Lists(config) && RoleInWords(config, App)
    ensures Stands(e, WithRole(config.routers, App))
      <==> e.1.Mapping? && (RoleOf(e.1.router) == Neither ==> OtherInWords(config, e.1.router))
  {
    if e.1.Mapping? {
      PublicMeans(e.1.router);
      OutrankedMeans(config, e.1.router);
    }
  }

  /**
   Where application and probe routers list their middlewares and entry points, a configuration passes
   just if each of them meets what its role asks, web and websecure each have both with the probes
   above, and no other router can take over.
   */
  lemma PassesInWords(config: Config)
    requires config.Config? && Lists(config)
    ensures Passes(config)
      <==> && RoleInWords(config, App) && RoleInWords(config, Probe)
           && EntryInWords(config, "web") && EntryInWords(config, "websecure")
           && forall e <- config.routers ::
                e.1.Mapping? && (RoleOf(e.1.router) == Neither ==> OtherInWords(config, e.1.router))
  {
    PassesSplit(config);
    RolesMean(config);
    if RoleInWords(config, App) {
      forall e <- config.routers
        ensures Stands(e, WithRole(config.routers, App))
          <==> e.1.Mapping? && (RoleOf(e.1.router) == Neither ==> OtherInWords(config, e.1.router))
      {
        OthersMean(config, e);
      }
    }
  }
}
