/**
 Rules made of calls of one matcher, joined by one sign: what the audit captures from such a text, how
 it reads, and what it accepts. The captures are the same for both signs; what is accepted is not.
 */
module CallRules {
  import opened Text
  import opened RuleTokens
  import opened RuleSyntax
  import opened RuleVerdict
  import opened Gateway
  import opened GatewayGuarantee

  function Call(word: string, arg: string): string {
    word + ("(`" + (arg + "`)"))
  }

  function SignChar(joiner: Joiner): char {
    if joiner == Or then '|' else '&'
  }

  function SignText(joiner: Joiner): string {
    [SignChar(joiner), SignChar(joiner)]
  }

  function Rule(word: string, joiner: Joiner, args: seq<string>): string
    requires args != []
  {
    if |args| == 1 then Call(word, args[0])
    else Call(word, args[0]) + (SignText(joiner) + Rule(word, joiner, args[1..]))
  }

  predicate PlainArgs(args: seq<string>) {
    args != [] && forall a <- args :: a != "" && '`' !in a
  }

  predicate PlainWord(word: string) {
    word != "" && forall c <- word :: IsWord(c)
  }

  // ----- where the calls stand -----

  lemma AtJoin(s: string, i: nat, a: string, b: string)
    requires At(s, i, a) && At(s, i + |a|, b)
    ensures At(s, i, a + b)
  {
    assert s[i..i + |a + b|] == s[i..i + |a|] + s[i + |a|..i + |a| + |b|];
  }

  lemma NotAt(s: string, i: nat, part: string, k: nat)
    requires k < |part| && (i + k < |s| ==> s[i + k] != part[k])
    ensures !At(s, i, part)
  {
    if i + |part| <= |s| {
      assert s[i..i + |part|][k] == s[i + k];
    }
  }

  lemma {:induction false} FindEnd(s: string, i: nat, arg: string)
    requires '`' !in arg && At(s, i, arg) && i + |arg| < |s| && s[i + |arg|] == '`'
    ensures Find(s, i, '`') == i + |arg|
    decreases |arg|
  {
    if arg != "" {
      assert s[i] == s[i..i + |arg|][0] && arg[0] in arg;
      assert s[i + 1..i + |arg|] == s[i..i + |arg|][1..];
      FindEnd(s, i + 1, arg[1..]);
    }
  }

  /** At `i` stands a call with one argument, up to `next`, and no word runs into it. */
  ghost predicate CallAt(s: string, i: nat, word: string, arg: string, next: nat) {
    && (i > 0 ==> i <= |s| && !IsWord(s[i - 1])) && next == i + |word| + |arg| + 4
    && At(s, i, word + "(`") && At(s, i + |word| + 2, arg) && At(s, i + |word| + 2 + |arg|, "`)")
  }

  lemma CapturesStep(s: string, i: nat, word: string, arg: string, end: nat)
    requires word != "" && i + |word| + 2 < end <= |s| && !(i > 0 && IsWord(s[i - 1])) && At(s, i, word + "(`")
    requires Find(s, i + |word| + 2, '`') == end && At(s, end, "`)") && s[i + |word| + 2..end] == arg
    ensures Captures(s, i, word) == {arg} + Captures(s, end + 2, word)
  {
  }

  lemma CallEnds(s: string, i: nat, word: string, arg: string, next: nat)
    requires CallAt(s, i, word, arg, next) && '`' !in arg
    ensures next <= |s| && Find(s, i + |word| + 2, '`') == next - 2 && s[i + |word| + 2..next - 2] == arg
  {
    AtEach(s, next - 2, "`)");
    FindEnd(s, i + |word| + 2, arg);
  }

  lemma CapturesCall(s: string, i: nat, word: string, arg: string, next: nat)
    requires CallAt(s, i, word, arg, next) && word != "" && arg != "" && '`' !in arg
    ensures Captures(s, i, word) == {arg} + Captures(s, next, word)
  {
    CallEnds(s, i, word, arg, next);
    CapturesStep(s, i, word, arg, next - 2);
  }

  lemma AtMiddle(s: string, before: string, part: string, rest: string)
    requires s == before + (part + rest)
    ensures At(s, |before|, part)
    ensures before != "" ==> s[|before| - 1] == before[|before| - 1]
  {
    assert s[|before|..|before| + |part|] == part;
  }

  lemma CallParts(s: string, i: nat, word: string, arg: string)
    requires At(s, i, Call(word, arg))
    ensures At(s, i, word + "(`") && At(s, i + |word| + 2, arg) && At(s, i + |word| + 2 + |arg|, "`)")
  {
    AtSplit(s, i, word, "(`" + (arg + "`)"));
    AtSplit(s, i + |word|, "(`", arg + "`)");
    AtSplit(s, i + |word| + 2, arg, "`)");
    AtJoin(s, i, word, "(`");
  }

  lemma CallStands(s: string, before: string, word: string, arg: string, rest: string)
    requires s == before + (Call(word, arg) + rest) && (before != "" ==> !IsWord(before[|before| - 1]))
    ensures CallAt(s, |before|, word, arg, |before| + |word| + |arg| + 4)
  {
    AtMiddle(s, before, Call(word, arg), rest);
    CallParts(s, |before|, word, arg);
  }

  lemma {:induction false} SkipNonCaptures(s: string, i: nat, j: nat, word: string)
    requires word != "" && i <= j <= |s| && forall k | i <= k < j :: s[k] != word[0]
    ensures Captures(s, i, word) == Captures(s, j, word)
    decreases j - i
  {
    if i < j {
      NotAt(s, i, word + "(`", 0);
      SkipNonCaptures(s, i + 1, j, word);
    }
  }

  /** From `i` to its end, `s` is the calls with the sign between them. */
  ghost predicate CallsAt(s: string, i: nat, word: string, joiner: Joiner, args: seq<string>)
    requires args != []
    decreases |args|
  {
    var next := i + |word| + |args[0]| + 4;
    && CallAt(s, i, word, args[0], next)
    && if |args| == 1 then next == |s|
       else next + 2 <= |s| && s[next] == s[next + 1] == SignChar(joiner) && CallsAt(s, next + 2, word, joiner, args[1..])
  }

  lemma FirstCall(s: string, i: nat, word: string, joiner: Joiner, args: seq<string>, next: nat)
    requires PlainArgs(args) && CallsAt(s, i, word, joiner, args) && next == i + |word| + |args[0]| + 4
    ensures CallAt(s, i, word, args[0], next) && args[0] != "" && '`' !in args[0]
    ensures |args| == 1 ==> next == |s|
    ensures |args| > 1 ==>
      && next + 2 <= |s| && s[next] == s[next + 1] == SignChar(joiner)
      && PlainArgs(args[1..]) && CallsAt(s, next + 2, word, joiner, args[1..])
  {
    assert args[0] in args && forall a <- args[1..] :: a in args;
  }

  lemma SignAfter(s: string, before: string, call: string, sign: string, rest: string)
    requires s == before + (call + (sign + rest)) && |sign| == 2
    ensures var next := |before| + |call|;
      next + 2 <= |s| && s[next] == sign[0] && s[next + 1] == sign[1]
    ensures s == (before + call + sign) + rest && |before + call + sign| == |before| + |call| + 2
    ensures (before + call + sign)[|before + call + sign| - 1] == sign[1]
  {
  }

  lemma {:induction false} RuleStands(s: string, before: string, word: string, joiner: Joiner, args: seq<string>)
    requires args != [] && s == before + Rule(word, joiner, args) && (before != "" ==> !IsWord(before[|before| - 1]))
    ensures CallsAt(s, |before|, word, joiner, args)
    decreases |args|
  {
    var call := Call(word, args[0]);
    if |args| == 1 {
      assert s == before + (call + "");
      CallStands(s, before, word, args[0], "");
    } else {
      var rest := Rule(word, joiner, args[1..]);
      CallStands(s, before, word, args[0], SignText(joiner) + rest);
      SignAfter(s, before, call, SignText(joiner), rest);
      RuleStands(s, before + call + SignText(joiner), word, joiner, args[1..]);
    }
  }

  // ----- what is captured -----

  function ArgSet(args: seq<string>): set<string> {
    if args == [] then {} else {args[0]} + ArgSet(args[1..])
  }

  lemma CapturesMore(s: string, i: nat, word: string, joiner: Joiner, arg: string, next: nat, more: set<string>)
    requires PlainWord(word) && arg != "" && '`' !in arg && CallAt(s, i, word, arg, next)
    requires next + 2 <= |s| && s[next] == s[next + 1] == SignChar(joiner) && Captures(s, next + 2, word) == more
    ensures Captures(s, i, word) == {arg} + more
  {
    CapturesCall(s, i, word, arg, next);
    CapturesOn(s, next, word, joiner);
  }

  lemma CapturesLast(s: string, i: nat, word: string, arg: string)
    requires word != "" && arg != "" && '`' !in arg && CallAt(s, i, word, arg, |s|)
    ensures Captures(s, i, word) == {arg}
  {
    CapturesCall(s, i, word, arg, |s|);
  }

  lemma CapturesOn(s: string, next: nat, word: string, joiner: Joiner)
    requires PlainWord(word) && next + 2 <= |s| && s[next] == s[next + 1] == SignChar(joiner)
    ensures Captures(s, next, word) == Captures(s, next + 2, word)
  {
    assert word[0] in word && IsWord(word[0]) && !IsWord(SignChar(joiner));
    SkipNonCaptures(s, next, next + 2, word);
  }

  lemma {:induction false} CapturesCalls(s: string, i: nat, word: string, joiner: Joiner, args: seq<string>, next: nat)
    requires PlainWord(word) && PlainArgs(args) && CallsAt(s, i, word, joiner, args) && next == i + |word| + |args[0]| + 4
    ensures Captures(s, i, word) == ArgSet(args)
    decreases |args|
  {
    FirstCall(s, i, word, joiner, args, next);
    if |args| == 1 {
      CapturesLast(s, i, word, args[0]);
      assert ArgSet(args) == {args[0]} + ArgSet([]);
    } else {
      CapturesCalls(s, next + 2, word, joiner, args[1..], next + 2 + |word| + |args[1]| + 4);
      CapturesMore(s, i, word, joiner, args[0], next, ArgSet(args[1..]));
    }
  }

  lemma {:induction false} NoCaptures(s: string, i: nat, word: string, at: nat)
    requires at < |word| && word[at] !in s
    ensures Captures(s, i, word) == {}
    decreases |s| - i
  {
    if i < |s| {
      assert i + at < |s| ==> s[i + at] in s;
      NotAt(s, i, word + "(`", at);
      NoCaptures(s, i + 1, word, at);
    }
  }

  lemma ArgumentStands(s: string, start: nat, end: nat, arg: string)
    requires start < end <= |s| && end == Find(s, start, '`') && arg == s[start..end]
    ensures arg != "" && '`' !in arg && At(s, start, arg) && end == start + |arg|
  {
    Finds(s, start, '`');
    assert forall k | 0 <= k < |arg| :: arg[k] == s[start + k];
  }

  /** The argument is captured here, or further on. */
  lemma CapturedHereOrNext(s: string, i: nat, word: string, arg: string) returns (here: bool, next: nat)
    requires word != "" && arg in Captures(s, i, word)
    ensures here ==> CallAt(s, i, word, arg, i + |word| + |arg| + 4) && arg != "" && '`' !in arg
    ensures !here ==> i < next && i < |s| && arg in Captures(s, next, word)
  {
    var start := i + |word| + 2;
    here, next := false, i + 1;
    if !(i > 0 && IsWord(s[i - 1])) && At(s, i, word + "(`") {
      var end := Find(s, start, '`');
      if end > start && At(s, end, "`)") {
        CapturesStep(s, i, word, s[start..end], end);
        here, next := arg == s[start..end], end + 2;
        if here {
          ArgumentStands(s, start, end, arg);
        }
      }
    }
  }

  /** Whatever is captured stands in a call of its own: the word, the argument in back quotes, and no word running into it. */
  lemma {:induction false} CapturedStands(s: string, i: nat, word: string, arg: string) returns (k: nat)
    requires word != "" && arg in Captures(s, i, word)
    ensures i <= k && CallAt(s, k, word, arg, k + |word| + |arg| + 4) && arg != "" && '`' !in arg
    decreases |s| - i
  {
    var here, next := CapturedHereOrNext(s, i, word, arg);
    if here {
      k := i;
    } else {
      k := CapturedStands(s, next, word, arg);
    }
  }

  // ----- how it reads -----

  function TokensOf(word: string, joiner: Joiner, args: seq<string>): seq<Token>
    requires args != []
  {
    if |args| == 1 then [Matcher(word, [args[0]])]
    else [Matcher(word, [args[0]])] + ([joiner.Sign()] + TokensOf(word, joiner, args[1..]))
  }

  lemma CallToken(s: string, i: nat, word: string, arg: string, next: nat) returns (x: TokenSpan)
    requires PlainWord(word) && '`' !in arg && CallAt(s, i, word, arg, next) && next <= |s|
    ensures TokenWritten(s, i, x, Matcher(word, [arg])) && x.end == next
  {
    assert word + "(`" == (word + "(") + "`";
    AtSplit(s, i, word + "(", "`");
    x := CallWritten(s, i, i, word, arg, next);
  }

  lemma SignToken(s: string, i: nat, joiner: Joiner) returns (x: TokenSpan)
    requires i + 2 <= |s| && s[i] == s[i + 1] == SignChar(joiner)
    ensures TokenWritten(s, i, x, joiner.Sign()) && x.end == i + 2
  {
    x := TokenSpan(i, i, [], i + 2, i + 2);
  }

  lemma TokensLast(s: string, i: nat, word: string, arg: string) returns (xs: seq<TokenSpan>)
    requires PlainWord(word) && '`' !in arg && CallAt(s, i, word, arg, |s|)
    ensures Written(s, i, xs, [Matcher(word, [arg])])
  {
    var x := CallToken(s, i, word, arg, |s|);
    WrittenCons(s, i, x, [], Matcher(word, [arg]), []);
    xs := [x] + [];
    assert [Matcher(word, [arg])] + [] == [Matcher(word, [arg])];
  }

  lemma TokensMore(s: string, i: nat, word: string, joiner: Joiner, arg: string, next: nat, more: seq<TokenSpan>, ts: seq<Token>)
    returns (xs: seq<TokenSpan>)
    requires PlainWord(word) && '`' !in arg && CallAt(s, i, word, arg, next)
    requires next + 2 <= |s| && s[next] == s[next + 1] == SignChar(joiner) && Written(s, next + 2, more, ts)
    ensures Written(s, i, xs, [Matcher(word, [arg])] + ([joiner.Sign()] + ts))
  {
    var x := CallToken(s, i, word, arg, next);
    var sign := SignToken(s, next, joiner);
    WrittenCons(s, next, sign, more, joiner.Sign(), ts);
    WrittenCons(s, i, x, [sign] + more, Matcher(word, [arg]), [joiner.Sign()] + ts);
    xs := [x] + ([sign] + more);
  }

  lemma {:induction false} TokensStand(s: string, i: nat, word: string, joiner: Joiner, args: seq<string>)
    returns (xs: seq<TokenSpan>)
    requires PlainWord(word) && PlainArgs(args) && CallsAt(s, i, word, joiner, args)
    ensures Written(s, i, xs, TokensOf(word, joiner, args))
    decreases |args|
  {
    var next := i + |word| + |args[0]| + 4;
    FirstCall(s, i, word, joiner, args, next);
    if |args| == 1 {
      xs := TokensLast(s, i, word, args[0]);
    } else {
      var more := TokensStand(s, next + 2, word, joiner, args[1..]);
      xs := TokensMore(s, i, word, joiner, args[0], next, more, TokensOf(word, joiner, args[1..]));
    }
  }

  /** The calls grouped from the left. */
  function Tree(word: string, joiner: Joiner, args: seq<string>): Syntax
    requires args != []
  {
    var n := |args| - 1;
    if n == 0 then Match(word, [args[0]]) else Join(joiner, Tree(word, joiner, args[..n]), Match(word, [args[n]]))
  }

  lemma {:induction false} TokensGrow(word: string, joiner: Joiner, args: seq<string>, last: string)
    requires args != []
    ensures TokensOf(word, joiner, args + [last]) == TokensOf(word, joiner, args) + [joiner.Sign()] + [Matcher(word, [last])]
    decreases |args|
  {
    assert (args + [last])[1..] == args[1..] + [last];
    if |args| > 1 {
      TokensGrow(word, joiner, args[1..], last);
    }
  }

  lemma {:induction false} TreeUnparsed(word: string, joiner: Joiner, args: seq<string>)
    requires args != []
    ensures Shaped(Tree(word, joiner, args)) && Unparse(Tree(word, joiner, args)) == TokensOf(word, joiner, args)
    decreases |args|
  {
    var n := |args| - 1;
    if n > 0 {
      TreeUnparsed(word, joiner, args[..n]);
      TokensGrow(word, joiner, args[..n], args[n]);
      assert args[..n] + [args[n]] == args;
    }
  }

  /** The text is read as its calls, grouped from the left. */
  lemma RuleReads(word: string, joiner: Joiner, args: seq<string>)
    requires PlainWord(word) && PlainArgs(args)
    ensures ReadRule(Rule(word, joiner, args)) == Some(Tree(word, joiner, args))
    ensures Captures(Rule(word, joiner, args), 0, word) == ArgSet(args)
  {
    var s := Rule(word, joiner, args);
    WholeRule(s, word, joiner, args);
    CapturesCalls(s, 0, word, joiner, args, |word| + |args[0]| + 4);
    ReadsTree(s, word, joiner, args);
  }

  lemma WholeRule(s: string, word: string, joiner: Joiner, args: seq<string>)
    requires args != [] && s == Rule(word, joiner, args)
    ensures CallsAt(s, 0, word, joiner, args)
  {
    assert s == "" + s;
    RuleStands(s, "", word, joiner, args);
  }

  lemma ReadsTree(s: string, word: string, joiner: Joiner, args: seq<string>)
    requires PlainWord(word) && PlainArgs(args) && CallsAt(s, 0, word, joiner, args)
    ensures ReadRule(s) == Some(Tree(word, joiner, args))
  {
    var xs := TokensStand(s, 0, word, joiner, args);
    ReadWritten(s, 0, xs, TokensOf(word, joiner, args));
    TreeUnparsed(word, joiner, args);
    ParserExact(TokensOf(word, joiner, args), Tree(word, joiner, args));
  }

  // ----- what it accepts -----

  lemma {:induction false} TreeAccepts(w: World, word: string, joiner: Joiner, args: seq<string>, q: Request)
    requires args != []
    ensures Accepts(w, Tree(word, joiner, args), q) <==>
      if joiner == Or then exists a <- args :: MatcherAccepts(w, word, [a], q)
      else forall a <- args :: MatcherAccepts(w, word, [a], q)
    decreases |args|
  {
    var n := |args| - 1;
    if n == 0 {
      assert forall a <- args :: a == args[0];
    } else {
      TreeAccepts(w, word, joiner, args[..n], q);
      assert forall a <- args :: a in args[..n] || a == args[n];
    }
  }

  /** Joined by ||, some call has to match; joined by &&, all of them. */
  lemma RuleMeans(w: World, word: string, joiner: Joiner, args: seq<string>, q: Request)
    requires PlainWord(word) && PlainArgs(args)
    ensures RuleAccepts(w, Rule(word, joiner, args), q) <==>
      if joiner == Or then exists a <- args :: MatcherAccepts(w, word, [a], q)
      else forall a <- args :: MatcherAccepts(w, word, [a], q)
  {
    RuleReads(word, joiner, args);
    TreeAccepts(w, word, joiner, args, q);
  }

  /** An alternation of paths accepts just these paths; a conjunction of two different ones accepts none. */
  lemma PathsMean(w: World, joiner: Joiner, paths: seq<string>, q: Request)
    requires PlainArgs(paths) && (joiner == And ==> exists a <- paths, b <- paths :: a != b)
    ensures RuleAccepts(w, Rule("Path", joiner, paths), q) <==> joiner == Or && q.path in paths
  {
    RuleMeans(w, "Path", joiner, paths, q);
    assert forall a <- paths :: MatcherAccepts(w, "Path", [a], q) <==> q.path == a;
  }
}
