/** Traefik rules cut into tokens: `&&`, `||`, `!`, parentheses, and matchers with back-quoted arguments. */
module RuleTokens {
  import opened Text

  datatype Token =
    | AndOp
    | OrOp
    | NotOp
    | Open
    | Close
    | Matcher(name: string, args: seq<string>)

  /** The end of the word that starts at `i`. */
  function WordEnd(s: string, i: nat): (j: nat)
    requires i <= |s|
    ensures i <= j <= |s|
    decreases |s| - i
  {
    if i < |s| && IsWord(s[i]) then WordEnd(s, i + 1) else i
  }

  lemma {:induction false} WordEnds(s: string, i: nat)
    requires i <= |s|
    ensures forall k | i <= k < WordEnd(s, i) :: IsWord(s[k])
    ensures WordEnd(s, i) < |s| ==> !IsWord(s[WordEnd(s, i)])
    decreases |s| - i
  {
    if i < |s| && IsWord(s[i]) {
      WordEnds(s, i + 1);
    }
  }

  predicate Sees(s: string, i: nat, c: char) {
    i < |s| && s[i] == c
  }

  /** One back-quoted argument at `i`; the position behind the space and the comma after it. */
  function ReadArg(s: string, i: nat): (r: Option<(string, nat)>)
    requires i <= |s|
    ensures r.Some? ==> i < r.value.1 <= |s|
  {
    if !Sees(s, i, '`') then None
    else
      var j := Find(s, i + 1, '`');
      if j == |s| then None
      else
        var k := SkipSpace(s, j + 1);
        Some((s[i + 1..j], if Sees(s, k, ',') then k + 1 else k))
  }

  /** The arguments from `i` on, and the position behind the `)` that ends them. */
  function ReadArgs(s: string, i: nat): (r: Option<(seq<string>, nat)>)
    requires i <= |s|
    ensures r.Some? ==> i < r.value.1 <= |s|
    decreases |s| - i
  {
    var j := SkipSpace(s, i);
    if Sees(s, j, ')') then Some(([], j + 1))
    else
      var (arg, next) :- ReadArg(s, j);
      var (more, end) :- ReadArgs(s, next);
      Some(([arg] + more, end))
  }

  /** The token that starts at `i`, and the position behind it. */
  function FrontToken(s: string, i: nat): (r: Option<(Token, nat)>)
    requires i <= |s|
    ensures r.Some? ==> i < r.value.1 <= |s|
  {
    if Sees(s, i, '&') && Sees(s, i + 1, '&') then Some((AndOp, i + 2))
    else if Sees(s, i, '|') && Sees(s, i + 1, '|') then Some((OrOp, i + 2))
    else if Sees(s, i, '!') then Some((NotOp, i + 1))
    else if Sees(s, i, '(') then Some((Open, i + 1))
    else if Sees(s, i, ')') then Some((Close, i + 1))
    else
      var j := WordEnd(s, i);
      if j == i || !Sees(s, j, '(') then None
      else
        var (args, end) :- ReadArgs(s, j + 1);
        Some((Matcher(s[i..j], args), end))
  }

  /** The next token from `i` on, with the white space around it. */
  function NextToken(s: string, i: nat): (r: Option<(Token, nat)>)
    requires i <= |s|
    ensures r.Some? ==> i < r.value.1 <= |s|
  {
    var (token, end) :- FrontToken(s, SkipSpace(s, i));
    Some((token, SkipSpace(s, end)))
  }

  function TokensFrom(s: string, i: nat): Option<seq<Token>>
    requires i <= |s|
    decreases |s| - i
  {
    if i == |s| then Some([])
    else
      var (token, end) :- NextToken(s, i);
      var more :- TokensFrom(s, end);
      Some([token] + more)
  }

  function Tokens(s: string): Option<seq<Token>> {
    TokensFrom(s, 0)
  }

  ghost function After(tokens: seq<Token>, more: Option<seq<Token>>): Option<seq<Token>> {
    match more
    case Some(tail) => Some(tokens + tail)
    case None => None
  }

  lemma AfterOneMore(tokens: seq<Token>, token: Token, more: Option<seq<Token>>)
    ensures After([], more) == more && After(tokens, Some([])) == Some(tokens)
    ensures After(tokens, After([token], more)) == After(tokens + [token], more)
  {
    assert tokens + [] == tokens;
    if more.Some? {
      assert [] + more.value == more.value && tokens + ([token] + more.value) == tokens + [token] + more.value;
    }
  }

  /** The source's loop over positions; None stands for its ValueError. */
  method Tokenize(rule: string) returns (r: Option<seq<Token>>)
    ensures r == Tokens(rule)
  {
    var tokens: seq<Token>, pos := [], 0;
    AfterOneMore(tokens, AndOp, Tokens(rule));
    while pos < |rule|
      invariant pos <= |rule|
      invariant Tokens(rule) == After(tokens, TokensFrom(rule, pos))
    {
      var next := NextToken(rule, pos);
      if next.None? {
        return None;
      }
      var (token, end) := next.value;
      AfterOneMore(tokens, token, TokensFrom(rule, end));
      tokens, pos := tokens + [token], end;
    }
    AfterOneMore(tokens, AndOp, None);
    return Some(tokens);
  }

  // ----- what the token pattern itself says: where each part of the text stands -----

  /** White space up to `quote`, a back-quoted text up to `close`, white space up to `gap`, perhaps a comma. */
  datatype ArgSpan = ArgSpan(quote: nat, close: nat, gap: nat, end: nat)

  ghost predicate ArgWritten(s: string, i: nat, a: ArgSpan) {
    && Blank(s, i, a.quote)
    && a.quote < a.close < |s| && s[a.quote] == s[a.close] == '`'
    && (forall k | a.quote < k < a.close :: s[k] != '`')
    && Blank(s, a.close + 1, a.gap)
    && (a.end == a.gap || (Sees(s, a.gap, ',') && a.end == a.gap + 1))
  }

  /** The spans in `args` from `i` on, then white space and the closing parenthesis before `end`. */
  ghost predicate ArgsWritten(s: string, i: nat, args: seq<ArgSpan>, end: nat)
    decreases |args|
  {
    if args == [] then end > 0 && Blank(s, i, end - 1) && Sees(s, end - 1, ')')
    else ArgWritten(s, i, args[0]) && ArgsWritten(s, args[0].end, args[1..], end)
  }

  ghost predicate TextsAre(s: string, args: seq<ArgSpan>, texts: seq<string>) {
    && |args| == |texts|
    && forall k | 0 <= k < |args| :: args[k].quote < args[k].close <= |s| && texts[k] == s[args[k].quote + 1..args[k].close]
  }

  /** White space up to `start`, the token up to `stop`, white space up to `end`; a matcher's name ends at `word`. */
  datatype TokenSpan = TokenSpan(start: nat, word: nat, args: seq<ArgSpan>, stop: nat, end: nat)

  ghost predicate TokenWritten(s: string, i: nat, x: TokenSpan, token: Token) {
    && Blank(s, i, x.start) && x.start < x.stop && Blank(s, x.stop, x.end)
    && match token
       case AndOp => Sees(s, x.start, '&') && Sees(s, x.start + 1, '&') && x.stop == x.start + 2
       case OrOp => Sees(s, x.start, '|') && Sees(s, x.start + 1, '|') && x.stop == x.start + 2
       case NotOp => Sees(s, x.start, '!') && x.stop == x.start + 1
       case Open => Sees(s, x.start, '(') && x.stop == x.start + 1
       case Close => Sees(s, x.start, ')') && x.stop == x.start + 1
       case Matcher(name, args) =>
         && NameWritten(s, x.start, x.word, name)
         && ArgsWritten(s, x.word + 1, x.args, x.stop) && TextsAre(s, x.args, args)
  }

  ghost predicate NameWritten(s: string, start: nat, word: nat, name: string) {
    && start < word && Sees(s, word, '(') && (forall k {:trigger IsWord(s[k])} | start <= k < word :: IsWord(s[k]))
    && name == s[start..word]
  }

  /** From `i` to its end, `s` is the tokens in order, standing where the spans say. */
  ghost predicate Written(s: string, i: nat, xs: seq<TokenSpan>, tokens: seq<Token>)
    decreases |tokens|
  {
    if xs == [] || tokens == [] then xs == [] && tokens == [] && i == |s|
    else TokenWritten(s, i, xs[0], tokens[0]) && Written(s, xs[0].end, xs[1..], tokens[1..])
  }

  // ----- reading is exact -----

  lemma FindQuote(s: string, i: nat, j: nat)
    requires i <= j < |s| && s[j] == '`' && forall k | i <= k < j :: s[k] != '`'
    ensures Find(s, i, '`') == j
  {
    Finds(s, i, '`');
  }

  lemma ReadArgWritten(s: string, i: nat, a: ArgSpan)
    requires ArgWritten(s, i, a) && (a.end == a.gap ==> !Sees(s, SkipSpace(s, a.end), ','))
    ensures SkipSpace(s, i) == a.quote
    ensures ReadArg(s, a.quote).Some? && ReadArg(s, a.quote).value.0 == s[a.quote + 1..a.close]
    ensures SkipSpace(s, ReadArg(s, a.quote).value.1) == SkipSpace(s, a.end)
  {
    SkipBlank(s, i, a.quote);
    FindQuote(s, a.quote + 1, a.close);
    SkipBlank(s, a.close + 1, a.gap);
    SkipsBlank(s, a.gap);
    SkipBlank(s, a.gap, SkipSpace(s, a.gap));
  }

  lemma ArgsStart(s: string, i: nat, args: seq<ArgSpan>, end: nat)
    requires ArgsWritten(s, i, args, end)
    ensures i < end <= |s| && !Sees(s, SkipSpace(s, i), ',')
    decreases |args|
  {
    if args == [] {
      SkipBlank(s, i, end - 1);
    } else {
      SkipBlank(s, i, args[0].quote);
      ArgsStart(s, args[0].end, args[1..], end);
    }
  }

  lemma TextsTail(s: string, args: seq<ArgSpan>, texts: seq<string>)
    requires TextsAre(s, args, texts) && args != []
    ensures TextsAre(s, args[1..], texts[1..])
    ensures texts == [s[args[0].quote + 1..args[0].close]] + texts[1..]
  {
  }

  lemma ReadArgsStep(s: string, i: nat, quote: nat, next: nat, text: string)
    requires i <= |s| && SkipSpace(s, i) == quote < |s| && s[quote] == '`'
    requires ReadArg(s, quote) == Some((text, next)) && next <= |s| && ReadArgs(s, next).Some?
    ensures ReadArgs(s, i) == Some(([text] + ReadArgs(s, next).value.0, ReadArgs(s, next).value.1))
  {
  }

  lemma SameArgs(s: string, i: nat, j: nat)
    requires i <= |s| && j <= |s| && SkipSpace(s, i) == SkipSpace(s, j)
    ensures ReadArgs(s, i) == ReadArgs(s, j)
  {
  }

  lemma ReadArgsWrittenStep(s: string, i: nat, a: ArgSpan, more: seq<string>, end: nat)
    requires ArgWritten(s, i, a) && a.end <= |s| && !Sees(s, SkipSpace(s, a.end), ',')
    requires ReadArgs(s, a.end) == Some((more, end))
    ensures ReadArgs(s, i) == Some(([s[a.quote + 1..a.close]] + more, end))
  {
    ReadArgWritten(s, i, a);
    var (text, next) := ReadArg(s, a.quote).value;
    SameArgs(s, next, a.end);
    ReadArgsStep(s, i, a.quote, next, text);
  }

  lemma NoArgsWritten(s: string, i: nat, end: nat)
    requires ArgsWritten(s, i, [], end) && i <= |s|
    ensures ReadArgs(s, i) == Some(([], end))
  {
    SkipBlank(s, i, end - 1);
  }

  lemma ArgsTail(s: string, i: nat, args: seq<ArgSpan>, end: nat, texts: seq<string>)
    returns (a: ArgSpan, rest: seq<ArgSpan>, more: seq<string>)
    requires args != [] && ArgsWritten(s, i, args, end) && TextsAre(s, args, texts)
    ensures |rest| < |args| && ArgWritten(s, i, a) && ArgsWritten(s, a.end, rest, end) && TextsAre(s, rest, more)
    ensures a.end <= |s| && !Sees(s, SkipSpace(s, a.end), ',')
    ensures a.quote < a.close <= |s| && texts == [s[a.quote + 1..a.close]] + more
  {
    a, rest, more := args[0], args[1..], texts[1..];
    ArgsStart(s, a.end, rest, end);
    TextsTail(s, args, texts);
  }

  lemma {:induction false} ReadArgsWritten(s: string, i: nat, args: seq<ArgSpan>, end: nat, texts: seq<string>)
    requires ArgsWritten(s, i, args, end) && TextsAre(s, args, texts) && i <= |s|
    ensures ReadArgs(s, i) == Some((texts, end))
    decreases |args|
  {
    if args == [] {
      NoArgsWritten(s, i, end);
    } else {
      var a, rest, more := ArgsTail(s, i, args, end, texts);
      ReadArgsWritten(s, a.end, rest, end, more);
      ReadArgsWrittenStep(s, i, a, more, end);
    }
  }

  lemma ReadWord(s: string, i: nat, j: nat)
    requires i <= j && Sees(s, j, '(') && forall k | i <= k < j :: IsWord(s[k])
    ensures WordEnd(s, i) == j
  {
    WordEnds(s, i);
  }

  lemma FrontMatcher(s: string, start: nat, word: nat, name: string, args: seq<string>, stop: nat)
    requires NameWritten(s, start, word, name) && ReadArgs(s, word + 1) == Some((args, stop))
    ensures FrontToken(s, start) == Some((Matcher(name, args), stop))
  {
    ReadWord(s, start, word);
    assert IsWord(s[start]);
  }

  lemma ReadSignWritten(s: string, i: nat, x: TokenSpan, token: Token)
    requires !token.Matcher? && TokenWritten(s, i, x, token)
    ensures FrontToken(s, x.start) == Some((token, x.stop))
  {
  }

  lemma ReadMatcher(s: string, start: nat, word: nat, spans: seq<ArgSpan>, stop: nat, name: string, args: seq<string>)
    requires NameWritten(s, start, word, name) && ArgsWritten(s, word + 1, spans, stop) && TextsAre(s, spans, args)
    ensures FrontToken(s, start) == Some((Matcher(name, args), stop))
  {
    ReadArgsWritten(s, word + 1, spans, stop, args);
    FrontMatcher(s, start, word, name, args, stop);
  }

  lemma ReadTokenWritten(s: string, i: nat, x: TokenSpan, token: Token)
    requires TokenWritten(s, i, x, token)
    ensures FrontToken(s, x.start) == Some((token, x.stop))
  {
    if token.Matcher? {
      ReadMatcher(s, x.start, x.word, x.args, x.stop, token.name, token.args);
    } else {
      ReadSignWritten(s, i, x, token);
    }
  }

  lemma NextTokenWritten(s: string, i: nat, x: TokenSpan, token: Token)
    requires i <= |s| && TokenWritten(s, i, x, token)
    ensures NextToken(s, i) == Some((token, SkipSpace(s, x.end)))
  {
    SkipBlank(s, i, x.start);
    assert token.Matcher? ==> IsWord(s[x.start]);
    assert !IsSpace(s[x.start]);
    ReadTokenWritten(s, i, x, token);
    SkipBlank(s, x.stop, x.end);
  }

  /** White space before the rest of the tokens makes no difference; behind the last token there is none left. */
  lemma TokensOver(s: string, i: nat, xs: seq<TokenSpan>, tokens: seq<Token>)
    requires i <= |s| && Written(s, i, xs, tokens)
    ensures TokensFrom(s, SkipSpace(s, i)) == TokensFrom(s, i)
  {
    if tokens != [] {
      SkipBlank(s, i, xs[0].start);
      assert tokens[0].Matcher? ==> IsWord(s[xs[0].start]);
      assert !IsSpace(s[xs[0].start]);
      assert SkipSpace(s, xs[0].start) == xs[0].start;
    }
  }

  lemma OneTokenMore(s: string, i: nat, x: TokenSpan, token: Token, xs: seq<TokenSpan>, tokens: seq<Token>)
    requires i <= |s| && TokenWritten(s, i, x, token) && Written(s, x.end, xs, tokens)
    requires TokensFrom(s, x.end) == Some(tokens)
    ensures TokensFrom(s, i) == Some([token] + tokens)
  {
    NextTokenWritten(s, i, x, token);
    TokensOver(s, x.end, xs, tokens);
  }

  /** Whatever is written as the token pattern says is read back. */
  lemma {:induction false} ReadWritten(s: string, i: nat, xs: seq<TokenSpan>, tokens: seq<Token>)
    requires i <= |s| && Written(s, i, xs, tokens)
    ensures TokensFrom(s, i) == Some(tokens)
    decreases |tokens|
  {
    if tokens != [] {
      ReadWritten(s, xs[0].end, xs[1..], tokens[1..]);
      OneTokenMore(s, i, xs[0], tokens[0], xs[1..], tokens[1..]);
      assert tokens == [tokens[0]] + tokens[1..];
    }
  }

  lemma ArgSpanOf(s: string, i: nat) returns (a: ArgSpan)
    requires i <= |s| && ReadArg(s, SkipSpace(s, i)).Some?
    ensures ArgWritten(s, i, a) && a.end == ReadArg(s, SkipSpace(s, i)).value.1
    ensures ReadArg(s, SkipSpace(s, i)).value.0 == s[a.quote + 1..a.close]
  {
    var quote := SkipSpace(s, i);
    var close := Find(s, quote + 1, '`');
    SkipsBlank(s, i);
    Finds(s, quote + 1, '`');
    SkipsBlank(s, close + 1);
    a := ArgSpan(quote, close, SkipSpace(s, close + 1), ReadArg(s, quote).value.1);
  }

  lemma {:induction false} ArgSpansOf(s: string, i: nat) returns (args: seq<ArgSpan>)
    requires i <= |s| && ReadArgs(s, i).Some?
    ensures ArgsWritten(s, i, args, ReadArgs(s, i).value.1) && TextsAre(s, args, ReadArgs(s, i).value.0)
    decreases |s| - i
  {
    SkipsBlank(s, i);
    if Sees(s, SkipSpace(s, i), ')') {
      args := [];
    } else {
      var a := ArgSpanOf(s, i);
      var more := ArgSpansOf(s, a.end);
      args := [a] + more;
      ArgsCons(s, i, a, more, ReadArgs(s, i).value.1);
      TextsCons(s, a, more, ReadArgs(s, a.end).value.0);
    }
  }

  lemma ArgsCons(s: string, i: nat, a: ArgSpan, more: seq<ArgSpan>, end: nat)
    requires ArgWritten(s, i, a) && ArgsWritten(s, a.end, more, end)
    ensures ArgsWritten(s, i, [a] + more, end)
  {
    assert ([a] + more)[1..] == more;
  }

  lemma TextsCons(s: string, a: ArgSpan, more: seq<ArgSpan>, texts: seq<string>)
    requires TextsAre(s, more, texts) && a.quote < a.close <= |s|
    ensures TextsAre(s, [a] + more, [s[a.quote + 1..a.close]] + texts)
  {
  }

  lemma SignSpanOf(s: string, start: nat, token: Token, stop: nat, i: nat, end: nat) returns (x: TokenSpan)
    requires start <= |s| && FrontToken(s, start) == Some((token, stop)) && !token.Matcher?
    requires Blank(s, i, start) && Blank(s, stop, end)
    ensures TokenWritten(s, i, x, token) && x.end == end
  {
    x := TokenSpan(start, start, [], stop, end);
  }

  lemma MatcherSpanOf(s: string, start: nat, token: Token, stop: nat, i: nat, end: nat) returns (x: TokenSpan)
    requires start <= |s| && FrontToken(s, start) == Some((token, stop)) && token.Matcher?
    requires Blank(s, i, start) && Blank(s, stop, end)
    ensures TokenWritten(s, i, x, token) && x.end == end
  {
    WordEnds(s, start);
    var word := WordEnd(s, start);
    assert NameWritten(s, start, word, token.name);
    var args := ArgSpansOf(s, word + 1);
    x := TokenSpan(start, word, args, stop, end);
  }

  lemma TokenSpanOf(s: string, i: nat) returns (x: TokenSpan)
    requires i <= |s| && NextToken(s, i).Some?
    ensures TokenWritten(s, i, x, NextToken(s, i).value.0) && x.end == NextToken(s, i).value.1
  {
    var start := SkipSpace(s, i);
    var (token, stop) := FrontToken(s, start).value;
    SkipsBlank(s, i);
    SkipsBlank(s, stop);
    if token.Matcher? {
      x := MatcherSpanOf(s, start, token, stop, i, SkipSpace(s, stop));
    } else {
      x := SignSpanOf(s, start, token, stop, i, SkipSpace(s, stop));
    }
  }

  /** Whatever is read was written as the token pattern says. */
  lemma {:induction false} SpansOf(s: string, i: nat) returns (xs: seq<TokenSpan>)
    requires i <= |s| && TokensFrom(s, i).Some?
    ensures Written(s, i, xs, TokensFrom(s, i).value)
    decreases |s| - i
  {
    if i == |s| {
      xs := [];
    } else {
      var x := TokenSpanOf(s, i);
      var more := SpansOf(s, x.end);
      xs := [x] + more;
      assert xs[1..] == more;
    }
  }

  /** `s` is, from beginning to end, the tokens written in order. */
  ghost predicate Spells(s: string, tokens: seq<Token>) {
    exists xs :: Written(s, 0, xs, tokens)
  }

  lemma TokensSpell(s: string)
    requires Tokens(s).Some?
    ensures Spells(s, Tokens(s).value)
  {
    var xs := SpansOf(s, 0);
  }

  lemma SpellingIsRead(s: string, tokens: seq<Token>)
    requires Spells(s, tokens)
    ensures Tokens(s) == Some(tokens)
  {
    var xs :| Written(s, 0, xs, tokens);
    ReadWritten(s, 0, xs, tokens);
  }

  /** The tokenizer accepts exactly the texts the token pattern describes, and reads exactly their tokens. */
  lemma TokenizerExact(s: string, tokens: seq<Token>)
    ensures Tokens(s) == Some(tokens) <==> Spells(s, tokens)
  {
    if Tokens(s) == Some(tokens) {
      TokensSpell(s);
    } else if Spells(s, tokens) {
      SpellingIsRead(s, tokens);
    }
  }

  // ----- a printer, and the round trip -----

  function PrintArgs(args: seq<string>): string {
    if args == [] then ")" else "`" + args[0] + "`," + PrintArgs(args[1..])
  }

  function PrintToken(token: Token): string {
    match token
    case AndOp => "&&"
    case OrOp => "||"
    case NotOp => "!"
    case Open => "("
    case Close => ")"
    case Matcher(name, args) => name + "(" + PrintArgs(args)
  }

  function Print(tokens: seq<Token>): string {
    if tokens == [] then "" else PrintToken(tokens[0]) + " " + Print(tokens[1..])
  }

  predicate Printable(token: Token) {
    token.Matcher? ==>
      token.name != "" && (forall c <- token.name :: IsWord(c)) && (forall a <- token.args :: '`' !in a)
  }

  lemma AtSplit(s: string, i: nat, a: string, b: string)
    requires At(s, i, a + b)
    ensures At(s, i, a) && At(s, i + |a|, b)
  {
    var m, e := i + |a|, i + |a| + |b|;
    assert |a + b| == e - i;
    assert s[i..m] == s[i..e][..|a|] == a;
    assert s[m..e] == s[i..e][|a|..] == b;
  }

  lemma AtEach(s: string, i: nat, part: string)
    requires At(s, i, part)
    ensures forall k | i <= k < i + |part| :: s[k] in part
    ensures part != "" ==> s[i] == part[0]
    ensures |part| > 1 ==> s[i + 1] == part[1]
  {
    assert forall k | i <= k < i + |part| :: s[k] == s[i..i + |part|][k - i];
  }

  lemma CommaArg(s: string, b: nat, close: nat)
    requires b < close && close + 1 < |s| && s[b] == s[close] == '`' && s[close + 1] == ','
    requires forall k | b < k < close :: s[k] != '`'
    ensures ArgWritten(s, b, ArgSpan(b, close, close + 1, close + 2))
  {
  }

  lemma ArgPrinted(s: string, b: nat, arg: string)
    requires '`' !in arg && At(s, b, "`" + arg + "`,")
    ensures var close := b + |arg| + 1;
      ArgWritten(s, b, ArgSpan(b, close, close + 1, close + 2)) && s[b + 1..close] == arg
  {
    AtSplit(s, b, "`" + arg, "`,");
    AtSplit(s, b, "`", arg);
    AtEach(s, b, "`");
    AtEach(s, b + 1, arg);
    AtEach(s, b + 1 + |arg|, "`,");
    CommaArg(s, b, b + |arg| + 1);
  }

  lemma ArgsGrow(s: string, b: nat, args: seq<string>, a: ArgSpan, rest: seq<ArgSpan>, end: nat) returns (spans: seq<ArgSpan>)
    requires args != [] && ArgWritten(s, b, a) && a.quote < a.close <= |s| && s[a.quote + 1..a.close] == args[0]
    requires ArgsWritten(s, a.end, rest, end) && TextsAre(s, rest, args[1..])
    ensures ArgsWritten(s, b, spans, end) && TextsAre(s, spans, args)
  {
    ArgsCons(s, b, a, rest, end);
    TextsCons(s, a, rest, args[1..]);
    spans := [a] + rest;
    assert args == [args[0]] + args[1..];
  }

  lemma ArgsPrintedMore(s: string, b: nat, args: seq<string>, rest: seq<ArgSpan>, end: nat) returns (spans: seq<ArgSpan>)
    requires args != [] && '`' !in args[0] && At(s, b, "`" + args[0] + "`,")
    requires ArgsWritten(s, b + |args[0]| + 3, rest, end) && TextsAre(s, rest, args[1..])
    ensures ArgsWritten(s, b, spans, end) && TextsAre(s, spans, args)
  {
    var close := b + |args[0]| + 1;
    ArgPrinted(s, b, args[0]);
    spans := ArgsGrow(s, b, args, ArgSpan(b, close, close + 1, close + 2), rest, end);
  }

  lemma ArgsPrintedSplit(s: string, b: nat, args: seq<string>)
    requires args != [] && At(s, b, PrintArgs(args))
    ensures At(s, b, "`" + args[0] + "`,") && At(s, b + |args[0]| + 3, PrintArgs(args[1..]))
    ensures |PrintArgs(args)| == |args[0]| + 3 + |PrintArgs(args[1..])|
  {
    AtSplit(s, b, "`" + args[0] + "`,", PrintArgs(args[1..]));
  }

  lemma {:induction false} ArgsPrinted(s: string, b: nat, args: seq<string>, end: nat) returns (spans: seq<ArgSpan>)
    requires (forall a <- args :: '`' !in a) && At(s, b, PrintArgs(args)) && end == b + |PrintArgs(args)|
    ensures ArgsWritten(s, b, spans, end) && TextsAre(s, spans, args)
    decreases |args|
  {
    if args == [] {
      AtEach(s, b, ")");
      spans := [];
    } else {
      ArgsPrintedSplit(s, b, args);
      var rest := ArgsPrinted(s, b + |args[0]| + 3, args[1..], end);
      spans := ArgsPrintedMore(s, b, args, rest, end);
    }
  }

  lemma NamePrinted(s: string, b: nat, name: string)
    requires name != "" && At(s, b, name + "(") && forall c <- name :: IsWord(c)
    ensures NameWritten(s, b, b + |name|, name)
  {
    AtSplit(s, b, name, "(");
    AtEach(s, b, name);
    AtEach(s, b + |name|, "(");
  }

  lemma MatcherParts(s: string, b: nat, name: string, args: seq<string>)
    requires At(s, b, PrintToken(Matcher(name, args)))
    ensures At(s, b, name + "(") && At(s, b + |name| + 1, PrintArgs(args))
    ensures |PrintToken(Matcher(name, args))| == |name| + 1 + |PrintArgs(args)|
  {
    AtSplit(s, b, name + "(", PrintArgs(args));
  }

  lemma MatcherPrinted(s: string, b: nat, token: Token) returns (x: TokenSpan)
    requires token.Matcher? && Printable(token) && At(s, b, PrintToken(token))
    requires Blank(s, b + |PrintToken(token)|, b + |PrintToken(token)| + 1)
    ensures TokenWritten(s, b, x, token) && x.end == b + |PrintToken(token)| + 1
  {
    var name, word, stop := token.name, b + |token.name|, b + |PrintToken(token)|;
    MatcherParts(s, b, name, token.args);
    NamePrinted(s, b, name);
    var spans := ArgsPrinted(s, word + 1, token.args, stop);
    x := TokenSpan(b, word, spans, stop, stop + 1);
  }

  lemma TokenPrinted(s: string, b: nat, token: Token) returns (x: TokenSpan)
    requires Printable(token) && At(s, b, PrintToken(token) + " ")
    ensures TokenWritten(s, b, x, token) && x.end == b + |PrintToken(token)| + 1
  {
    var text := PrintToken(token);
    AtSplit(s, b, text, " ");
    AtEach(s, b + |text|, " ");
    if token.Matcher? {
      x := MatcherPrinted(s, b, token);
    } else {
      AtEach(s, b, text);
      x := TokenSpan(b, b, [], b + |text|, b + |text| + 1);
    }
  }

  lemma {:induction false} TokensPrinted(s: string, b: nat, tokens: seq<Token>) returns (xs: seq<TokenSpan>)
    requires (forall t <- tokens :: Printable(t)) && At(s, b, Print(tokens)) && b + |Print(tokens)| == |s|
    ensures Written(s, b, xs, tokens)
    decreases |tokens|
  {
    if tokens == [] {
      xs := [];
    } else {
      AtSplit(s, b, PrintToken(tokens[0]) + " ", Print(tokens[1..]));
      var x := TokenPrinted(s, b, tokens[0]);
      var rest := TokensPrinted(s, x.end, tokens[1..]);
      xs := [x] + rest;
      assert xs[1..] == rest;
    }
  }

  /** Printing tokens and cutting the text again gives the same tokens. */
  lemma PrintedTokensReadBack(tokens: seq<Token>)
    requires forall t <- tokens :: Printable(t)
    ensures Tokens(Print(tokens)) == Some(tokens)
  {
    var xs := TokensPrinted(Print(tokens), 0, tokens);
    ReadWritten(Print(tokens), 0, xs, tokens);
  }
}
