/**
 The grammar of Traefik rules over tokens: `!` binds tighter than `&&`, and `&&` than `||`.

 `Parse` is the reading the gateway check performs. It is proved exact: it returns a tree for
 precisely the token sequences that are that tree written out.
 */
module RuleSyntax {
  import opened Text
  import opened RuleTokens

  datatype Joiner = Or | And {
    function Sign(): Token {
      if this == Or then OrOp else AndOp
    }
  }

  datatype Syntax =
    | Join(joiner: Joiner, left: Syntax, right: Syntax)
    | Not(inner: Syntax)
    | Paren(inner: Syntax)
    | Match(name: string, args: seq<string>)

  predicate SeesToken(ts: seq<Token>, i: nat, t: Token) {
    i < |ts| && ts[i] == t
  }

  type Parsed = Option<(Syntax, nat)>

  /** Operands joined by one sign, grouped from the left. */
  function ParseJoined(ts: seq<Token>, i: nat, joiner: Joiner): (r: Parsed)
    requires i <= |ts|
    ensures r.Some? ==> i < r.value.1 <= |ts|
    decreases |ts| - i, if joiner == Or then 5 else 3
  {
    var (first, next) :- ParseBelow(ts, i, joiner);
    ParseTail(ts, next, joiner, first)
  }

  function ParseTail(ts: seq<Token>, i: nat, joiner: Joiner, left: Syntax): (r: Parsed)
    requires i <= |ts|
    ensures r.Some? ==> i <= r.value.1 <= |ts|
    decreases |ts| - i, 6
  {
    if SeesToken(ts, i, joiner.Sign()) then
      var (right, next) :- ParseBelow(ts, i + 1, joiner);
      ParseTail(ts, next, joiner, Join(joiner, left, right))
    else Some((left, i))
  }

  /** One operand of `joiner`: what binds tighter. */
  function ParseBelow(ts: seq<Token>, i: nat, joiner: Joiner): (r: Parsed)
    requires i <= |ts|
    ensures r.Some? ==> i < r.value.1 <= |ts|
    decreases |ts| - i, if joiner == Or then 4 else 2
  {
    if joiner == Or then ParseJoined(ts, i, And) else ParseOperand(ts, i)
  }

  function ParseOperand(ts: seq<Token>, i: nat): (r: Parsed)
    requires i <= |ts|
    ensures r.Some? ==> i < r.value.1 <= |ts|
    decreases |ts| - i, 1
  {
    if i == |ts| then None
    else match ts[i]
      case NotOp =>
        var (x, next) :- ParseOperand(ts, i + 1);
        Some((Not(x), next))
      case Open =>
        var (x, next) :- ParseJoined(ts, i + 1, Or);
        if SeesToken(ts, next, Close) then Some((Paren(x), next + 1)) else None
      case Matcher(name, args) => Some((Match(name, args), i + 1))
      case _ => None
  }

  /** A whole rule: the tree, provided no token is left over. */
  function Parse(ts: seq<Token>): Option<Syntax> {
    var (t, end) :- ParseJoined(ts, 0, Or);
    if end == |ts| then Some(t) else None
  }

  // ----- the grammar -----

  /** Whether `t` binds tighter than `joiner`, so that it may be its operand as it stands. */
  predicate Below(joiner: Joiner, t: Syntax) {
    t.Join? ==> joiner == Or && t.joiner == And
  }

  predicate Shaped(t: Syntax) {
    match t
    case Join(joiner, left, right) =>
      && Shaped(left) && Shaped(right)
      && Below(joiner, right) && (Below(joiner, left) || (left.Join? && left.joiner == joiner))
    case Not(x) => !x.Join? && Shaped(x)
    case Paren(x) => Shaped(x)
    case Match(_, _) => true
  }

  function Unparse(t: Syntax): (ts: seq<Token>)
    ensures ts != []
  {
    match t
    case Join(joiner, left, right) => Unparse(left) + [joiner.Sign()] + Unparse(right)
    case Not(x) => [NotOp] + Unparse(x)
    case Paren(x) => [Open] + Unparse(x) + [Close]
    case Match(name, args) => [Matcher(name, args)]
  }

  function Size(t: Syntax): (n: nat)
    ensures n > 0
  {
    match t
    case Join(_, left, right) => Size(left) + 1 + Size(right)
    case Not(x) => 1 + Size(x)
    case Paren(x) => 2 + Size(x)
    case Match(_, _) => 1
  }

  /** `t` is written at position `i` of `ts`. */
  predicate Stands(ts: seq<Token>, i: nat, t: Syntax)
    decreases t
  {
    match t
    case Join(joiner, left, right) =>
      Stands(ts, i, left) && SeesToken(ts, i + Size(left), joiner.Sign()) && Stands(ts, i + Size(left) + 1, right)
    case Not(x) => SeesToken(ts, i, NotOp) && Stands(ts, i + 1, x)
    case Paren(x) => SeesToken(ts, i, Open) && Stands(ts, i + 1, x) && SeesToken(ts, i + 1 + Size(x), Close)
    case Match(name, args) => SeesToken(ts, i, Matcher(name, args))
  }

  ghost predicate Holds(ts: seq<Token>, i: nat, part: seq<Token>) {
    i + |part| <= |ts| && ts[i..i + |part|] == part
  }

  lemma HoldsBoth(ts: seq<Token>, i: nat, a: seq<Token>, b: seq<Token>)
    ensures Holds(ts, i, a + b) <==> Holds(ts, i, a) && Holds(ts, i + |a|, b)
  {
    var m, e := i + |a|, i + |a| + |b|;
    assert |a + b| == e - i;
    if Holds(ts, i, a + b) {
      assert ts[i..m] == ts[i..e][..|a|] == a;
      assert ts[m..e] == ts[i..e][|a|..] == b;
    }
    if Holds(ts, i, a) && Holds(ts, m, b) {
      assert ts[i..e] == ts[i..m] + ts[m..e];
    }
  }

  lemma HoldsOne(ts: seq<Token>, i: nat, t: Token)
    ensures Holds(ts, i, [t]) <==> SeesToken(ts, i, t)
  {
    if i < |ts| {
      assert ts[i..i + 1] == [ts[i]];
    }
  }

  ghost predicate Agrees(ts: seq<Token>, i: nat, t: Syntax) {
    |Unparse(t)| == Size(t) && (Stands(ts, i, t) <==> Holds(ts, i, Unparse(t)))
  }

  lemma HoldsJoined(ts: seq<Token>, i: nat, m: nat, left: seq<Token>, sign: Token, right: seq<Token>)
    requires m == i + |left|
    ensures Holds(ts, i, left + [sign] + right)
      <==> Holds(ts, i, left) && SeesToken(ts, m, sign) && Holds(ts, m + 1, right)
  {
    HoldsBoth(ts, i, left + [sign], right);
    HoldsBoth(ts, i, left, [sign]);
    HoldsOne(ts, m, sign);
  }

  lemma StandsJoined(ts: seq<Token>, i: nat, t: Syntax)
    requires t.Join?
    ensures Stands(ts, i, t) ==
      (Stands(ts, i, t.left) && SeesToken(ts, i + Size(t.left), t.joiner.Sign()) && Stands(ts, i + Size(t.left) + 1, t.right))
  {
  }

  lemma UnparseJoined(joiner: Joiner, left: Syntax, right: Syntax)
    ensures Unparse(Join(joiner, left, right)) == Unparse(left) + [joiner.Sign()] + Unparse(right)
    ensures |Unparse(Join(joiner, left, right))| == |Unparse(left)| + 1 + |Unparse(right)|
    ensures Size(Join(joiner, left, right)) == Size(left) + 1 + Size(right)
  {
  }

  lemma JoinAgrees(ts: seq<Token>, i: nat, m: nat, joiner: Joiner, left: Syntax, right: Syntax)
    requires m == i + Size(left) && Agrees(ts, i, left) && Agrees(ts, m + 1, right)
    ensures Agrees(ts, i, Join(joiner, left, right))
  {
    UnparseJoined(joiner, left, right);
    StandsJoined(ts, i, Join(joiner, left, right));
    HoldsJoined(ts, i, m, Unparse(left), joiner.Sign(), Unparse(right));
  }

  lemma NotAgrees(ts: seq<Token>, i: nat, x: Syntax)
    requires Agrees(ts, i + 1, x)
    ensures Agrees(ts, i, Not(x))
  {
    HoldsBoth(ts, i, [NotOp], Unparse(x));
    HoldsOne(ts, i, NotOp);
  }

  lemma ParenAgrees(ts: seq<Token>, i: nat, x: Syntax)
    requires Agrees(ts, i + 1, x)
    ensures Agrees(ts, i, Paren(x))
  {
    HoldsBoth(ts, i, [Open] + Unparse(x), [Close]);
    HoldsBoth(ts, i, [Open], Unparse(x));
    HoldsOne(ts, i, Open);
    HoldsOne(ts, i + 1 + Size(x), Close);
  }

  /** Standing at a position is being there, token for token. */
  lemma {:induction false} StandsUnparsed(ts: seq<Token>, i: nat, t: Syntax)
    ensures Agrees(ts, i, t)
    decreases t
  {
    match t
    case Join(joiner, left, right) =>
      StandsUnparsed(ts, i, left);
      StandsUnparsed(ts, i + Size(left) + 1, right);
      JoinAgrees(ts, i, i + Size(left), joiner, left, right);
    case Not(x) =>
      StandsUnparsed(ts, i + 1, x);
      NotAgrees(ts, i, x);
    case Paren(x) =>
      StandsUnparsed(ts, i + 1, x);
      ParenAgrees(ts, i, x);
    case Match(name, args) =>
      HoldsOne(ts, i, Matcher(name, args));
  }

  // ----- what is parsed was written -----

  /** `t` is what a list of operands of `joiner` may give. */
  predicate Within(joiner: Joiner, t: Syntax) {
    Below(joiner, t) || (t.Join? && t.joiner == joiner)
  }

  /** Nothing at `i` would continue a list of operands of `joiner`, or of a tighter one. */
  predicate Stops(ts: seq<Token>, i: nat, joiner: Joiner) {
    !SeesToken(ts, i, AndOp) && (joiner == Or ==> !SeesToken(ts, i, OrOp))
  }

  lemma {:induction false} ParseJoinedSound(ts: seq<Token>, i: nat, joiner: Joiner)
    requires i <= |ts| && ParseJoined(ts, i, joiner).Some?
    ensures var (t, end) := ParseJoined(ts, i, joiner).value;
      Shaped(t) && Within(joiner, t) && Stands(ts, i, t) && end == i + Size(t) && Stops(ts, end, joiner)
    decreases |ts| - i, if joiner == Or then 5 else 3
  {
    ParseBelowSound(ts, i, joiner);
    var (first, next) := ParseBelow(ts, i, joiner).value;
    ParseTailSound(ts, i, next, joiner, first);
  }

  lemma {:induction false} ParseTailSound(ts: seq<Token>, start: nat, i: nat, joiner: Joiner, left: Syntax)
    requires start < i <= |ts| && ParseTail(ts, i, joiner, left).Some?
    requires Shaped(left) && Within(joiner, left) && Stands(ts, start, left) && i == start + Size(left)
    requires joiner == Or ==> !SeesToken(ts, i, AndOp)
    ensures var (t, end) := ParseTail(ts, i, joiner, left).value;
      Shaped(t) && Within(joiner, t) && Stands(ts, start, t) && end == start + Size(t) && Stops(ts, end, joiner)
    decreases |ts| - i, 6
  {
    if SeesToken(ts, i, joiner.Sign()) {
      ParseBelowSound(ts, i + 1, joiner);
      var (right, next) := ParseBelow(ts, i + 1, joiner).value;
      ParseTailSound(ts, start, next, joiner, Join(joiner, left, right));
    }
  }

  lemma {:induction false} ParseBelowSound(ts: seq<Token>, i: nat, joiner: Joiner)
    requires i <= |ts| && ParseBelow(ts, i, joiner).Some?
    ensures var (t, end) := ParseBelow(ts, i, joiner).value;
      Shaped(t) && Below(joiner, t) && Stands(ts, i, t) && end == i + Size(t)
      && (joiner == Or ==> !SeesToken(ts, end, AndOp))
    decreases |ts| - i, if joiner == Or then 4 else 2
  {
    if joiner == Or {
      ParseJoinedSound(ts, i, And);
    } else {
      ParseOperandSound(ts, i);
    }
  }

  lemma {:induction false} ParseOperandSound(ts: seq<Token>, i: nat)
    requires i <= |ts| && ParseOperand(ts, i).Some?
    ensures var (t, end) := ParseOperand(ts, i).value;
      Shaped(t) && !t.Join? && Stands(ts, i, t) && end == i + Size(t)
    decreases |ts| - i, 1
  {
    match ts[i]
    case NotOp => ParseOperandSound(ts, i + 1);
    case Open => ParseJoinedSound(ts, i + 1, Or);
    case _ =>
  }

  // ----- what is written is parsed -----

  lemma {:induction false} ParsesOperand(ts: seq<Token>, i: nat, t: Syntax)
    requires i <= |ts| && Shaped(t) && !t.Join? && Stands(ts, i, t)
    ensures ParseOperand(ts, i) == Some((t, i + Size(t)))
    decreases t, 0
  {
    match t
    case Not(x) => ParsesOperand(ts, i + 1, x);
    case Paren(x) =>
      ParsesJoined(ts, i + 1, Or, x);
      assert ParseTail(ts, i + 1 + Size(x), Or, x) == Some((x, i + 1 + Size(x)));
    case Match(_, _) =>
  }

  lemma {:induction false} ParsesBelow(ts: seq<Token>, i: nat, joiner: Joiner, t: Syntax)
    requires i <= |ts| && Shaped(t) && Below(joiner, t) && Stands(ts, i, t)
    requires joiner == Or ==> !SeesToken(ts, i + Size(t), AndOp)
    ensures ParseBelow(ts, i, joiner) == Some((t, i + Size(t)))
    decreases t, if joiner == Or then 3 else 1
  {
    if joiner == Or {
      ParsesJoined(ts, i, And, t);
    } else {
      ParsesOperand(ts, i, t);
    }
  }

  lemma StandsFits(ts: seq<Token>, i: nat, t: Syntax)
    requires Stands(ts, i, t)
    ensures i + Size(t) <= |ts|
  {
    StandsUnparsed(ts, i, t);
  }

  lemma JoinParts(ts: seq<Token>, i: nat, t: Syntax) returns (left: Syntax, right: Syntax, m: nat, end: nat)
    requires t.Join? && Shaped(t) && Stands(ts, i, t)
    ensures left == t.left && right == t.right && m == i + Size(left) && end == m + 1 + Size(right) == i + Size(t) <= |ts|
    ensures Shaped(left) && Within(t.joiner, left) && Stands(ts, i, left)
    ensures Shaped(right) && Below(t.joiner, right) && Stands(ts, m + 1, right) && SeesToken(ts, m, t.joiner.Sign())
  {
    StandsFits(ts, i, t);
    left, right := t.left, t.right;
    m := i + Size(left);
    end := m + 1 + Size(right);
  }

  /** One operand more: the list reader goes on with the longer tree. */
  lemma ParsesOneMore(ts: seq<Token>, i: nat, joiner: Joiner, left: Syntax, right: Syntax, m: nat, end: nat)
    requires m + 1 <= end <= |ts| && i <= m && SeesToken(ts, m, joiner.Sign())
    requires ParseJoined(ts, i, joiner) == ParseTail(ts, m, joiner, left)
    requires ParseBelow(ts, m + 1, joiner) == Some((right, end))
    ensures ParseJoined(ts, i, joiner) == ParseTail(ts, end, joiner, Join(joiner, left, right))
  {
  }

  lemma ParsesFirst(ts: seq<Token>, i: nat, joiner: Joiner, t: Syntax, end: nat)
    requires i <= end <= |ts| && ParseBelow(ts, i, joiner) == Some((t, end))
    ensures ParseJoined(ts, i, joiner) == ParseTail(ts, end, joiner, t)
  {
  }

  /** Reading a tree of this level from its start leaves the list reader holding the tree. */
  lemma {:induction false} ParsesJoined(ts: seq<Token>, i: nat, joiner: Joiner, t: Syntax)
    requires i <= |ts| && Shaped(t) && Within(joiner, t) && Stands(ts, i, t)
    requires joiner == Or ==> !SeesToken(ts, i + Size(t), AndOp)
    ensures i + Size(t) <= |ts|
    ensures ParseJoined(ts, i, joiner) == ParseTail(ts, i + Size(t), joiner, t)
    decreases t, if joiner == Or then 4 else 2
  {
    if t.Join? && t.joiner == joiner {
      var left, right, m, end := JoinParts(ts, i, t);
      ParsesJoined(ts, i, joiner, left);
      ParsesBelow(ts, m + 1, joiner, right);
      ParsesOneMore(ts, i, joiner, left, right, m, end);
    } else {
      StandsFits(ts, i, t);
      ParsesBelow(ts, i, joiner, t);
      ParsesFirst(ts, i, joiner, t, i + Size(t));
    }
  }

  /** The reading is exact: it gives a tree for just those tokens that are the tree written out. */
  lemma ParserExact(ts: seq<Token>, t: Syntax)
    ensures Parse(ts) == Some(t) <==> Shaped(t) && Unparse(t) == ts
  {
    assert ts[0..|ts|] == ts;
    if Parse(ts) == Some(t) {
      ParseJoinedSound(ts, 0, Or);
      StandsUnparsed(ts, 0, t);
    }
    if Shaped(t) && Unparse(t) == ts {
      StandsUnparsed(ts, 0, t);
      ParsesJoined(ts, 0, Or, t);
    }
  }

  // ----- minimal parentheses -----

  /** A rule as a formula, with no parentheses of its own. */
  datatype Formula =
    | Both(a: Formula, b: Formula)
    | Either(a: Formula, b: Formula)
    | Negation(a: Formula)
    | Atom(name: string, args: seq<string>)

  function Guarded(t: Syntax, plain: bool): Syntax {
    if plain then t else Paren(t)
  }

  /** The formula written with parentheses only where precedence asks for them. */
  function Write(f: Formula): (t: Syntax)
    ensures Shaped(t)
  {
    match f
    case Either(a, b) => Join(Or, Write(a), Guarded(Write(b), Below(Or, Write(b))))
    case Both(a, b) =>
      Join(And, Guarded(Write(a), Within(And, Write(a))), Guarded(Write(b), Below(And, Write(b))))
    case Negation(a) => Not(Guarded(Write(a), !Write(a).Join?))
    case Atom(name, args) => Match(name, args)
  }

  function FormulaOf(t: Syntax): Formula {
    match t
    case Join(Or, left, right) => Either(FormulaOf(left), FormulaOf(right))
    case Join(And, left, right) => Both(FormulaOf(left), FormulaOf(right))
    case Not(x) => Negation(FormulaOf(x))
    case Paren(x) => FormulaOf(x)
    case Match(name, args) => Atom(name, args)
  }

  lemma {:induction false} WriteKeepsFormula(f: Formula)
    ensures FormulaOf(Write(f)) == f
  {
    match f
    case Either(a, b) => WriteKeepsFormula(a); WriteKeepsFormula(b);
    case Both(a, b) => WriteKeepsFormula(a); WriteKeepsFormula(b);
    case Negation(a) => WriteKeepsFormula(a);
    case Atom(_, _) =>
  }

  predicate PrintableFormula(f: Formula) {
    match f
    case Either(a, b) => PrintableFormula(a) && PrintableFormula(b)
    case Both(a, b) => PrintableFormula(a) && PrintableFormula(b)
    case Negation(a) => PrintableFormula(a)
    case Atom(name, args) => Printable(Matcher(name, args))
  }

  lemma {:induction false} WrittenIsPrintable(t: Syntax)
    requires PrintableFormula(FormulaOf(t))
    ensures forall x <- Unparse(t) :: Printable(x)
  {
    match t
    case Join(_, left, right) => WrittenIsPrintable(left); WrittenIsPrintable(right);
    case Not(x) => WrittenIsPrintable(x);
    case Paren(x) => WrittenIsPrintable(x);
    case Match(_, _) =>
  }

  /** Reading the text of a rule: cut into tokens, then parse all of them. */
  function ReadRule(rule: string): Option<Syntax> {
    var ts :- Tokens(rule);
    Parse(ts)
  }

  /** Printed with minimal parentheses and read back, every formula is the same formula. */
  lemma FormulaRoundTrip(f: Formula)
    requires PrintableFormula(f)
    ensures ReadRule(Print(Unparse(Write(f)))) == Some(Write(f)) && FormulaOf(Write(f)) == f
  {
    WriteKeepsFormula(f);
    WrittenIsPrintable(Write(f));
    PrintedTokensReadBack(Unparse(Write(f)));
    ParserExact(Unparse(Write(f)), Write(f));
  }
}
