/**
 Which patterns the regular expression prover must recognise: the verdict on patterns as they are
 usually written, told from the tree alone.
 */
module RegexpComplete {
  import opened Text
  import opened RegexpSyntax
  import opened RegexpProver

  // ----- the usual patterns -----

  predicate PathChar(c: char) {
    'a' <= c <= 'z' || 'A' <= c <= 'Z' || '0' <= c <= '9' || c == '/' || c == '_' || c == '-'
  }

  /** A class of letters, digits, `/`, `_`, `-` and `.`, possibly negated. */
  predicate UsualClass(atom: Atom) {
    && atom.Class? && !atom.bracketFirst && atom.items != []
    && forall item <- atom.items :: item.One? && (PathChar(item.c) || item.c == '.')
  }

  /** Characters, classes, anchors and groups without flags. */
  predicate UsualAtom(atom: Atom) {
    match atom
    case Literal(c) => c !in META && c != '{'
    case Class(_, _, _) => UsualClass(atom)
    case Escape(_) => false
    case Group(open, body) => open == "" && UsualBranches(body)
    case _ => true
  }

  predicate UsualItem(item: Item) {
    item.Repeat? && UsualAtom(item.atom) && item.between == [] && WellFormedQuantifier(item.quantifier)
  }

  predicate UsualItems(items: Items) {
    match items
    case Done => true
    case Then(head, tail) => UsualItem(head) && UsualItems(tail)
  }

  predicate UsualBranches(branches: Branches) {
    match branches
    case Only(items) => UsualItems(items)
    case Bar(items, rest) => UsualItems(items) && UsualBranches(rest)
  }

  /** The path characters the items start with, each to be matched once. */
  function Lead(items: Items): string {
    if items.Then? && items.head.Repeat? && items.head.quantifier == Once
       && items.head.atom.Literal? && PathChar(items.head.atom.c)
    then [items.head.atom.c] + Lead(items.tail)
    else ""
  }

  /** With the classes taken out, the items would start with `?`. */
  predicate OpensOptional(items: Items) {
    && items.Then? && items.head.Repeat? && items.head.atom.Class?
    && (items.head.quantifier.Maybe? || (items.head.quantifier == Once && OpensOptional(items.tail)))
  }

  predicate HidesInAtom(atom: Atom) {
    atom.Group? && (OpensOptional(atom.body.items) || HidesInBranches(atom.body))
  }

  /** Some group starts with an optional class, as `([a]?b)` does; without its class it reads `(?b)`. */
  predicate Hides(items: Items) {
    items.Then? && ((items.head.Repeat? && HidesInAtom(items.head.atom)) || Hides(items.tail))
  }

  predicate HidesInBranches(branches: Branches) {
    Hides(branches.items) || (branches.Bar? && HidesInBranches(branches.rest))
  }

  // ----- the alternation check from the front -----

  lemma {:induction false} ClosesOneBranch(flat: string, depth: nat)
    requires Closes(flat, depth)
    ensures OneBranch(flat, depth)
    decreases |flat|
  {
    if flat == "" {
      assert DepthAt(flat, 0) == 0;
    } else {
      var tail := flat[1..];
      ClosesOneBranch(tail, depth + Turn(flat[0]));
      forall k | 0 <= k <= |flat|
        ensures depth + DepthAt(flat, k) >= 0
        ensures k > 0 ==> depth + DepthAt(flat, k) == depth + Turn(flat[0]) + DepthAt(tail, k - 1)
      {
        if k > 0 {
          DepthFront(flat, k - 1);
        }
      }
      forall k | 0 <= k < |flat| && flat[k] == '|'
        ensures depth + DepthAt(flat, k) != 0
      {
        if k > 0 {
          assert tail[k - 1] == flat[k];
        }
      }
    }
  }

  lemma AlternationFreeFromTheFront(body: string, flat: string)
    requires flat == WithoutPlainClasses(body)
    ensures AlternationFree(body) <==> '\\' !in flat && '[' !in flat && !Contains(flat, "(?") && Closes(flat, 0)
  {
    if OneBranch(flat, 0) {
      OneBranchCloses(flat, 0);
    }
    if Closes(flat, 0) {
      ClosesOneBranch(flat, 0);
    }
  }

  // ----- pieces of text, and what the check makes of them -----

  /** Wherever the text stands, the check sees `flat` of it. */
  ghost predicate Flattens(text: string, flat: string) {
    forall rest :: WithoutPlainClasses(text + rest) == flat + WithoutPlainClasses(rest)
  }

  /** Read at a depth of at least `least`, the text is harmless but for `(?`, which it holds just if `hides`. */
  ghost predicate Passes(flat: string, hides: bool, least: nat) {
    && '\\' !in flat && '[' !in flat
    && (forall rest, depth: nat | depth >= least :: Closes(flat + rest, depth) == Closes(rest, depth))
    && (forall rest :: Contains(flat + rest, "(?") <==> hides || Contains(rest, "(?"))
  }

  ghost predicate Piece(text: string, flat: string, hides: bool, least: nat) {
    Flattens(text, flat) && Passes(flat, hides, least)
  }

  lemma FlattensJoin(a: string, fa: string, b: string, fb: string)
    requires Flattens(a, fa) && Flattens(b, fb)
    ensures Flattens(a + b, fa + fb)
  {
    forall rest
      ensures WithoutPlainClasses((a + b) + rest) == (fa + fb) + WithoutPlainClasses(rest)
    {
      Associative(a, b, rest);
      Associative(fa, fb, WithoutPlainClasses(rest));
    }
  }

  lemma PassesJoin(a: string, ha: bool, la: nat, b: string, hb: bool, lb: nat, least: nat)
    requires Passes(a, ha, la) && Passes(b, hb, lb) && la <= least && lb <= least
    ensures Passes(a + b, ha || hb, least)
  {
    forall rest
      ensures Contains((a + b) + rest, "(?") <==> ha || hb || Contains(rest, "(?")
      ensures forall depth: nat | depth >= least :: Closes((a + b) + rest, depth) == Closes(rest, depth)
    {
      Associative(a, b, rest);
    }
  }

  lemma PieceJoin(a: string, fa: string, ha: bool, la: nat, b: string, fb: string, hb: bool, lb: nat, least: nat)
    requires Piece(a, fa, ha, la) && Piece(b, fb, hb, lb) && la <= least && lb <= least
    ensures Piece(a + b, fa + fb, ha || hb, least)
  {
    FlattensJoin(a, fa, b, fb);
    PassesJoin(fa, ha, la, fb, hb, lb, least);
  }

  lemma PieceNothing()
    ensures Piece("", "", false, 0)
  {
    forall rest: string
      ensures "" + rest == rest
    {
    }
  }

  /** The first two characters are `(?`, or they stand further back. */
  lemma ContainsStep(c: char, rest: string)
    ensures Contains([c] + rest, "(?") <==> (c == '(' && rest != "" && rest[0] == '?') || Contains(rest, "(?")
  {
    var s := [c] + rest;
    assert s[1..] == rest;
    if c == '(' && rest != "" && rest[0] == '?' {
      assert s[..2] == "(?";
    }
    if "(?" <= s {
      assert s[0] == '(' && s[1] == '?';
    }
  }

  lemma FlattensChar(c: char)
    requires c != '['
    ensures Flattens([c], [c])
  {
    forall rest
      ensures WithoutPlainClasses([c] + rest) == [c] + WithoutPlainClasses(rest)
    {
      assert ([c] + rest)[1..] == rest;
    }
  }

  lemma ClosesStep(c: char, rest: string, depth: nat)
    requires c != '(' && c != ')' && (c == '|' ==> depth >= 1)
    ensures Closes([c] + rest, depth) == Closes(rest, depth)
  {
    assert ([c] + rest)[1..] == rest;
  }

  lemma PassesChar(c: char, least: nat)
    requires c !in "\\[()" && (c == '|' ==> least >= 1)
    ensures Passes([c], false, least)
  {
    forall rest, depth: nat | depth >= least
      ensures Closes([c] + rest, depth) == Closes(rest, depth)
    {
      ClosesStep(c, rest, depth);
    }
    forall rest
      ensures Contains([c] + rest, "(?") <==> Contains(rest, "(?")
    {
      ContainsStep(c, rest);
    }
  }

  lemma PieceChar(c: char, least: nat)
    requires c !in "\\[()" && (c == '|' ==> least >= 1)
    ensures Piece([c], [c], false, least)
  {
    FlattensChar(c);
    PassesChar(c, least);
  }

  lemma {:induction false} PieceHarmless(text: string)
    requires Harmless(text)
    ensures Piece(text, text, false, 0)
  {
    if text == "" {
      PieceNothing();
    } else {
      assert text[0] in text;
      PieceChar(text[0], 0);
      PieceHarmless(text[1..]);
      PieceJoin([text[0]], [text[0]], false, 0, text[1..], text[1..], false, 0, 0);
      assert [text[0]] + text[1..] == text;
    }
  }

  lemma OpenAndClose(inner: string, hides: bool, rest: string, depth: nat)
    requires Passes(inner, hides, 1)
    ensures Closes("(" + (inner + (")" + rest)), depth) == Closes(rest, depth)
  {
    var after := inner + (")" + rest);
    assert ("(" + after)[1..] == after && (")" + rest)[1..] == rest;
    assert Closes(after, depth + 1) == Closes(")" + rest, depth + 1);
  }

  lemma FlagSeen(inner: string, hides: bool, rest: string)
    requires Passes(inner, hides, 1)
    ensures Contains("(" + (inner + (")" + rest)), "(?")
      <==> hides || (inner != "" && inner[0] == '?') || Contains(rest, "(?")
  {
    ContainsStep('(', inner + (")" + rest));
    ContainsStep(')', rest);
    assert inner == "" ==> inner + (")" + rest) == ")" + rest;
  }

  lemma GroupSplit(inner: string, rest: string)
    ensures ("(" + inner + ")") + rest == "(" + (inner + (")" + rest))
  {
  }

  lemma PassesGroup(inner: string, hides: bool)
    requires Passes(inner, hides, 1)
    ensures Passes("(" + inner + ")", hides || (inner != "" && inner[0] == '?'), 0)
  {
    var flat := "(" + inner + ")";
    forall rest, depth: nat
      ensures Closes(flat + rest, depth) == Closes(rest, depth)
    {
      GroupSplit(inner, rest);
      OpenAndClose(inner, hides, rest, depth);
    }
    forall rest
      ensures Contains(flat + rest, "(?") <==> hides || (inner != "" && inner[0] == '?') || Contains(rest, "(?")
    {
      GroupSplit(inner, rest);
      FlagSeen(inner, hides, rest);
    }
  }

  lemma PieceGroup(text: string, flat: string, hides: bool)
    requires Piece(text, flat, hides, 1)
    ensures Piece("(" + text + ")", "(" + flat + ")", hides || (flat != "" && flat[0] == '?'), 0)
  {
    FlattensChar('(');
    FlattensChar(')');
    FlattensJoin("(", "(", text, flat);
    FlattensJoin("(" + text, "(" + flat, ")", ")");
    PassesGroup(flat, hides);
  }

  // ----- a class is stepped over -----

  lemma {:induction false} RunOfClass(items: seq<ClassItem>, rest: string)
    requires forall item <- items :: item.One? && (PathChar(item.c) || item.c == '.')
    requires rest != "" && rest[0] == ']'
    ensures |PrintClassItems(items)| == |items| && ClassRun(PrintClassItems(items) + rest) == |items|
    ensures (PrintClassItems(items) + rest)[|items|..] == rest
  {
    var s := PrintClassItems(items) + rest;
    if items == [] {
      assert s == rest;
    } else {
      RunOfClass(items[1..], rest);
      assert items[0] in items;
      assert s == [items[0].c] + (PrintClassItems(items[1..]) + rest);
      assert s[1..] == PrintClassItems(items[1..]) + rest;
      assert s[|items|..] == s[1..][|items| - 1..];
    }
  }

  lemma PieceClass(class_: Atom)
    requires UsualClass(class_)
    ensures Piece(PrintAtom(class_), "", false, 0)
  {
    PieceNothing();
    forall rest
      ensures WithoutPlainClasses(PrintAtom(class_) + rest) == "" + WithoutPlainClasses(rest)
    {
      ClassIsSteppedOver(class_, rest);
    }
  }

  lemma ClassIsSteppedOver(class_: Atom, rest: string)
    requires UsualClass(class_)
    ensures WithoutPlainClasses(PrintAtom(class_) + rest) == WithoutPlainClasses(rest)
  {
    var items, close := class_.items, "]" + rest;
    var s, after := PrintAtom(class_) + rest, PrintClassItems(items) + close;
    var from := if class_.negated then 2 else 1;
    ClassText(class_, rest);
    RunOfClass(items, close);
    assert s == ClassFront(class_) + after && |ClassFront(class_)| == from && s[from..] == after;
    FirstOfClass(items, close);
    assert s[1] == if class_.negated then '^' else after[0];
    assert after[|items|] == after[|items|..][0] == ']';
    assert PlainClass(s) == from + |items| + 1;
    assert s[from + |items| + 1..] == close[1..] == rest;
  }

  lemma FirstOfClass(items: seq<ClassItem>, close: string)
    requires items != [] && forall item <- items :: item.One? && (PathChar(item.c) || item.c == '.')
    ensures (PrintClassItems(items) + close)[0] != '^'
  {
    assert items[0] in items;
    assert PrintClassItems(items)[0] == items[0].c;
  }

  // ----- the tree, piece by piece -----

  function FlatAtom(atom: Atom): string {
    match atom
    case Class(_, _, _) => ""
    case Group(_, body) => "(" + FlatBranches(body) + ")"
    case _ => PrintAtom(atom)
  }

  function FlatItems(items: Items): string {
    match items
    case Done => ""
    case Then(Repeat(atom, _, quantifier), tail) => FlatAtom(atom) + quantifier.Print() + FlatItems(tail)
    case Then(_, tail) => FlatItems(tail)
  }

  function FlatBranches(branches: Branches): string {
    match branches
    case Only(items) => FlatItems(items)
    case Bar(items, rest) => FlatItems(items) + "|" + FlatBranches(rest)
  }

  lemma AtomStart(atom: Atom)
    requires UsualAtom(atom)
    ensures PrintAtom(atom) != "" && PrintAtom(atom)[0] !in "?*+{"
    ensures !atom.Class? ==> FlatAtom(atom) != "" && FlatAtom(atom)[0] == PrintAtom(atom)[0]
  {
    PrintAtomNonempty(atom);
  }

  lemma {:induction false} FlatStart(items: Items, rest: string)
    requires UsualItems(items) && (rest == "" || rest[0] == '|')
    ensures FlatItems(items) + rest != "" && (FlatItems(items) + rest)[0] == '?' <==> OpensOptional(items)
    decreases items
  {
    if items.Then? {
      var atom, q, tail := items.head.atom, items.head.quantifier.Print(), FlatItems(items.tail);
      assert FlatItems(items) == FlatAtom(atom) + q + tail;
      if atom.Class? && q == "" {
        FlatStart(items.tail, rest);
        assert FlatItems(items) == tail;
      } else if atom.Class? {
        assert (FlatItems(items) + rest)[0] == q[0];
      } else {
        AtomStart(atom);
        assert (FlatItems(items) + rest)[0] == FlatAtom(atom)[0];
      }
    }
  }

  lemma BranchesStart(branches: Branches)
    requires UsualBranches(branches)
    ensures FlatBranches(branches) != "" && FlatBranches(branches)[0] == '?' <==> OpensOptional(branches.items)
  {
    match branches
    case Only(items) =>
      FlatStart(items, "");
      assert FlatItems(items) + "" == FlatItems(items);
    case Bar(items, rest) =>
      FlatStart(items, "|" + FlatBranches(rest));
      Associative(FlatItems(items), "|", FlatBranches(rest));
  }

  lemma {:induction false} PieceAtom(atom: Atom)
    requires UsualAtom(atom)
    ensures Piece(PrintAtom(atom), FlatAtom(atom), HidesInAtom(atom), 0)
    decreases atom, 0
  {
    match atom
    case Class(_, _, _) => PieceClass(atom);
    case Group(open, body) =>
      PieceBranches(body);
      BranchesStart(body);
      PieceGroup(PrintBranches(body), FlatBranches(body), HidesInBranches(body));
      assert "(" + open == "(";
    case Literal(c) => PieceChar(c, 0);
    case Dot => PieceChar('.', 0);
    case Begin => PieceChar('^', 0);
    case End => PieceChar('$', 0);
  }

  lemma {:induction false} PieceItems(items: Items)
    requires UsualItems(items)
    ensures Piece(PrintItems(items), FlatItems(items), Hides(items), 0)
    decreases items
  {
    match items
    case Done => PieceNothing();
    case Then(head, tail) =>
      var atom, q := head.atom, head.quantifier.Print();
      PieceAtom(atom);
      QuantifierHarmless(head.quantifier);
      PieceHarmless(q);
      PieceItems(tail);
      PieceJoin(PrintAtom(atom), FlatAtom(atom), HidesInAtom(atom), 0, q, q, false, 0, 0);
      PieceJoin(PrintAtom(atom) + q, FlatAtom(atom) + q, HidesInAtom(atom), 0,
                PrintItems(tail), FlatItems(tail), Hides(tail), 0, 0);
      assert PrintItem(head) == PrintAtom(atom) + q;
  }

  lemma {:induction false} PieceBranches(branches: Branches)
    requires UsualBranches(branches)
    ensures Piece(PrintBranches(branches), FlatBranches(branches), HidesInBranches(branches), 1)
    decreases branches
  {
    PieceItems(branches.items);
    match branches
    case Only(items) =>
    case Bar(items, rest) =>
      PieceChar('|', 1);
      PieceBranches(rest);
      PieceJoin(PrintItems(items), FlatItems(items), Hides(items), 0, "|", "|", false, 1, 1);
      PieceJoin(PrintItems(items) + "|", FlatItems(items) + "|", Hides(items), 1,
                PrintBranches(rest), FlatBranches(rest), HidesInBranches(rest), 1, 1);
  }

  // ----- the literal at the front -----

  /** What items are written as starts with no quantifier. */
  lemma ItemsStart(items: Items)
    requires UsualItems(items)
    ensures !StartsWithQuantifier(PrintItems(items))
    ensures items.Then? ==> items.head.Repeat? && PrintItems(items) != "" && PrintItems(items)[0] == PrintAtom(items.head.atom)[0]
  {
    if items.Then? {
      var atom, head := items.head.atom, items.head;
      AtomStart(atom);
      assert PrintItem(head)[0] == PrintAtom(atom)[0];
      assert PrintItems(items)[0] == PrintItem(head)[0];
    }
  }

  lemma NothingRequired(s: string)
    requires s == "" || !IsPathCharacter(s[0]) || StartsWithQuantifier(s[1..])
    ensures RequiredLength(s) == 0
  {
    if s != "" && IsPathCharacter(s[0]) {
      assert s[1..][0] in "?*+{" && LiteralRun(s[1..]) == 0;
    }
  }

  lemma QuantifierStarts(quantifier: Quantifier, rest: string)
    requires quantifier != Once
    ensures StartsWithQuantifier(quantifier.Print() + rest)
  {
  }

  lemma FirstItemText(head: Item, tail: Items) returns (c: char, after: string)
    requires UsualItem(head)
    ensures PrintItems(Then(head, tail)) == [c] + after
    ensures IsPathCharacter(c) <==> head.atom.Literal? && PathChar(head.atom.c)
    ensures IsPathCharacter(c) ==> c == head.atom.c && after == head.quantifier.Print() + PrintItems(tail)
  {
    AtomStart(head.atom);
    var a, q := PrintAtom(head.atom), head.quantifier.Print();
    c, after := a[0], a[1..] + (q + PrintItems(tail));
    assert PrintItem(head) == a + q;
    Associative(a, q, PrintItems(tail));
    Associative([c], a[1..], q + PrintItems(tail));
    assert a == [c] + a[1..];
    assert head.atom.Literal? ==> a[1..] == "" && "" + (q + PrintItems(tail)) == q + PrintItems(tail);
  }

  lemma {:induction false} LeadIsRequired(items: Items)
    requires UsualItems(items)
    ensures PrintItems(items)[..RequiredLength(PrintItems(items))] == Lead(items)
  {
    var s := PrintItems(items);
    if items == Done {
      NothingRequired(s);
    } else {
      var head, tail := items.head, items.tail;
      var c, after := FirstItemText(head, tail);
      assert s[1..] == after;
      if !IsPathCharacter(c) {
        NothingRequired(s);
      } else if head.quantifier != Once {
        QuantifierStarts(head.quantifier, PrintItems(tail));
        NothingRequired(s);
      } else {
        assert after == PrintItems(tail);
        ItemsStart(tail);
        LeadIsRequired(tail);
        OneMoreRequired(s);
      }
    }
  }

  lemma OneMoreRequired(s: string)
    requires s != "" && IsPathCharacter(s[0]) && !StartsWithQuantifier(s[1..])
    ensures RequiredLength(s) == 1 + RequiredLength(s[1..])
    ensures s[..RequiredLength(s)] == [s[0]] + s[1..][..RequiredLength(s[1..])]
  {
    assert s[1 + LiteralRun(s[1..])..] == s[1..][LiteralRun(s[1..])..];
    assert LiteralRun(s[1..]) == 0 ==> s[1..][0..] == s[1..];
  }

  lemma PieceAlone(text: string, flat: string, hides: bool)
    requires Piece(text, flat, hides, 0)
    ensures WithoutPlainClasses(text) == flat
    ensures '\\' !in flat && '[' !in flat && Closes(flat, 0) && (Contains(flat, "(?") <==> hides)
  {
    assert text + "" == text && flat + "" == flat;
    assert flat + WithoutPlainClasses("") == flat;
  }

  lemma FrontPasses(front: string, body: string, left: string)
    requires Harmless(front) && left == WithoutPlainClasses(body)
    ensures WithoutPlainClasses(front + body) == front + left
    ensures Closes(front + left, 0) == Closes(left, 0)
    ensures Contains(front + left, "(?") == Contains(left, "(?")
  {
    PieceHarmless(front);
  }

  /** The path characters in front of the body do not matter to the alternation check. */
  lemma FrontDoesNotMatter(front: string, body: string, flat: string, hides: bool)
    requires forall c <- front :: IsPathCharacter(c)
    requires Piece(front + body, flat, hides, 0)
    ensures AlternationFree(body) <==> !hides
  {
    var left := WithoutPlainClasses(body);
    FrontPasses(front, body, left);
    PieceAlone(front + body, flat, hides);
    assert forall c <- left :: c in flat;
    AlternationFreeFromTheFront(body, left);
  }

  /**
   A pattern of characters, classes, anchors and groups behind `^` is proved disjoint just when its
   leading literal is neither under the prefix nor a prefix of it, and no group starts with an
   optional class.
   */
  lemma UsualPatternVerdict(items: Items)
    requires UsualItems(items)
    ensures RegexpDisjoint("^" + PrintItems(items))
      <==> Lead(items) != "" && !(PREFIX <= Lead(items)) && !(Lead(items) <= PREFIX) && !Hides(items)
  {
    var s := PrintItems(items);
    var pattern := "^" + s;
    assert pattern[1..] == s;
    RequiredTextIs(pattern);
    LeadIsRequired(items);
    PieceItems(items);
    assert BodyOf(pattern) == s[LiteralRun(s)..];
    assert s[..LiteralRun(s)] + s[LiteralRun(s)..] == s;
    FrontDoesNotMatter(s[..LiteralRun(s)], s[LiteralRun(s)..], FlatItems(items), Hides(items));
  }
}
