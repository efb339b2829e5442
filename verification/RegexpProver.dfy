/** The structural proof that a regular expression matches no path under the notifications prefix. */
module RegexpProver {
  import opened Text
  import opened RegexpSyntax

  const PREFIX := "/api/notifications"

  predicate IsPathCharacter(c: char) {
    IsAsciiLetterOrDigit(c) || c == '/' || c == '_' || c == '-'
  }

  predicate IsClassCharacter(c: char) {
    IsPathCharacter(c) || c == '.'
  }

  /** How many leading class characters `s` has. */
  function ClassRun(s: string): (n: nat)
    ensures n <= |s|
    ensures forall k | 0 <= k < n :: IsClassCharacter(s[k])
    ensures n < |s| ==> !IsClassCharacter(s[n])
  {
    if s != "" && IsClassCharacter(s[0]) then 1 + ClassRun(s[1..]) else 0
  }

  /** The length of the plain class, `[abc]` or `[^abc]`, that `s` starts with; 0 if it starts with none. */
  function PlainClass(s: string): (n: nat)
    ensures n <= |s|
    ensures n > 0 ==> n >= 3 && s[0] == '[' && s[n - 1] == ']'
    ensures n > 0 ==> forall k | 1 <= k < n - 1 :: IsClassCharacter(s[k]) || (k == 1 && n > 3 && s[k] == '^')
  {
    if |s| < 2 || s[0] != '[' then 0
    else
      var from := if s[1] == '^' then 2 else 1;
      var run := ClassRun(s[from..]);
      if run > 0 && from + run < |s| && s[from + run] == ']' then from + run + 1 else 0
  }

  /** `s` with every plain class taken out, from left to right. */
  function WithoutPlainClasses(s: string): string
    decreases |s|
  {
    if s == "" then ""
    else if PlainClass(s) > 0 then WithoutPlainClasses(s[PlainClass(s)..])
    else [s[0]] + WithoutPlainClasses(s[1..])
  }

  function Turn(c: char): int {
    if c == '(' then 1 else if c == ')' then -1 else 0
  }

  /** Opening minus closing parentheses among the first `k` characters. */
  function DepthAt(s: string, k: nat): int
    requires k <= |s|
  {
    if k == 0 then 0 else DepthAt(s, k - 1) + Turn(s[k - 1])
  }

  /** From `depth` on, groups close in order and no `|` stands outside every group. */
  predicate OneBranch(flat: string, depth: nat) {
    && depth + DepthAt(flat, |flat|) == 0
    && (forall k | 0 <= k <= |flat| :: depth + DepthAt(flat, k) >= 0)
    && (forall k | 0 <= k < |flat| && flat[k] == '|' :: depth + DepthAt(flat, k) != 0)
  }

  /** Nothing that could change what `|`, `(` or `)` mean. */
  predicate Readable(flat: string) {
    '\\' !in flat && '[' !in flat && !Contains(flat, "(?")
  }

  predicate AlternationFree(body: string) {
    Readable(WithoutPlainClasses(body)) && OneBranch(WithoutPlainClasses(body), 0)
  }

  method CheckAlternationFree(body: string) returns (free: bool)
    ensures free <==> AlternationFree(body)
  {
    var flat := WithoutPlainClasses(body);
    if '\\' in flat || '[' in flat || Contains(flat, "(?") {
      return false;
    }
    var depth := 0;
    for i := 0 to |flat|
      invariant depth == DepthAt(flat, i)
      invariant forall k | 0 <= k <= i :: DepthAt(flat, k) >= 0
      invariant forall k | 0 <= k < i && flat[k] == '|' :: DepthAt(flat, k) != 0
    {
      if flat[i] == '|' && depth == 0 {
        return false;
      }
      depth := depth + Turn(flat[i]);
      if depth < 0 {
        assert DepthAt(flat, i + 1) < 0;
        return false;
      }
    }
    return depth == 0;
  }

  /** The characters after `^` that stand for themselves. */
  function LiteralRun(s: string): (n: nat)
    ensures n <= |s|
    ensures forall k | 0 <= k < n :: IsPathCharacter(s[k])
    ensures n < |s| ==> !IsPathCharacter(s[n])
  {
    if s != "" && IsPathCharacter(s[0]) then 1 + LiteralRun(s[1..]) else 0
  }

  predicate StartsWithQuantifier(body: string) {
    body != "" && body[0] in "?*+{"
  }

  /** The literal every match must start with, as far as the pattern shows one. */
  function RequiredText(pattern: string): string
    requires pattern != "" && pattern[0] == '^'
  {
    var n := LiteralRun(pattern[1..]);
    if StartsWithQuantifier(pattern[1 + n..]) && n > 0 then pattern[1..n] else pattern[1..1 + n]
  }

  function BodyOf(pattern: string): string
    requires pattern != "" && pattern[0] == '^'
  {
    pattern[1 + LiteralRun(pattern[1..])..]
  }

  predicate Compatible(a: string, b: string) {
    a <= b || b <= a
  }

  /** The prover's verdict: true only when it has shown that no path under PREFIX can match. */
  predicate RegexpDisjoint(pattern: string) {
    && pattern != "" && pattern[0] == '^'
    && RequiredText(pattern) != ""
    && !Compatible(RequiredText(pattern), PREFIX)
    && AlternationFree(BodyOf(pattern))
  }

  method CheckRegexpDisjoint(pattern: string) returns (disjoint: bool)
    ensures disjoint <==> RegexpDisjoint(pattern)
  {
    if pattern == "" || pattern[0] != '^' {
      return false;
    }
    var text := RequiredText(pattern);
    if text == "" || PREFIX <= text || text <= PREFIX {
      return false;
    }
    disjoint := CheckAlternationFree(BodyOf(pattern));
  }

  // ----- the same scan, read left to right over the pattern itself -----

  /**
   The nesting depth after `s`, read from `depth` on with plain classes stepped over; None where
   the scan refuses: at an escape, another bracket, `(?`, a `|` outside every group or a stray `)`.
   */
  function Scan(s: string, depth: nat): Option<nat>
    decreases |s|
  {
    if s == "" then Some(depth)
    else if PlainClass(s) > 0 then Scan(s[PlainClass(s)..], depth)
    else if s[0] == '\\' || s[0] == '[' || "(?" <= s then None
    else if s[0] == '|' && depth == 0 then None
    else if depth + Turn(s[0]) < 0 then None
    else Scan(s[1..], depth + Turn(s[0]))
  }

  lemma {:induction false} DepthFront(s: string, k: nat)
    requires k < |s|
    ensures DepthAt(s, k + 1) == Turn(s[0]) + DepthAt(s[1..], k)
  {
    if k == 0 {
      assert DepthAt(s, 0) == 0;
    } else {
      DepthFront(s, k - 1);
      assert s[k] == s[1..][k - 1];
    }
  }

  lemma ReadableTail(c: char, s: string)
    requires Readable([c] + s)
    ensures Readable(s) && c != '\\' && c != '[' && !("(?" <= [c] + s)
  {
    assert ([c] + s)[1..] == s;
    assert forall x <- s :: x in [c] + s;
    assert c in [c] + s;
  }

  lemma OneBranchStep(s: string, depth: nat)
    requires s != "" && OneBranch(s, depth)
    ensures !(s[0] == '|' && depth == 0) && depth + Turn(s[0]) >= 0
    ensures OneBranch(s[1..], depth + Turn(s[0]))
  {
    var tail := s[1..];
    DepthFront(s, 0);
    assert depth + DepthAt(s, 0) == depth;
    assert depth + DepthAt(s, 1) >= 0;
    forall k | 0 <= k <= |tail|
      ensures depth + Turn(s[0]) + DepthAt(tail, k) >= 0
      ensures depth + Turn(s[0]) + DepthAt(tail, k) == depth + DepthAt(s, k + 1)
    {
      DepthFront(s, k);
    }
    forall k | 0 <= k < |tail| && tail[k] == '|'
      ensures depth + Turn(s[0]) + DepthAt(tail, k) != 0
    {
      assert s[k + 1] == tail[k];
    }
  }

  /** Taking classes out does not make or break the two characters `(?`. */
  lemma FlagStartSurvives(body: string)
    requires "(?" <= body
    ensures "(?" <= WithoutPlainClasses(body)
  {
    assert body[1..][0] == '?';
    assert WithoutPlainClasses(body) == ['('] + WithoutPlainClasses(body[1..]);
    assert WithoutPlainClasses(body[1..]) == ['?'] + WithoutPlainClasses(body[1..][1..]);
  }

  /** The same said from the front: the groups close and no `|` is met outside them. */
  predicate Closes(flat: string, depth: nat) {
    if flat == "" then depth == 0
    else
      && !(flat[0] == '|' && depth == 0) && depth + Turn(flat[0]) >= 0
      && Closes(flat[1..], depth + Turn(flat[0]))
  }

  lemma {:induction false} OneBranchCloses(flat: string, depth: nat)
    requires OneBranch(flat, depth)
    ensures Closes(flat, depth)
    decreases |flat|
  {
    if flat == "" {
      assert DepthAt("", 0) == 0;
    } else {
      OneBranchStep(flat, depth);
      OneBranchCloses(flat[1..], depth + Turn(flat[0]));
    }
  }

  lemma FlatScanClass(body: string, depth: nat)
    requires body != "" && PlainClass(body) > 0
    ensures WithoutPlainClasses(body) == WithoutPlainClasses(body[PlainClass(body)..])
    ensures Scan(body, depth) == Scan(body[PlainClass(body)..], depth)
  {
  }

  /** Outside the plain classes the scan goes one character on. */
  lemma FlatScanStep(body: string, depth: nat)
    requires body != "" && PlainClass(body) == 0
    requires Readable(WithoutPlainClasses(body)) && Closes(WithoutPlainClasses(body), depth)
    ensures Readable(WithoutPlainClasses(body[1..])) && depth + Turn(body[0]) >= 0
    ensures Closes(WithoutPlainClasses(body[1..]), depth + Turn(body[0]))
    ensures Scan(body, depth) == Scan(body[1..], depth + Turn(body[0]))
  {
    var c, flat := body[0], WithoutPlainClasses(body[1..]);
    assert WithoutPlainClasses(body) == [c] + flat && ([c] + flat)[1..] == flat;
    ReadableTail(c, flat);
    if "(?" <= body {
      FlagStartSurvives(body);
    }
  }

  /** Taking the plain classes out first loses nothing: the scan of the pattern itself succeeds. */
  lemma {:induction false} FlatScan(body: string, depth: nat)
    requires Readable(WithoutPlainClasses(body)) && Closes(WithoutPlainClasses(body), depth)
    ensures Scan(body, depth) == Some(0)
    decreases |body|
  {
    if body != "" && PlainClass(body) > 0 {
      FlatScanClass(body, depth);
      FlatScan(body[PlainClass(body)..], depth);
    } else if body != "" {
      FlatScanStep(body, depth);
      FlatScan(body[1..], depth + Turn(body[0]));
    }
  }

  lemma Associative(a: string, b: string, c: string)
    ensures (a + b) + c == a + (b + c)
  {
  }

  /** The items of a class that reads as plain end exactly where the plain class ends. */
  lemma {:induction false} ClassItemsEnd(items: seq<ClassItem>, rest: string, n: nat)
    requires forall item <- items :: WellFormedClassItem(item)
    requires rest != "" && rest[0] == ']'
    requires ClassRun(PrintClassItems(items) + rest) == n
    requires n < |PrintClassItems(items) + rest| && (PrintClassItems(items) + rest)[n] == ']'
    ensures n == |PrintClassItems(items)|
  {
    if items == [] {
      assert PrintClassItems(items) + rest == rest;
    } else {
      var more := PrintClassItems(items[1..]);
      var s := PrintClassItems(items) + rest;
      assert s[0] == PrintClassItem(items[0])[0];
      assert WellFormedClassItem(items[0]);
      if items[0].One? && n > 0 {
        assert s[1..] == more + rest;
        ClassItemsEnd(items[1..], rest, n - 1);
      }
    }
  }

  ghost function ClassFront(class_: Atom): string
    requires class_.Class?
  {
    "[" + (if class_.negated then "^" else "") + (if class_.bracketFirst then "]" else "")
  }

  lemma ClassText(class_: Atom, rest: string)
    requires class_.Class?
    ensures PrintAtom(class_) + rest == ClassFront(class_) + (PrintClassItems(class_.items) + ("]" + rest))
    ensures |PrintAtom(class_)| == |ClassFront(class_)| + |PrintClassItems(class_.items)| + 1
  {
    var inner := PrintClassItems(class_.items);
    assert PrintAtom(class_) == ClassFront(class_) + inner + "]";
    Associative(ClassFront(class_) + inner, "]", rest);
    Associative(ClassFront(class_), inner, "]" + rest);
  }

  /** The opening of a plain class is `[` or `[^`, the latter possibly read as an item. */
  lemma PlainClassFront(class_: Atom, s: string)
    requires class_.Class? && ClassFront(class_) <= s && PlainClass(s) > 0
    ensures !class_.bracketFirst
    ensures s[1] == '^' ==> PlainClass(s) == 3 + ClassRun(s[2..]) && s[2..][ClassRun(s[2..])] == ']'
    ensures s[1] != '^' ==> PlainClass(s) == 2 + ClassRun(s[1..]) && s[1..][ClassRun(s[1..])] == ']'
  {
    var front := ClassFront(class_);
    assert forall k | 0 <= k < |front| :: s[k] == front[k];
    assert front[1..] == (if class_.negated then "^" else "") + (if class_.bracketFirst then "]" else "");
  }

  /** A class whose text starts like a plain class is that plain class. */
  lemma ClassIsPlain(class_: Atom, rest: string)
    requires class_.Class? && WellFormedAtom(class_)
    requires PlainClass(PrintAtom(class_) + rest) > 0
    ensures PlainClass(PrintAtom(class_) + rest) == |PrintAtom(class_)|
  {
    var front, items, close := ClassFront(class_), class_.items, "]" + rest;
    var s := PrintAtom(class_) + rest;
    ClassText(class_, rest);
    PlainClassFront(class_, s);
    var after := PrintClassItems(items) + close;
    assert s == front + after && s[|front|..] == after;
    if class_.negated {
      assert front[1] == s[1] == '^';
      ClassItemsEnd(items, close, ClassRun(after));
    } else if s[1] == '^' {
      CaretItem(items, close);
      assert s[2..] == after[1..];
      ClassItemsEnd(items[1..], close, ClassRun(after[1..]));
    } else {
      ClassItemsEnd(items, close, ClassRun(after));
    }
  }

  lemma CaretItem(items: seq<ClassItem>, close: string)
    requires close != "" && close[0] == ']'
    requires (PrintClassItems(items) + close)[0] == '^'
    ensures items != [] && items[0] == One('^')
    ensures (PrintClassItems(items) + close)[1..] == PrintClassItems(items[1..]) + close
    ensures |PrintClassItems(items)| == 1 + |PrintClassItems(items[1..])|
  {
    assert items == [] ==> PrintClassItems(items) + close == close;
    if items != [] {
      assert (PrintClassItems(items) + close)[0] == PrintClassItem(items[0])[0];
      Associative(PrintClassItem(items[0]), PrintClassItems(items[1..]), close);
    }
  }

  /** One character that the scan reads on its own. */
  lemma ScanStep(c: char, rest: string, depth: nat)
    requires c != '[' && c != '\\'
    ensures c != '(' && c != ')' && c != '|' ==> Scan([c] + rest, depth) == Scan(rest, depth)
    ensures c == '|' && depth > 0 ==> Scan([c] + rest, depth) == Scan(rest, depth)
    ensures c == '(' && (rest == "" || rest[0] != '?') ==> Scan([c] + rest, depth) == Scan(rest, depth + 1)
    ensures c == '(' && rest != "" && rest[0] == '?' ==> Scan([c] + rest, depth) == None
    ensures c == ')' && depth > 0 ==> Scan([c] + rest, depth) == Scan(rest, depth - 1)
  {
    var s := [c] + rest;
    assert s[1..] == rest;
    if c == '(' && rest != "" && rest[0] == '?' {
      assert s[..2] == "(?";
    }
  }

  /** Text that starts an escape, or an opening bracket that is no plain class, stops the scan. */
  lemma ScanRefuses(s: string, depth: nat)
    requires s != "" && (s[0] == '\\' || (s[0] == '[' && PlainClass(s) == 0) || "(?" <= s)
    ensures Scan(s, depth) == None
  {
  }

  /** Characters that mean nothing to the scan. */
  predicate Harmless(s: string) {
    forall c <- s :: c !in "\\[()|"
  }

  lemma {:induction false} ScanHarmless(text: string, rest: string, depth: nat)
    requires Harmless(text)
    ensures Scan(text + rest, depth) == Scan(rest, depth)
  {
    if text == "" {
      assert text + rest == rest;
    } else {
      assert text + rest == [text[0]] + (text[1..] + rest);
      assert text[0] in text;
      ScanStep(text[0], text[1..] + rest, depth);
      ScanHarmless(text[1..], rest, depth);
    }
  }

  // ----- the scan follows the tree -----

  predicate PlainItem(item: Item) {
    item.Repeat? && item.between == []
  }

  predicate PlainItems(items: Items) {
    match items
    case Done => true
    case Then(head, tail) => PlainItem(head) && PlainItems(tail)
  }

  /** A flag group stops the scan wherever it stands. */
  lemma ScanFlags(text: string, rest: string, depth: nat)
    ensures Scan("(?" + text + ")" + rest, depth) == None
  {
    var s := "(?" + text + ")" + rest;
    assert s[..2] == "(?";
    ScanRefuses(s, depth);
  }

  lemma ScanBetween(between: seq<string>, rest: string, depth: nat)
    requires Scan(PrintFlags(between) + rest, depth).Some?
    ensures between == [] && PrintFlags(between) + rest == rest
  {
    if between != [] {
      var text, more := between[0], PrintFlags(between[1..]);
      Associative("(?" + text + ")", more, rest);
      ScanFlags(text, more + rest, depth);
    }
  }

  lemma QuantifierHarmless(quantifier: Quantifier)
    requires WellFormedQuantifier(quantifier)
    ensures Harmless(quantifier.Print())
  {
  }

  lemma ScanClass(class_: Atom, rest: string, depth: nat)
    requires class_.Class? && WellFormedAtom(class_) && Scan(PrintAtom(class_) + rest, depth).Some?
    ensures Scan(PrintAtom(class_) + rest, depth) == Scan(rest, depth)
  {
    var s := PrintAtom(class_) + rest;
    assert s[0] == '[';
    if PlainClass(s) == 0 {
      ScanRefuses(s, depth);
    } else {
      ClassIsPlain(class_, rest);
      assert s[PlainClass(s)..] == rest;
    }
  }

  lemma GroupText(open: string, body: Branches, rest: string)
    ensures PrintAtom(Group(open, body)) + rest == "(" + (open + (PrintBranches(body) + (")" + rest)))
  {
  }

  lemma ScanOpens(open: string, body: Branches, rest: string, depth: nat)
    requires open == "" || open[0] == '?'
    requires Scan(PrintAtom(Group(open, body)) + rest, depth).Some?
    ensures Scan(PrintAtom(Group(open, body)) + rest, depth) == Scan(PrintBranches(body) + (")" + rest), depth + 1)
  {
    var inner := PrintBranches(body) + (")" + rest);
    GroupText(open, body, rest);
    ScanStep('(', open + inner, depth);
    assert open == "" ==> open + inner == inner;
  }

  lemma ScanAtom(atom: Atom, rest: string, depth: nat)
    requires WellFormedAtom(atom) && Scan(PrintAtom(atom) + rest, depth).Some?
    ensures Scan(PrintAtom(atom) + rest, depth) == Scan(rest, depth)
    decreases atom, 0
  {
    var s := PrintAtom(atom) + rest;
    match atom
    case Literal(c) =>
      ScanHarmless([c], rest, depth);
    case Dot =>
      ScanHarmless(".", rest, depth);
    case Begin =>
      ScanHarmless("^", rest, depth);
    case End =>
      ScanHarmless("$", rest, depth);
    case Escape(_) =>
      ScanRefuses(s, depth);
    case Class(_, _, _) =>
      ScanClass(atom, rest, depth);
    case Group(open, body) =>
      ScanOpens(open, body, rest, depth);
      ScanBranches(body, ")" + rest, depth + 1);
      ScanStep(')', rest, depth + 1);
  }

  lemma ScanItem(item: Item, rest: string, depth: nat)
    requires WellFormedItem(item) && Scan(PrintItem(item) + rest, depth).Some?
    ensures PlainItem(item) && Scan(PrintItem(item) + rest, depth) == Scan(rest, depth)
    decreases item
  {
    match item
    case Flags(text) =>
      ScanFlags(text, rest, depth);
    case Repeat(atom, between, quantifier) =>
      var a, f, q := PrintAtom(atom), PrintFlags(between), quantifier.Print();
      Associative(a, f, q + rest);
      Associative(a + f, q, rest);
      ScanAtom(atom, f + (q + rest), depth);
      ScanBetween(between, q + rest, depth);
      QuantifierHarmless(quantifier);
      ScanHarmless(q, rest, depth);
  }

  lemma ScanItems(items: Items, rest: string, depth: nat)
    requires WellFormedItems(items) && Scan(PrintItems(items) + rest, depth).Some?
    ensures PlainItems(items) && Scan(PrintItems(items) + rest, depth) == Scan(rest, depth)
    decreases items
  {
    match items
    case Done =>
      assert PrintItems(items) + rest == rest;
    case Then(head, tail) =>
      Associative(PrintItem(head), PrintItems(tail), rest);
      ScanItem(head, PrintItems(tail) + rest, depth);
      ScanItems(tail, rest, depth);
  }

  /** At the top level the scan gets past a tree only if the tree is a single branch. */
  lemma ScanBranches(branches: Branches, rest: string, depth: nat)
    requires WellFormedBranches(branches) && Scan(PrintBranches(branches) + rest, depth).Some?
    ensures Scan(PrintBranches(branches) + rest, depth) == Scan(rest, depth)
    ensures depth == 0 ==> branches.Only? && PlainItems(branches.items)
    decreases branches
  {
    match branches
    case Only(items) =>
      ScanItems(items, rest, depth);
    case Bar(items, more) =>
      var tail := PrintBranches(more) + rest;
      Associative(PrintItems(items), "|", PrintBranches(more));
      Associative(PrintItems(items), "|" + PrintBranches(more), rest);
      Associative("|", PrintBranches(more), rest);
      ScanItems(items, ['|'] + tail, depth);
      ScanStep('|', tail, depth);
      ScanBranches(more, rest, depth);
  }

  /**
   What the alternation check promises: however RE2 may read the body, it reads one branch, of
   atoms whose quantifiers follow them directly.
   */
  lemma AlternationFreeMeansOneBranch(body: string, tree: Branches)
    requires AlternationFree(body) && Reads(tree, body)
    ensures tree.Only? && PlainItems(tree.items)
  {
    OneBranchCloses(WithoutPlainClasses(body), 0);
    FlatScan(body, 0);
    assert PrintBranches(tree) + "" == body;
    ScanBranches(tree, "", 0);
  }

  // ----- what every match must start with -----

  /** Plain items written as `text` and then something that is no quantifier begin with those characters. */
  ghost predicate StartsWithLiterals(items: Items, text: string)
    decreases |text|
  {
    text == "" ||
    (items.Then? && items.head == Repeat(Literal(text[0]), [], Once) && StartsWithLiterals(items.tail, text[1..]))
  }

  lemma PrintAtomFirst(atom: Atom, c: char)
    requires WellFormedAtom(atom) && PrintAtom(atom) != "" && PrintAtom(atom)[0] == c
    ensures IsPathCharacter(c) ==> atom == Literal(c)
    ensures c == '^' ==> atom == Begin
  {
  }

  lemma PrintAtomNonempty(atom: Atom)
    ensures PrintAtom(atom) != ""
  {
  }

  /** A quantifier would show up right after its atom. */
  lemma NoQuantifierSeen(quantifier: Quantifier, rest: string)
    requires !StartsWithQuantifier(quantifier.Print() + rest)
    ensures quantifier == Once && quantifier.Print() + rest == rest
  {
    assert "" + rest == rest;
  }

  /** The item behind the first character of a pattern, when the next character is no quantifier. */
  lemma FirstItem(items: Items, c: char, after: string)
    requires WellFormedItems(items) && PlainItems(items)
    requires PrintItems(items) == [c] + after
    requires IsPathCharacter(c) || c == '^'
    requires !StartsWithQuantifier(after)
    ensures items.Then? && items.head == Repeat(if c == '^' then Begin else Literal(c), [], Once)
    ensures PrintItems(items.tail) == after
  {
    var head, tail := items.head, items.tail;
    var atom, q := head.atom, head.quantifier.Print();
    PrintAtomNonempty(atom);
    assert PrintFlags(head.between) == "";
    assert PrintItem(head) == PrintAtom(atom) + q;
    Associative(PrintAtom(atom), q, PrintItems(tail));
    assert PrintItems(items)[0] == PrintAtom(atom)[0] == c;
    PrintAtomFirst(atom, c);
    assert PrintItems(items) == [c] + (q + PrintItems(tail));
    assert ([c] + after)[1..] == after && ([c] + (q + PrintItems(tail)))[1..] == q + PrintItems(tail);
    NoQuantifierSeen(head.quantifier, PrintItems(tail));
  }

  lemma {:induction false} LiteralItems(items: Items, text: string, more: string)
    requires WellFormedItems(items) && PlainItems(items)
    requires PrintItems(items) == text + more
    requires forall c <- text :: IsPathCharacter(c)
    requires text != "" ==> !StartsWithQuantifier(more)
    ensures StartsWithLiterals(items, text)
    decreases |text|
  {
    if text != "" {
      var after := text[1..] + more;
      assert text + more == [text[0]] + after;
      assert text[0] in text;
      if |text| > 1 {
        assert after[0] == text[1] && text[1] in text;
      } else {
        assert after == more;
      }
      FirstItem(items, text[0], after);
      LiteralItems(items.tail, text[1..], more);
    }
  }

  lemma MatchOnce(o: Oracle, atom: Atom, s: string, i: nat, j: nat)
    requires i <= j <= |s| && MatchItem(o, Repeat(atom, [], Once), "", s, i, j)
    ensures MatchAtom(o, atom, "", s, i, j)
  {
    assert MatchTimes(o, atom, 1, "", s, i, j);
    var k :| i <= k <= j && MatchAtom(o, atom, "", s, i, k) && MatchTimes(o, atom, 0, "", s, k, j);
  }

  lemma {:induction false} MatchesStartWith(o: Oracle, items: Items, text: string, s: string, i: nat, j: nat)
    requires StartsWithLiterals(items, text)
    requires i <= j <= |s| && MatchItems(o, items, "", s, i, j)
    ensures text <= s[i..]
    decreases |text|
  {
    if text != "" {
      var k :| i <= k <= j && MatchItem(o, items.head, "", s, i, k)
               && MatchItems(o, items.tail, FlagsAfterItem(o, items.head, ""), s, k, j);
      MatchOnce(o, items.head.atom, s, i, k);
      MatchesStartWith(o, items.tail, text[1..], s, k, j);
      assert s[i..] == [text[0]] + s[k..];
      assert text == [text[0]] + text[1..];
    }
  }

  lemma HarmlessFront(front: string, body: string, tree: Branches)
    requires Harmless(front) && AlternationFree(body) && Reads(tree, front + body)
    ensures tree.Only? && PlainItems(tree.items)
  {
    OneBranchCloses(WithoutPlainClasses(body), 0);
    FlatScan(body, 0);
    ScanHarmless(front, body, 0);
    assert PrintBranches(tree) + "" == front + body;
    ScanBranches(tree, "", 0);
  }

  lemma PatternFront(pattern: string)
    requires pattern != "" && pattern[0] == '^' && RequiredText(pattern) != ""
    ensures Harmless(pattern[..|pattern| - |BodyOf(pattern)|])
    ensures pattern[..|pattern| - |BodyOf(pattern)|] + BodyOf(pattern) == pattern
    ensures !StartsWithQuantifier(pattern[1..])
  {
    var n := LiteralRun(pattern[1..]);
    assert forall k | 0 <= k < n :: pattern[..1 + n][k + 1] == pattern[1..][k];
    assert n > 0 && IsPathCharacter(pattern[1..][0]);
  }

  /** An accepted pattern has one branch: `^`, then the literal as plain characters, then the body. */
  lemma AcceptedShape(tree: Branches, pattern: string)
    requires RegexpDisjoint(pattern) && Reads(tree, pattern)
    ensures tree.Only? && WellFormedItems(tree.items) && PlainItems(tree.items)
    ensures tree.items.Then? && tree.items.head == Repeat(Begin, [], Once)
    ensures PrintItems(tree.items.tail) == pattern[1..]
  {
    PatternFront(pattern);
    HarmlessFront(pattern[..|pattern| - |BodyOf(pattern)|], BodyOf(pattern), tree);
    assert pattern == ['^'] + pattern[1..];
    FirstItem(tree.items, '^', pattern[1..]);
  }

  /** The length of the required text: the literal run, less one before a quantifier. */
  function RequiredLength(rest: string): (m: nat)
    ensures m <= LiteralRun(rest)
  {
    var n := LiteralRun(rest);
    if StartsWithQuantifier(rest[n..]) && n > 0 then n - 1 else n
  }

  lemma RequiredTextIs(pattern: string)
    requires pattern != "" && pattern[0] == '^'
    ensures var rest := pattern[1..]; var m := RequiredLength(rest);
      RequiredText(pattern) == rest[..m] && pattern[1 + m..] == rest[m..]
  {
    var rest := pattern[1..];
    assert pattern[1 + LiteralRun(rest)..] == rest[LiteralRun(rest)..];
  }

  lemma NoQuantifierAfter(rest: string)
    requires RequiredLength(rest) > 0
    ensures !StartsWithQuantifier(rest[RequiredLength(rest)..])
  {
    var n, m := LiteralRun(rest), RequiredLength(rest);
    assert m < n ==> rest[m..][0] == rest[m] && IsPathCharacter(rest[m]);
  }

  lemma RequiredTextSplit(pattern: string)
    requires pattern != "" && pattern[0] == '^' && RequiredText(pattern) != ""
    ensures var text := RequiredText(pattern);
      && |text| < |pattern| && pattern[1..] == text + pattern[1 + |text|..]
      && (forall c <- text :: IsPathCharacter(c))
      && !StartsWithQuantifier(pattern[1 + |text|..])
  {
    var rest := pattern[1..];
    RequiredTextIs(pattern);
    NoQuantifierAfter(rest);
    assert forall k | 0 <= k < RequiredLength(rest) :: rest[..RequiredLength(rest)][k] == rest[k];
  }

  lemma RequiredItems(items: Items, pattern: string)
    requires RegexpDisjoint(pattern)
    requires WellFormedItems(items) && PlainItems(items) && PrintItems(items) == pattern[1..]
    ensures StartsWithLiterals(items, RequiredText(pattern))
  {
    RequiredTextSplit(pattern);
    LiteralItems(items, RequiredText(pattern), pattern[1 + |RequiredText(pattern)|..]);
  }

  lemma AnchoredMatch(o: Oracle, items: Items, text: string, s: string, i: nat, j: nat)
    requires items.Then? && items.head == Repeat(Begin, [], Once) && StartsWithLiterals(items.tail, text)
    requires i <= j <= |s| && MatchItems(o, items, "", s, i, j)
    ensures text <= s
  {
    var k :| i <= k <= j && MatchItem(o, items.head, "", s, i, k)
             && MatchItems(o, items.tail, FlagsAfterItem(o, items.head, ""), s, k, j);
    MatchOnce(o, Begin, s, i, k);
    MatchesStartWith(o, items.tail, text, s, k, j);
    assert s[0..] == s;
  }

  /** Every match of a pattern the prover accepts begins at the start of the path, with the required text. */
  lemma MatchesBeginWithRequiredText(o: Oracle, tree: Branches, pattern: string, s: string)
    requires RegexpDisjoint(pattern) && Reads(tree, pattern) && Found(o, tree, s)
    ensures RequiredText(pattern) <= s
  {
    AcceptedShape(tree, pattern);
    RequiredItems(tree.items.tail, pattern);
    var i: nat, j: nat :| i <= j <= |s| && MatchBranches(o, tree, "", s, i, j);
    AnchoredMatch(o, tree.items, RequiredText(pattern), s, i, j);
  }

  lemma NotBothPrefixes(a: string, b: string, s: string)
    requires !Compatible(a, b) && b <= s
    ensures !(a <= s)
  {
  }

  /** The prover is right: what it accepts matches no path under the prefix, however RE2 reads it. */
  lemma RegexpDisjointIsSound(o: Oracle, pattern: string, path: string)
    requires RegexpDisjoint(pattern) && PREFIX <= path
    ensures !PatternFound(o, pattern, path)
  {
    NotBothPrefixes(RequiredText(pattern), PREFIX, path);
    forall tree: Branches | Reads(tree, pattern)
      ensures !Found(o, tree, path)
    {
      if Found(o, tree, path) {
        MatchesBeginWithRequiredText(o, tree, pattern, path);
      }
    }
  }

  // ----- on plain anchored literals the prover is also complete -----

  ghost function LiteralTree(text: string): Items {
    if text == "" then Done else Then(Repeat(Literal(text[0]), [], Once), LiteralTree(text[1..]))
  }

  lemma {:induction false} LiteralTreeReads(text: string)
    requires forall c <- text :: IsPathCharacter(c)
    ensures WellFormedItems(LiteralTree(text)) && PrintItems(LiteralTree(text)) == text
  {
    if text != "" {
      assert text[0] in text;
      LiteralTreeReads(text[1..]);
      assert PrintAtom(Literal(text[0])) + "" + "" == [text[0]];
    }
  }

  lemma SingleAtomMatches(o: Oracle, atom: Atom, s: string, i: nat, j: nat)
    requires i <= j <= |s| && MatchAtom(o, atom, "", s, i, j)
    ensures MatchItem(o, Repeat(atom, [], Once), "", s, i, j)
  {
    assert MatchTimes(o, atom, 0, "", s, j, j);
    assert MatchTimes(o, atom, 1, "", s, i, j);
    assert Once.Allows(1);
  }

  lemma {:induction false} LiteralTreeMatches(o: Oracle, text: string, s: string, i: nat)
    requires i + |text| <= |s| && s[i..i + |text|] == text
    ensures MatchItems(o, LiteralTree(text), "", s, i, i + |text|)
    decreases |text|
  {
    if text != "" {
      assert s[i] == s[i..i + |text|][0] == text[0];
      SingleAtomMatches(o, Literal(text[0]), s, i, i + 1);
      assert s[i + 1..i + 1 + |text[1..]|] == s[i..i + |text|][1..];
      LiteralTreeMatches(o, text[1..], s, i + 1);
    }
  }

  lemma AnchoredTreeReads(text: string)
    requires forall c <- text :: IsPathCharacter(c)
    ensures Reads(Only(Then(Repeat(Begin, [], Once), LiteralTree(text))), "^" + text)
  {
    LiteralTreeReads(text);
    var head := Repeat(Begin, [], Once);
    assert PrintItem(head) == "^";
    assert WellFormedItem(head);
    var items := Then(head, LiteralTree(text));
    assert PrintItems(items) == "^" + text;
    assert WellFormedItems(items);
  }

  lemma AnchoredLiteralFound(o: Oracle, text: string, path: string)
    requires text <= path && forall c <- text :: IsPathCharacter(c)
    ensures PatternFound(o, "^" + text, path)
  {
    var tree := Only(Then(Repeat(Begin, [], Once), LiteralTree(text)));
    AnchoredTreeReads(text);
    SingleAtomMatches(o, Begin, path, 0, 0);
    assert path[0..0 + |text|] == text;
    LiteralTreeMatches(o, text, path, 0);
    assert MatchBranches(o, tree, "", path, 0, |text|);
    assert Found(o, tree, path);
  }

  lemma LiteralPatternVerdict(text: string)
    requires forall c <- text :: IsPathCharacter(c)
    ensures RegexpDisjoint("^" + text) <==> text != "" && !Compatible(text, PREFIX)
  {
    var pattern := "^" + text;
    assert pattern[1..] == text;
    assert forall k | 0 <= k < |text| :: IsPathCharacter(text[k]);
    assert LiteralRun(text) == |text|;
    assert BodyOf(pattern) == "" && RequiredText(pattern) == text;
    assert WithoutPlainClasses("") == "" && DepthAt("", 0) == 0;
    assert AlternationFree("");
  }

  /** `^literal` is accepted exactly when no path under the prefix can match it. */
  lemma ExactOnLiterals(o: Oracle, text: string)
    requires forall c <- text :: IsPathCharacter(c)
    ensures RegexpDisjoint("^" + text) <==> forall path | PREFIX <= path :: !PatternFound(o, "^" + text, path)
  {
    LiteralPatternVerdict(text);
    if RegexpDisjoint("^" + text) {
      forall path | PREFIX <= path
        ensures !PatternFound(o, "^" + text, path)
      {
        RegexpDisjointIsSound(o, "^" + text, path);
      }
    } else if text <= PREFIX {
      AnchoredLiteralFound(o, text, PREFIX);
    } else {
      AnchoredLiteralFound(o, text, text);
    }
  }
}
