/**
 The regular expressions Traefik compiles with Go's RE2 engine: concrete syntax trees, the
 text each tree is written as, and what each tree matches.

 The trees are generous on purpose. Escapes carry any text, classes hold any items, flag
 groups may stand anywhere (also between an atom and its quantifier, where RE2 applies the
 quantifier to the atom before the group). A pattern may therefore have several trees; RE2's
 own reading is one of them, so what holds of every tree holds of RE2.
 */
module RegexpSyntax {
  import opened Text

  datatype ClassItem =
    | One(c: char)
    | ClassEscape(rest: string)
    | Posix(name: string)

  datatype Quantifier =
    | Once
    | Star(lazy: bool)
    | Plus(lazy: bool)
    | Maybe(lazy: bool)
    | Counted(text: string, least: nat, most: Option<nat>, lazy: bool)
  {
    predicate Allows(n: nat) {
      match this
      case Once => n == 1
      case Star(_) => true
      case Plus(_) => n >= 1
      case Maybe(_) => n <= 1
      case Counted(_, least, most, _) => least <= n && (most.Some? ==> n <= most.value)
    }

    function Print(): string {
      match this
      case Once => ""
      case Star(lazy) => "*" + Lazy(lazy)
      case Plus(lazy) => "+" + Lazy(lazy)
      case Maybe(lazy) => "?" + Lazy(lazy)
      case Counted(text, _, _, lazy) => "{" + text + "}" + Lazy(lazy)
    }
  }

  function Lazy(lazy: bool): string {
    if lazy then "?" else ""
  }

  datatype Atom =
    | Literal(c: char)
    | Dot
    | Begin
    | End
    | Class(negated: bool, bracketFirst: bool, items: seq<ClassItem>)
    | Escape(rest: string)
    | Group(open: string, body: Branches)

  datatype Item =
    | Repeat(atom: Atom, between: seq<string>, quantifier: Quantifier)
    | Flags(text: string)

  datatype Items = Done | Then(head: Item, tail: Items)

  datatype Branches = Only(items: Items) | Bar(items: Items, rest: Branches)

  const META := "\\.+*?()|[^$"

  // ----- how a tree is written -----

  function PrintClassItem(item: ClassItem): string {
    match item
    case One(c) => [c]
    case ClassEscape(rest) => "\\" + rest
    case Posix(name) => "[:" + name + ":]"
  }

  function PrintClassItems(items: seq<ClassItem>): string {
    if items == [] then "" else PrintClassItem(items[0]) + PrintClassItems(items[1..])
  }

  function PrintFlags(texts: seq<string>): string {
    if texts == [] then "" else "(?" + texts[0] + ")" + PrintFlags(texts[1..])
  }

  function PrintAtom(atom: Atom): string {
    match atom
    case Literal(c) => [c]
    case Dot => "."
    case Begin => "^"
    case End => "$"
    case Class(negated, bracketFirst, items) =>
      "[" + (if negated then "^" else "") + (if bracketFirst then "]" else "") + PrintClassItems(items) + "]"
    case Escape(rest) => "\\" + rest
    case Group(open, body) => "(" + open + PrintBranches(body) + ")"
  }

  function PrintItem(item: Item): string {
    match item
    case Repeat(atom, between, quantifier) => PrintAtom(atom) + PrintFlags(between) + quantifier.Print()
    case Flags(text) => "(?" + text + ")"
  }

  function PrintItems(items: Items): string {
    match items
    case Done => ""
    case Then(head, tail) => PrintItem(head) + PrintItems(tail)
  }

  function PrintBranches(branches: Branches): string {
    match branches
    case Only(items) => PrintItems(items)
    case Bar(items, rest) => PrintItems(items) + "|" + PrintBranches(rest)
  }

  // ----- which trees are trees of RE2 -----

  predicate WellFormedClassItem(item: ClassItem) {
    item.One? ==> item.c != ']' && item.c != '\\'
  }

  predicate WellFormedAtom(atom: Atom) {
    match atom
    case Literal(c) => c !in META
    case Class(_, _, items) => forall item <- items :: WellFormedClassItem(item)
    case Group(open, body) => (open == "" || open[0] == '?') && WellFormedBranches(body)
    case _ => true
  }

  predicate WellFormedQuantifier(quantifier: Quantifier) {
    quantifier.Counted? ==> forall c <- quantifier.text :: IsDigit(c) || c == ','
  }

  predicate WellFormedItem(item: Item) {
    item.Repeat? ==> WellFormedAtom(item.atom) && WellFormedQuantifier(item.quantifier)
  }

  predicate WellFormedItems(items: Items) {
    match items
    case Done => true
    case Then(head, tail) => WellFormedItem(head) && WellFormedItems(tail)
  }

  predicate WellFormedBranches(branches: Branches) {
    match branches
    case Only(items) => WellFormedItems(items)
    case Bar(items, rest) => WellFormedItems(items) && WellFormedBranches(rest)
  }

  // ----- what a tree matches -----

  /**
   What the trees leave open: what an escape, a class, or anything read under flags matches,
   and which flags a flag text leaves in force. Nothing is assumed about either.
   */
  datatype Oracle = Oracle(
    atom: (Atom, string, string, nat, nat) -> bool,
    flags: (string, string) -> string)

  ghost function FlagsAfter(o: Oracle, flags: string, texts: seq<string>): string
    decreases texts
  {
    if texts == [] then flags else FlagsAfter(o, o.flags(flags, texts[0]), texts[1..])
  }

  /** `atom`, read under `flags`, matches `s[i..j]`. */
  ghost predicate MatchAtom(o: Oracle, atom: Atom, flags: string, s: string, i: nat, j: nat)
    requires i <= j <= |s|
    decreases atom, 0
  {
    match atom
    case Group(open, body) =>
      MatchBranches(o, body, if open == "" then flags else o.flags(flags, open), s, i, j)
    case Literal(c) => if flags == "" then j == i + 1 && s[i] == c else o.atom(atom, flags, s, i, j)
    case Begin => if flags == "" then i == j == 0 else o.atom(atom, flags, s, i, j)
    case End => if flags == "" then i == j == |s| else o.atom(atom, flags, s, i, j)
    case _ => o.atom(atom, flags, s, i, j)
  }

  ghost predicate MatchTimes(o: Oracle, atom: Atom, n: nat, flags: string, s: string, i: nat, j: nat)
    requires i <= j <= |s|
    decreases atom, 1, n
  {
    if n == 0 then i == j
    else exists k | i <= k <= j ::
           MatchAtom(o, atom, flags, s, i, k) && MatchTimes(o, atom, n - 1, flags, s, k, j)
  }

  ghost predicate MatchItem(o: Oracle, item: Item, flags: string, s: string, i: nat, j: nat)
    requires i <= j <= |s|
    decreases item
  {
    match item
    case Flags(_) => i == j
    case Repeat(atom, _, quantifier) =>
      exists n: nat | quantifier.Allows(n) :: MatchTimes(o, atom, n, flags, s, i, j)
  }

  ghost function FlagsAfterItem(o: Oracle, item: Item, flags: string): string {
    match item
    case Flags(text) => o.flags(flags, text)
    case Repeat(_, between, _) => FlagsAfter(o, flags, between)
  }

  /** Flags set inside a group stay in force up to its end, across a `|` too. */
  ghost function FlagsAfterItems(o: Oracle, items: Items, flags: string): string {
    match items
    case Done => flags
    case Then(head, tail) => FlagsAfterItems(o, tail, FlagsAfterItem(o, head, flags))
  }

  ghost predicate MatchItems(o: Oracle, items: Items, flags: string, s: string, i: nat, j: nat)
    requires i <= j <= |s|
    decreases items
  {
    match items
    case Done => i == j
    case Then(head, tail) =>
      exists k | i <= k <= j ::
        MatchItem(o, head, flags, s, i, k) && MatchItems(o, tail, FlagsAfterItem(o, head, flags), s, k, j)
  }

  ghost predicate MatchBranches(o: Oracle, branches: Branches, flags: string, s: string, i: nat, j: nat)
    requires i <= j <= |s|
    decreases branches
  {
    match branches
    case Only(items) => MatchItems(o, items, flags, s, i, j)
    case Bar(items, rest) =>
      MatchItems(o, items, flags, s, i, j) || MatchBranches(o, rest, FlagsAfterItems(o, items, flags), s, i, j)
  }

  /** The tree matches somewhere in `s`, as an unanchored search does. */
  ghost predicate Found(o: Oracle, tree: Branches, s: string) {
    exists i: nat, j: nat | i <= j <= |s| :: MatchBranches(o, tree, "", s, i, j)
  }

  /** `tree` is one way of reading `pattern`. */
  ghost predicate Reads(tree: Branches, pattern: string) {
    WellFormedBranches(tree) && PrintBranches(tree) == pattern
  }

  /** Some reading of `pattern` matches somewhere in `s`. */
  ghost predicate PatternFound(o: Oracle, pattern: string, s: string) {
    exists tree: Branches | Reads(tree, pattern) :: Found(o, tree, s)
  }
}
