/** What the probe rewrite's regular expression matches. */
module ProbePattern {
  import opened RegexpSyntax
  import opened RegexpProver
  import Gateway

  /** The characters of `text`, each once, and then `tail`. */
  ghost function Word(text: string, tail: Items): Items {
    if text == "" then tail else Then(Repeat(Literal(text[0]), [], Once), Word(text[1..], tail))
  }

  ghost function One(atom: Atom, tail: Items): Items {
    Then(Repeat(atom, [], Once), tail)
  }

  lemma {:induction false} WordReads(text: string, tail: Items)
    requires WellFormedItems(tail) && forall c <- text :: IsPathCharacter(c)
    ensures WellFormedItems(Word(text, tail)) && PrintItems(Word(text, tail)) == text + PrintItems(tail)
  {
    if text == "" {
      assert text + PrintItems(tail) == PrintItems(tail);
    } else {
      assert text[0] in text;
      WordReads(text[1..], tail);
      assert PrintItem(Repeat(Literal(text[0]), [], Once)) == [text[0]];
      assert text == [text[0]] + text[1..];
      Associative([text[0]], text[1..], PrintItems(tail));
    }
  }

  lemma OneReads(atom: Atom, tail: Items)
    requires WellFormedItems(tail) && WellFormedAtom(atom)
    ensures WellFormedItems(One(atom, tail)) && PrintItems(One(atom, tail)) == PrintAtom(atom) + PrintItems(tail)
  {
    assert PrintItem(Repeat(atom, [], Once)) == PrintAtom(atom);
  }

  lemma ItemMatches(o: Oracle, atom: Atom, s: string, i: nat, k: nat)
    requires i <= k <= |s|
    ensures MatchItem(o, Repeat(atom, [], Once), "", s, i, k) <==> MatchAtom(o, atom, "", s, i, k)
  {
    if MatchItem(o, Repeat(atom, [], Once), "", s, i, k) {
      MatchOnce(o, atom, s, i, k);
    }
    if MatchAtom(o, atom, "", s, i, k) {
      SingleAtomMatches(o, atom, s, i, k);
    }
  }

  lemma OneMatches(o: Oracle, atom: Atom, tail: Items, s: string, i: nat, j: nat)
    requires i <= j <= |s|
    ensures MatchItems(o, One(atom, tail), "", s, i, j)
      <==> exists k | i <= k <= j :: MatchAtom(o, atom, "", s, i, k) && MatchItems(o, tail, "", s, k, j)
  {
    if MatchItems(o, One(atom, tail), "", s, i, j) {
      var k := FirstMatches(o, One(atom, tail), s, i, j);
      ItemMatches(o, atom, s, i, k);
    }
    if k :| i <= k <= j && MatchAtom(o, atom, "", s, i, k) && MatchItems(o, tail, "", s, k, j) {
      ItemMatches(o, atom, s, i, k);
      assert FlagsAfterItem(o, Repeat(atom, [], Once), "") == "";
    }
  }

  lemma FirstMatches(o: Oracle, items: Items, s: string, i: nat, j: nat) returns (k: nat)
    requires i <= j <= |s| && items.Then? && items.head.Repeat? && items.head.between == []
    requires MatchItems(o, items, "", s, i, j)
    ensures i <= k <= j && MatchItem(o, items.head, "", s, i, k) && MatchItems(o, items.tail, "", s, k, j)
  {
    k :| i <= k <= j && MatchItem(o, items.head, "", s, i, k)
         && MatchItems(o, items.tail, FlagsAfterItem(o, items.head, ""), s, k, j);
  }

  /** `text` stands at `i`. */
  predicate StandsAt(s: string, i: nat, text: string) {
    i + |text| <= |s| && s[i..i + |text|] == text
  }

  lemma StandsOn(s: string, i: nat, text: string)
    requires text != ""
    ensures StandsAt(s, i, text) <==> i < |s| && s[i] == text[0] && StandsAt(s, i + 1, text[1..])
  {
    var n := i + |text|;
    assert text == [text[0]] + text[1..];
    assert i < |s| && n <= |s| ==> s[i..n] == [s[i]] + s[i + 1..n];
  }

  lemma {:induction false} WordMatches(o: Oracle, text: string, tail: Items, s: string, i: nat, j: nat)
    requires i <= j <= |s|
    ensures MatchItems(o, Word(text, tail), "", s, i, j)
      <==> StandsAt(s, i, text) && i + |text| <= j && MatchItems(o, tail, "", s, i + |text|, j)
    decreases |text|
  {
    if text != "" {
      var rest := Word(text[1..], tail);
      OneMatches(o, Literal(text[0]), rest, s, i, j);
      StandsOn(s, i, text);
      if i < j {
        WordMatches(o, text[1..], tail, s, i + 1, j);
      }
    } else {
      assert s[i..i] == "";
    }
  }

  // ----- a pattern of one lead and three words -----

  ghost function Words(a: string, b: string, c: string): Branches {
    Bar(Word(a, Done), Bar(Word(b, Done), Only(Word(c, Done))))
  }

  /** One of the words, and the end. */
  ghost function Ending(a: string, b: string, c: string): Items {
    One(Group("", Words(a, b, c)), One(End, Done))
  }

  ghost function Tree(lead: string, a: string, b: string, c: string): Branches {
    Only(One(Begin, Word(lead, Ending(a, b, c))))
  }

  predicate PathText(text: string) {
    forall c <- text :: IsPathCharacter(c)
  }

  lemma WordsRead(a: string, b: string, c: string)
    requires PathText(a) && PathText(b) && PathText(c)
    ensures WellFormedBranches(Words(a, b, c)) && PrintBranches(Words(a, b, c)) == a + "|" + (b + "|" + c)
  {
    WordReads(a, Done);
    WordReads(b, Done);
    WordReads(c, Done);
    assert a + "" == a && b + "" == b && c + "" == c;
    var last := Only(Word(c, Done));
    assert PrintBranches(last) == c;
    assert PrintBranches(Bar(Word(b, Done), last)) == b + "|" + c;
  }

  lemma EndingReads(a: string, b: string, c: string)
    requires PathText(a) && PathText(b) && PathText(c)
    ensures WellFormedItems(Ending(a, b, c)) && PrintItems(Ending(a, b, c)) == "(" + (a + "|" + (b + "|" + c)) + ")" + "$"
  {
    WordsRead(a, b, c);
    OneReads(End, Done);
    OneReads(Group("", Words(a, b, c)), One(End, Done));
    var words := a + "|" + (b + "|" + c);
    assert PrintItems(One(End, Done)) == "$";
    assert PrintAtom(Group("", Words(a, b, c))) == "(" + words + ")";
    assert PrintItems(Ending(a, b, c)) == PrintAtom(Group("", Words(a, b, c))) + PrintItems(One(End, Done));
  }

  lemma TreeReads(lead: string, a: string, b: string, c: string)
    requires PathText(lead) && PathText(a) && PathText(b) && PathText(c)
    ensures Reads(Tree(lead, a, b, c), "^" + (lead + ("(" + (a + "|" + (b + "|" + c)) + ")" + "$")))
  {
    EndingReads(a, b, c);
    WordReads(lead, Ending(a, b, c));
    OneReads(Begin, Word(lead, Ending(a, b, c)));
  }

  lemma WholeWord(o: Oracle, text: string, s: string, i: nat, j: nat)
    requires i <= j <= |s|
    ensures MatchItems(o, Word(text, Done), "", s, i, j) <==> s[i..j] == text
  {
    WordMatches(o, text, Done, s, i, j);
  }

  lemma {:induction false} FlagsStay(o: Oracle, text: string)
    ensures FlagsAfterItems(o, Word(text, Done), "") == ""
  {
    if text != "" {
      FlagsStay(o, text[1..]);
    }
  }

  lemma BarMatches(o: Oracle, word: string, rest: Branches, s: string, i: nat, j: nat)
    requires i <= j <= |s|
    ensures MatchBranches(o, Bar(Word(word, Done), rest), "", s, i, j)
      <==> s[i..j] == word || MatchBranches(o, rest, "", s, i, j)
  {
    WholeWord(o, word, s, i, j);
    FlagsStay(o, word);
  }

  lemma WordsMatch(o: Oracle, a: string, b: string, c: string, s: string, i: nat, j: nat)
    requires i <= j <= |s|
    ensures MatchAtom(o, Group("", Words(a, b, c)), "", s, i, j) <==> s[i..j] == a || s[i..j] == b || s[i..j] == c
  {
    var last := Only(Word(c, Done));
    BarMatches(o, a, Bar(Word(b, Done), last), s, i, j);
    BarMatches(o, b, last, s, i, j);
    WholeWord(o, c, s, i, j);
    assert MatchBranches(o, last, "", s, i, j) == MatchItems(o, Word(c, Done), "", s, i, j);
  }

  lemma EndMatches(o: Oracle, s: string, i: nat, j: nat)
    requires i <= j <= |s|
    ensures MatchItems(o, One(End, Done), "", s, i, j) <==> i == j == |s|
  {
    OneMatches(o, End, Done, s, i, j);
    if i == j == |s| {
      assert MatchAtom(o, End, "", s, i, i) && MatchItems(o, Done, "", s, i, j);
    }
  }

  lemma EndingMatches(o: Oracle, a: string, b: string, c: string, s: string, i: nat, j: nat)
    requires i <= j <= |s|
    ensures MatchItems(o, Ending(a, b, c), "", s, i, j) <==> j == |s| && (s[i..j] == a || s[i..j] == b || s[i..j] == c)
  {
    var group := Group("", Words(a, b, c));
    OneMatches(o, group, One(End, Done), s, i, j);
    WordsMatch(o, a, b, c, s, i, j);
    EndMatches(o, s, j, j);
    if k :| i <= k <= j && MatchAtom(o, group, "", s, i, k) && MatchItems(o, One(End, Done), "", s, k, j) {
      EndMatches(o, s, k, j);
    }
  }

  lemma BeginMatches(o: Oracle, tail: Items, s: string, i: nat, j: nat)
    requires i <= j <= |s|
    ensures MatchItems(o, One(Begin, tail), "", s, i, j) <==> i == 0 && MatchItems(o, tail, "", s, i, j)
  {
    OneMatches(o, Begin, tail, s, i, j);
    if i == 0 && MatchItems(o, tail, "", s, i, j) {
      assert MatchAtom(o, Begin, "", s, i, i);
    }
  }

  lemma TreeMatches(o: Oracle, lead: string, a: string, b: string, c: string, s: string, i: nat, j: nat)
    requires i <= j <= |s|
    ensures MatchBranches(o, Tree(lead, a, b, c), "", s, i, j)
      <==> i == 0 && j == |s| && (s == lead + a || s == lead + b || s == lead + c)
  {
    var n, ending := |lead|, Ending(a, b, c);
    BeginMatches(o, Word(lead, ending), s, i, j);
    WordMatches(o, lead, ending, s, i, j);
    if i == 0 && n <= j {
      EndingMatches(o, a, b, c, s, n, j);
      assert j == |s| ==> s == s[..n] + s[n..j];
    }
    SplitAt(s, lead, a);
    SplitAt(s, lead, b);
    SplitAt(s, lead, c);
  }

  lemma SplitAt(s: string, lead: string, word: string)
    ensures s == lead + word ==> |lead| <= |s| && s[..|lead|] == lead && s[|lead|..] == word
  {
  }

  // ----- the rewrite's pattern -----

  const LEAD := "/api/notifications/"

  ghost function ProbeTree(): Branches {
    Tree(LEAD, "healthz", "readyz", "version")
  }

  lemma WordsText()
    ensures "healthz" + "|" + ("readyz" + "|" + "version") == "healthz|readyz|version"
  {
  }

  lemma EndingText(words: string)
    requires words == "healthz|readyz|version"
    ensures "(" + words + ")" + "$" == "(healthz|readyz|version)$"
  {
    assert "(" + words == "(healthz|readyz|version";
    assert "(healthz|readyz|version" + ")" == "(healthz|readyz|version)";
  }

  lemma LeadText(ending: string)
    requires ending == "(healthz|readyz|version)$"
    ensures "^" + (LEAD + ending) == Gateway.PROBE_REGEX
  {
    assert "^" + LEAD == "^/api/notifications/";
    assert "^/api/notifications/" + "(healthz|readyz|version)$" == Gateway.PROBE_REGEX;
    Associative("^", LEAD, ending);
  }

  lemma PatternText()
    ensures "^" + (LEAD + ("(" + ("healthz" + "|" + ("readyz" + "|" + "version")) + ")" + "$")) == Gateway.PROBE_REGEX
  {
    var words := "healthz" + "|" + ("readyz" + "|" + "version");
    WordsText();
    EndingText(words);
    LeadText("(" + words + ")" + "$");
  }

  lemma PatternReads()
    ensures Reads(ProbeTree(), Gateway.PROBE_REGEX)
  {
    PatternText();
    TreeReads(LEAD, "healthz", "readyz", "version");
  }

  /** The pattern reads as a tree that is found in the three probe paths and in no other. */
  lemma PatternIsTheProbes(o: Oracle, path: string)
    ensures Reads(ProbeTree(), Gateway.PROBE_REGEX)
    ensures Found(o, ProbeTree(), path) <==> path == LEAD + "healthz" || path == LEAD + "readyz" || path == LEAD + "version"
  {
    PatternReads();
    FoundExactly(o, LEAD, "healthz", "readyz", "version", path);
  }

  lemma FoundExactly(o: Oracle, lead: string, a: string, b: string, c: string, s: string)
    ensures Found(o, Tree(lead, a, b, c), s) <==> s == lead + a || s == lead + b || s == lead + c
  {
    TreeMatches(o, lead, a, b, c, s, 0, |s|);
    if Found(o, Tree(lead, a, b, c), s) {
      var i: nat, j: nat :| i <= j <= |s| && MatchBranches(o, Tree(lead, a, b, c), "", s, i, j);
      TreeMatches(o, lead, a, b, c, s, i, j);
    }
  }
}
