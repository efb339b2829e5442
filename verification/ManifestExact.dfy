/** On what kustomize prints, the reader returns exactly the printed lines of the subtree asked for. */
module ManifestExact {
  import opened Text
  import opened ManifestReader

  // ----- lines -----

  lemma {:induction false} PadIsStripped(n: nat, rest: string, drop: char -> bool)
    requires drop(' ')
    ensures StripFront(Pad(n) + rest, drop) == StripFront(rest, drop)
  {
    if n > 0 {
      var line := Pad(n) + rest;
      assert line[0] == ' ' && line[1..] == Pad(n - 1) + rest;
      PadIsStripped(n - 1, rest, drop);
    } else {
      assert Pad(0) + rest == rest;
    }
  }

  lemma {:induction false} PadLength(n: nat)
    ensures |Pad(n)| == n
  {
    if n > 0 {
      PadLength(n - 1);
    }
  }

  lemma {:induction false} StripFrontShortens(s: string, drop: char -> bool)
    ensures |StripFront(s, drop)| <= |s|
    decreases |s|
  {
    if s != "" && drop(s[0]) {
      StripFrontShortens(s[1..], drop);
    }
  }

  lemma {:induction false} StripBackKeepsHead(s: string, drop: char -> bool)
    requires s != "" && !drop(s[0])
    ensures StripBack(s, drop) != "" && StripBack(s, drop)[0] == s[0]
    decreases |s|
  {
    if drop(s[|s| - 1]) {
      StripBackKeepsHead(s[..|s| - 1], drop);
    }
  }

  /** A padded line is at least as deep as its padding. */
  lemma PaddedIsDeep(n: nat, rest: string)
    ensures Indent(Pad(n) + rest) >= n
  {
    PadIsStripped(n, rest, IsPad);
    PadLength(n);
    StripFrontShortens(rest, IsPad);
  }

  /** A padded line that goes on with a visible character is just as deep as its padding. */
  lemma PaddedIndent(n: nat, rest: string)
    requires rest != "" && !IsSpace(rest[0])
    ensures Indent(Pad(n) + rest) == n
    ensures Strip(Pad(n) + rest) == StripBack(rest, IsSpace)
    ensures Strip(Pad(n) + rest) != "" && Strip(Pad(n) + rest)[0] == rest[0]
  {
    PadIsStripped(n, rest, IsPad);
    PadIsStripped(n, rest, IsSpace);
    PadLength(n);
    StripBackKeepsHead(rest, IsSpace);
  }

  // ----- how deep the printed lines are -----

  predicate Deep(line: string, depth: nat) {
    Strip(line) == "" || Indent(line) >= depth
  }

  /** Deep, and a visible line at just this depth is a list item. */
  predicate Hangs(line: string, depth: nat) {
    Strip(line) == "" || Indent(line) > depth || (Indent(line) == depth && Strip(line)[0] == '-')
  }

  predicate AllDeep(lines: seq<string>, depth: nat) {
    forall line <- lines :: Deep(line, depth)
  }

  predicate AllHang(lines: seq<string>, depth: nat) {
    forall line <- lines :: Hangs(line, depth)
  }

  lemma {:induction false} IndentedIsDeep(body: seq<string>, depth: nat)
    ensures AllDeep(Indented(body, depth), depth)
    decreases |body|
  {
    if body != [] {
      IndentedIsDeep(body[1..], depth);
      PaddedIsDeep(depth, body[0]);
    }
  }

  lemma DashHangs(depth: nat, rest: string)
    ensures Hangs(Pad(depth) + "- " + rest, depth)
  {
    assert Pad(depth) + "- " + rest == Pad(depth) + ("- " + rest);
    PaddedIndent(depth, "- " + rest);
  }

  lemma HungHangs(lines: seq<string>, depth: nat)
    requires AllDeep(lines, depth + 2)
    ensures AllHang(Hung(lines, depth), depth)
  {
    if lines != [] {
      DashHangs(depth, if |lines[0]| >= depth + 2 then lines[0][depth + 2..] else "");
      forall line <- Hung(lines, depth)
        ensures Hangs(line, depth)
      {
        assert line == Hung(lines, depth)[0] || line in lines;
      }
    }
  }

  lemma HangsIsDeep(lines: seq<string>, depth: nat)
    requires AllHang(lines, depth)
    ensures AllDeep(lines, depth)
  {
  }

  lemma {:induction false} MappingIsDeep(entries: seq<Entry>, depth: nat)
    ensures AllDeep(MappingLines(entries, depth), depth)
    decreases entries
  {
    if entries != [] {
      EntryIsDeep(entries[0], depth);
      MappingIsDeep(entries[1..], depth);
    }
  }

  lemma {:induction false} EntryIsDeep(e: Entry, depth: nat)
    ensures AllDeep(EntryLines(e, depth), depth)
    decreases e
  {
    assert Pad(depth) + e.key + ":" + Rest(e.value) == Pad(depth) + (e.key + ":" + Rest(e.value));
    PaddedIsDeep(depth, e.key + ":" + Rest(e.value));
    BelowIsInside(e.value, depth);
  }

  /** What stands below a key belongs to its block. */
  lemma {:induction false} BelowIsInside(value: Node, depth: nat)
    ensures AllHang(Below(value, depth), depth)
    decreases value
  {
    match value
    case Scalar(_) =>
    case Literal(body) => IndentedIsDeep(body, depth + 2);
    case Mapping(entries) => MappingIsDeep(entries, depth + 2);
    case Sequence(items) => SequenceHangs(items, depth);
  }

  lemma {:induction false} SequenceHangs(items: seq<Node>, depth: nat)
    ensures AllHang(SequenceLines(items, depth), depth)
    decreases items
  {
    if items != [] {
      ItemHangs(items[0], depth);
      SequenceHangs(items[1..], depth);
    }
  }

  lemma {:induction false} ItemHangs(item: Node, depth: nat)
    ensures AllHang(ItemLines(item, depth), depth)
    decreases item
  {
    match item
    case Scalar(text) => DashHangs(depth, text);
    case Literal(body) =>
      DashHangs(depth, "|");
      assert Pad(depth) + "- |" == Pad(depth) + "- " + "|";
      IndentedIsDeep(body, depth + 2);
    case Mapping(entries) =>
      DashHangs(depth, "{}");
      assert Pad(depth) + "- {}" == Pad(depth) + "- " + "{}";
      MappingIsDeep(entries, depth + 2);
      HungHangs(MappingLines(entries, depth + 2), depth);
    case Sequence(inner) =>
      DashHangs(depth, "[]");
      assert Pad(depth) + "- []" == Pad(depth) + "- " + "[]";
      SequenceHangs(inner, depth + 2);
      HangsIsDeep(SequenceLines(inner, depth + 2), depth + 2);
      HungHangs(SequenceLines(inner, depth + 2), depth);
  }

  // ----- keys -----

  /** A key that needs no quotes. */
  predicate PlainKey(key: string) {
    && key != "" && !IsSpace(key[0]) && key[0] != '-'
    && forall i | 0 <= i < |key| - 1 :: !(key[i] == ':' && key[i + 1] == ' ')
  }

  /** Scalars are not empty and end in something visible, as the printer writes them. */
  predicate PlainValue(value: Node) {
    value.Scalar? ==> value.text != "" && !IsSpace(value.text[|value.text| - 1])
  }

  /** Keys are plain and no mapping holds one twice. */
  predicate WellFormed(entries: seq<Entry>) {
    && (forall e <- entries :: PlainKey(e.key) && PlainValue(e.value) && WellFormedNode(e.value))
    && forall i, j | 0 <= i < j < |entries| :: entries[i].key != entries[j].key
  }

  predicate WellFormedNode(value: Node) {
    value.Mapping? ==> WellFormed(value.entries)
  }

  /** The value has its lines below the key. */
  predicate Opens(value: Node) {
    (value.Mapping? && value.entries != []) || (value.Sequence? && value.items != [])
  }

  function Head(e: Entry, depth: nat): string {
    Pad(depth) + e.key + ":" + Rest(e.value)
  }

  lemma HeadIsVisible(e: Entry, depth: nat)
    requires PlainKey(e.key) && PlainValue(e.value)
    ensures Indent(Head(e, depth)) == depth
    ensures Strip(Head(e, depth)) == e.key + ":" + Rest(e.value)
    ensures !Inside(Head(e, depth), depth)
  {
    var rest := e.key + ":" + Rest(e.value);
    assert Head(e, depth) == Pad(depth) + rest;
    assert rest[0] == e.key[0];
    PaddedIndent(depth, rest);
    assert rest[|rest| - 1] == (if Rest(e.value) == "" then ':' else Rest(e.value)[|Rest(e.value)| - 1]);
  }

  /** The head of an entry is found under its own key, and only if the entry opens a block. */
  lemma HeadIsKey(e: Entry, depth: nat, key: string)
    requires PlainKey(e.key) && PlainValue(e.value) && PlainKey(key)
    ensures IsKey(Head(e, depth), depth, key) <==> e.key == key && Opens(e.value)
  {
    HeadIsVisible(e, depth);
    var line, rest := e.key + ":" + Rest(e.value), Rest(e.value);
    if rest == "" {
      assert line == e.key + ":";
      assert (e.key + ":")[..|e.key|] == e.key && (key + ":")[..|key|] == key;
    } else {
      NoGap(key);
      assert rest[0] == ' ' && |rest| >= 2;
      assert line[|e.key|] == ':' && line[|e.key| + 1] == ' ';
    }
  }

  lemma NoGap(key: string)
    requires PlainKey(key)
    ensures forall i | 0 <= i < |key| :: !((key + ":")[i] == ':' && (key + ":")[i + 1] == ' ')
  {
    forall i | 0 <= i < |key|
      ensures !((key + ":")[i] == ':' && (key + ":")[i + 1] == ' ')
    {
      assert i < |key| - 1 ==> !(key[i] == ':' && key[i + 1] == ' ');
    }
  }

  // ----- finding -----

  lemma {:induction false} SkipsLines(before: seq<string>, lines: seq<string>, depth: nat, key: string)
    requires forall line <- before :: !IsKey(line, depth, key)
    ensures KeyIndex(before + lines, depth, key)
         == var r := KeyIndex(lines, depth, key); if r.Some? then Some(r.value + |before|) else None
    decreases |before|
  {
    if before == [] {
      assert before + lines == lines;
    } else {
      assert (before + lines)[1..] == before[1..] + lines;
      SkipsLines(before[1..], lines, depth, key);
    }
  }

  lemma {:induction false} ExtentIs(inside: seq<string>, lines: seq<string>, depth: nat)
    requires (forall line <- inside :: Inside(line, depth)) && (lines != [] ==> !Inside(lines[0], depth))
    ensures Extent(inside + lines, depth) == |inside|
    decreases |inside|
  {
    if inside == [] {
      assert inside + lines == lines;
    } else {
      assert (inside + lines)[1..] == inside[1..] + lines;
      ExtentIs(inside[1..], lines, depth);
    }
  }

  lemma HangingIsNoKey(lines: seq<string>, depth: nat, key: string)
    requires AllHang(lines, depth) && PlainKey(key)
    ensures forall line <- lines :: !IsKey(line, depth, key) && Inside(line, depth)
  {
    forall line <- lines
      ensures !IsKey(line, depth, key) && Inside(line, depth)
    {
      assert Hangs(line, depth);
      assert (key + ":")[0] == key[0];
    }
  }

  lemma {:induction false} NextIsOutside(entries: seq<Entry>, depth: nat)
    requires WellFormed(entries) && MappingLines(entries, depth) != []
    ensures !Inside(MappingLines(entries, depth)[0], depth)
  {
    assert entries[0] in entries;
    HeadIsVisible(entries[0], depth);
    assert MappingLines(entries, depth)[0] == Head(entries[0], depth);
  }

  // ----- the inverse -----

  function Find(entries: seq<Entry>, key: string): Option<Node> {
    if entries == [] then None
    else if entries[0].key == key then Some(entries[0].value)
    else Find(entries[1..], key)
  }

  /** Every key of the path but the last leads to a mapping, or to nothing at all. */
  predicate ThroughMappings(entries: seq<Entry>, path: seq<string>)
    decreases |path|
  {
    path != [] ==>
      var found := Find(entries, path[0]);
      && PlainKey(path[0])
      && (found.Some? && found.value.Mapping? ==> ThroughMappings(found.value.entries, path[1..]))
      && (found.Some? && found.value.Sequence? ==> |path| == 1)
  }

  /** The printed lines of the subtree at the end of the path; nothing where no block is opened. */
  function Printed(entries: seq<Entry>, path: seq<string>, depth: nat): seq<string>
    decreases |path|
  {
    if path == [] then MappingLines(entries, depth)
    else match Find(entries, path[0])
      case Some(Mapping(inner)) => if inner == [] then [] else Printed(inner, path[1..], depth + 2)
      case Some(Sequence(items)) => SequenceLines(items, depth)
      case _ => []
  }

  lemma FirstEntry(entries: seq<Entry>, depth: nat)
    requires entries != []
    ensures MappingLines(entries, depth)
         == ([Head(entries[0], depth)] + Below(entries[0].value, depth)) + MappingLines(entries[1..], depth)
  {
  }

  /** The lines after the key's that belong to its block. */
  function TakenAt(lines: seq<string>, start: nat, depth: nat): seq<string>
    requires start < |lines|
  {
    lines[start + 1..][..Extent(lines[start + 1..], depth)]
  }

  lemma HitIsExact(head: string, below: seq<string>, tail: seq<string>, depth: nat, key: string)
    requires IsKey(head, depth, key)
    requires (forall line <- below :: Inside(line, depth)) && (tail != [] ==> !Inside(tail[0], depth))
    ensures var lines := ([head] + below) + tail;
      KeyIndex(lines, depth, key) == Some(0) && TakenAt(lines, 0, depth) == below
  {
    var lines := ([head] + below) + tail;
    assert lines[0] == head && lines[1..] == below + tail;
    ExtentIs(below, tail, depth);
  }

  lemma MissGoesOn(before: seq<string>, tail: seq<string>, depth: nat, key: string)
    requires forall line <- before :: !IsKey(line, depth, key)
    ensures var start, later := KeyIndex(tail, depth, key), KeyIndex(before + tail, depth, key);
      && (start.None? <==> later.None?)
      && (start.Some? ==> TakenAt(before + tail, later.value, depth) == TakenAt(tail, start.value, depth))
  {
    SkipsLines(before, tail, depth, key);
    var start := KeyIndex(tail, depth, key);
    if start.Some? {
      assert (before + tail)[start.value + |before| + 1..] == tail[start.value + 1..];
    }
  }

  /** One key of the path: the reader finds its entry and takes exactly the lines below it. */
  ghost predicate Taken(lines: seq<string>, depth: nat, key: string, found: Option<Node>) {
    var start := KeyIndex(lines, depth, key);
    if found.Some? && Opens(found.value) then start.Some? && TakenAt(lines, start.value, depth) == Below(found.value, depth)
    else start.None?
  }

  lemma {:induction false} OneKey(entries: seq<Entry>, depth: nat, key: string)
    requires WellFormed(entries) && PlainKey(key)
    ensures Taken(MappingLines(entries, depth), depth, key, Find(entries, key))
    decreases |entries|
  {
    if entries != [] {
      var e, tail := entries[0], MappingLines(entries[1..], depth);
      assert e in entries;
      FirstEntry(entries, depth);
      HeadIsKey(e, depth, key);
      BelowIsInside(e.value, depth);
      HangingIsNoKey(Below(e.value, depth), depth, key);
      if e.key == key && Opens(e.value) {
        if tail != [] {
          NextIsOutside(entries[1..], depth);
        }
        HitIsExact(Head(e, depth), Below(e.value, depth), tail, depth, key);
      } else {
        OneKey(entries[1..], depth, key);
        if e.key == key {
          NotAmong(entries[1..], key);
        }
        MissGoesOn([Head(e, depth)] + Below(e.value, depth), tail, depth, key);
      }
    }
  }

  lemma {:induction false} NotAmong(entries: seq<Entry>, key: string)
    requires forall e <- entries :: e.key != key
    ensures Find(entries, key).None?
    decreases |entries|
  {
    if entries != [] {
      NotAmong(entries[1..], key);
    }
  }

  lemma {:induction false} FoundIsWellFormed(entries: seq<Entry>, key: string)
    requires WellFormed(entries) && Find(entries, key).Some?
    ensures WellFormedNode(Find(entries, key).value)
    decreases |entries|
  {
    assert entries[0] in entries;
    if entries[0].key != key {
      FoundIsWellFormed(entries[1..], key);
    }
  }

  lemma OneKeyDown(lines: seq<string>, depth: nat, path: seq<string>)
    requires path != []
    ensures var start := KeyIndex(lines, depth, path[0]);
      BlockFrom(lines, depth, path) ==
      if start.None? then [] else BlockFrom(TakenAt(lines, start.value, depth), depth + 2, path[1..])
  {
  }

  lemma PrintedDown(entries: seq<Entry>, path: seq<string>, depth: nat)
    requires ThroughMappings(entries, path) && path != []
    ensures var found := Find(entries, path[0]);
      Printed(entries, path, depth) ==
      if found.None? || !Opens(found.value) then []
      else if found.value.Mapping? then Printed(found.value.entries, path[1..], depth + 2)
      else Below(found.value, depth)
    ensures var found := Find(entries, path[0]);
      && PlainKey(path[0])
      && (found.Some? && found.value.Mapping? ==> ThroughMappings(found.value.entries, path[1..]))
      && (found.Some? && found.value.Sequence? ==> |path| == 1)
  {
  }

  /**
   The reader inverts the printer: for every well-formed tree and every path through mapping keys, the
   block is the printed lines of that subtree, neither more nor less, sequences level with their key
   included; and it is empty where the path leads to no block.
   */
  lemma {:induction false} BlockIsExact(entries: seq<Entry>, path: seq<string>, depth: nat)
    requires WellFormed(entries) && ThroughMappings(entries, path)
    ensures BlockFrom(MappingLines(entries, depth), depth, path) == Printed(entries, path, depth)
    decreases |path|
  {
    if path != [] {
      PrintedDown(entries, path, depth);
      OneKey(entries, depth, path[0]);
      OneKeyDown(MappingLines(entries, depth), depth, path);
      var found := Find(entries, path[0]);
      if found.Some? && Opens(found.value) && found.value.Mapping? {
        FoundIsWellFormed(entries, path[0]);
        BlockIsExact(found.value.entries, path[1..], depth + 2);
      }
    }
  }
}
