/**
 The indentation-scoped manifest reader, on the lines kustomize prints: two spaces a level, one key a
 line, sequences level with their key.
 */
module ManifestReader {
  import opened Text

  // ----- the reader -----

  predicate IsPad(c: char) {
    c == ' '
  }

  function Indent(line: string): int {
    |line| - |StripFront(line, IsPad)|
  }

  /** The line is `key:` at exactly this depth. */
  predicate IsKey(line: string, depth: nat, key: string) {
    Indent(line) == depth && Strip(line) == key + ":"
  }

  /** Whether a line still belongs to a block opened at `depth`. */
  predicate Inside(line: string, depth: nat) {
    || Strip(line) == ""
    || Indent(line) > depth
    || (Indent(line) == depth && Strip(line)[0] == '-')
  }

  function KeyIndex(lines: seq<string>, depth: nat, key: string): (r: Option<nat>)
    ensures r.Some? ==> r.value < |lines|
  {
    if lines == [] then None
    else if IsKey(lines[0], depth, key) then Some(0)
    else
      var r := KeyIndex(lines[1..], depth, key);
      if r.Some? then Some(r.value + 1) else None
  }

  /** How many lines from the first on are inside the block. */
  function Extent(lines: seq<string>, depth: nat): (n: nat)
    ensures n <= |lines|
  {
    if lines == [] || !Inside(lines[0], depth) then 0 else 1 + Extent(lines[1..], depth)
  }

  function BlockFrom(lines: seq<string>, depth: nat, path: seq<string>): seq<string>
    decreases |path|
  {
    if path == [] then lines
    else
      var start := KeyIndex(lines, depth, path[0]);
      if start.None? then []
      else
        var rest := lines[start.value + 1..];
        BlockFrom(rest[..Extent(rest, depth)], depth + 2, path[1..])
  }

  method FindKey(lines: seq<string>, depth: nat, key: string) returns (r: Option<nat>)
    ensures r == KeyIndex(lines, depth, key)
  {
    for position := 0 to |lines|
      invariant KeyIndex(lines, depth, key) ==
                var r := KeyIndex(lines[position..], depth, key);
                if r.Some? then Some(r.value + position) else None
    {
      if IsKey(lines[position], depth, key) {
        return Some(position);
      }
      assert lines[position..][1..] == lines[position + 1..];
    }
    return None;
  }

  method BlockEnd(lines: seq<string>, start: nat, depth: nat) returns (end: nat)
    requires start <= |lines|
    ensures end == start + Extent(lines[start..], depth)
  {
    end := start;
    while end < |lines| && Inside(lines[end], depth)
      invariant start <= end <= |lines|
      invariant Extent(lines[start..], depth) == end - start + Extent(lines[end..], depth)
    {
      assert lines[end..][1..] == lines[end + 1..];
      end := end + 1;
    }
  }

  lemma OneKeyDown(lines: seq<string>, depth: nat, path: seq<string>, k: nat, start: nat, end: nat)
    requires k < |path| && KeyIndex(lines, depth, path[k]) == Some(start)
    requires end == start + 1 + Extent(lines[start + 1..], depth)
    ensures BlockFrom(lines, depth, path[k..]) == BlockFrom(lines[start + 1..end], depth + 2, path[k + 1..])
  {
    var rest := lines[start + 1..];
    assert lines[start + 1..end] == rest[..Extent(rest, depth)];
    assert path[k..][0] == path[k] && path[k..][1..] == path[k + 1..];
  }

  class Document {
    const lines: seq<string>

    constructor (lines: seq<string>)
      ensures this.lines == lines
    {
      this.lines := lines;
    }

    /** The lines strictly inside a nested mapping, by key path. */
    method Block(path: seq<string>) returns (inside: seq<string>)
      ensures inside == BlockFrom(lines, 0, path)
    {
      inside := lines;
      var depth := 0;
      for k := 0 to |path|
        invariant depth == 2 * k
        invariant BlockFrom(inside, depth, path[k..]) == BlockFrom(lines, 0, path)
      {
        var start := FindKey(inside, depth, path[k]);
        if start.None? {
          return [];
        }
        var end := BlockEnd(inside, start.value + 1, depth);
        OneKeyDown(inside, depth, path, k, start.value, end);
        inside := inside[start.value + 1..end];
        depth := depth + 2;
      }
    }
  }

  // ----- the printer -----

  datatype Node =
    | Scalar(text: string)
    | Literal(body: seq<string>)
    | Mapping(entries: seq<Entry>)
    | Sequence(items: seq<Node>)

  datatype Entry = Entry(key: string, value: Node)

  function Pad(n: nat): string {
    if n == 0 then "" else [' '] + Pad(n - 1)
  }

  function Indented(body: seq<string>, depth: nat): seq<string> {
    if body == [] then [] else [if body[0] == "" then "" else Pad(depth) + body[0]] + Indented(body[1..], depth)
  }

  function MappingLines(entries: seq<Entry>, depth: nat): seq<string> {
    if entries == [] then [] else EntryLines(entries[0], depth) + MappingLines(entries[1..], depth)
  }

  function EntryLines(e: Entry, depth: nat): seq<string> {
    [Pad(depth) + e.key + ":" + Rest(e.value)] + Below(e.value, depth)
  }

  /** What stands behind the key, on its line. */
  function Rest(value: Node): string {
    match value
    case Scalar(text) => " " + text
    case Literal(_) => " |"
    case Mapping(entries) => if entries == [] then " {}" else ""
    case Sequence(items) => if items == [] then " []" else ""
  }

  /** The lines below the key's. */
  function Below(value: Node, depth: nat): seq<string> {
    match value
    case Scalar(_) => []
    case Literal(body) => Indented(body, depth + 2)
    case Mapping(entries) => MappingLines(entries, depth + 2)
    case Sequence(items) => SequenceLines(items, depth)
  }

  function SequenceLines(items: seq<Node>, depth: nat): seq<string> {
    if items == [] then [] else ItemLines(items[0], depth) + SequenceLines(items[1..], depth)
  }

  function ItemLines(item: Node, depth: nat): seq<string> {
    match item
    case Scalar(text) => [Pad(depth) + "- " + text]
    case Literal(body) => [Pad(depth) + "- |"] + Indented(body, depth + 2)
    case Mapping(entries) =>
      if entries == [] then [Pad(depth) + "- {}"] else Hung(MappingLines(entries, depth + 2), depth)
    case Sequence(items) =>
      if items == [] then [Pad(depth) + "- []"] else Hung(SequenceLines(items, depth + 2), depth)
  }

  /** The dash takes the place of the last two spaces before the first line. */
  function Hung(lines: seq<string>, depth: nat): seq<string> {
    if lines == [] then [] else [Pad(depth) + "- " + if |lines[0]| >= depth + 2 then lines[0][depth + 2..] else ""] + lines[1..]
  }
}
