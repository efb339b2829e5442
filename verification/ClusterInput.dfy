/** The collector's line files: what nodes offer, and what pods on them already hold. */
module ClusterInput {
  import opened Text
  import opened QuantityText
  import opened Preflight
  import opened CapacityRun

  // ----- positional fields -----

  function Fields(text: string, separator: char): (parts: seq<string>)
    ensures |parts| > 0
    decreases |text|
  {
    var k := Find(text, 0, separator);
    if k == |text| then [text] else [text[..k]] + Fields(text[k + 1..], separator)
  }

  function Joined(parts: seq<string>, separator: char): string
    requires |parts| > 0
  {
    if |parts| == 1 then parts[0] else parts[0] + [separator] + Joined(parts[1..], separator)
  }

  lemma {:induction false} FirstAt(part: string, rest: string, separator: char, i: nat)
    requires separator !in part && (rest != "" ==> rest[0] == separator) && i <= |part|
    ensures Find(part + rest, i, separator) == |part|
    decreases |part| - i
  {
    if i < |part| {
      assert (part + rest)[i] == part[i] && part[i] in part;
      FirstAt(part, rest, separator, i + 1);
    }
  }

  lemma FieldsStep(part: string, rest: string, separator: char)
    requires separator !in part
    ensures Fields(part + ([separator] + rest), separator) == [part] + Fields(rest, separator)
  {
    var text := part + ([separator] + rest);
    FirstAt(part, [separator] + rest, separator, 0);
    assert text[..|part|] == part && text[|part| + 1..] == rest;
  }

  lemma OneField(part: string, separator: char)
    requires separator !in part
    ensures Fields(part, separator) == [part]
  {
    FirstAt(part, "", separator, 0);
    assert part + "" == part;
  }

  /** Splitting on the single separator gives every position back, the empty ones too. */
  lemma {:induction false} FieldsOfJoined(parts: seq<string>, separator: char)
    requires |parts| > 0 && forall part <- parts :: separator !in part
    ensures Fields(Joined(parts, separator), separator) == parts
    decreases |parts|
  {
    if |parts| == 1 {
      OneField(parts[0], separator);
    } else {
      FieldsOfJoined(parts[1..], separator);
      FieldsStep(parts[0], Joined(parts[1..], separator), separator);
      assert parts[0] + [separator] + Joined(parts[1..], separator) == parts[0] + ([separator] + Joined(parts[1..], separator));
    }
  }

  // ----- pods -----

  datatype Amounts = Amounts(cpu: nat, memory: nat, storage: nat) {
    function Plus(other: Amounts): Amounts {
      Amounts(cpu + other.cpu, memory + other.memory, storage + other.storage)
    }
  }

  const NOTHING := Amounts(0, 0, 0)
  const POD_PHASES := {"Pending", "Running", "Succeeded", "Failed", "Unknown"}
  const TERMINAL_PHASES := {"Succeeded", "Failed"}

  /** Bound to a node and not finished. */
  predicate CountsAgainstCapacity(phase: string, node: string) {
    Strip(node) != "" && Strip(phase) !in TERMINAL_PHASES
  }

  function PodRecord(line: string, fields: nat): Option<seq<string>> {
    var parts := Fields(line, '|');
    if |parts| != fields || Strip(parts[0]) !in POD_PHASES then None else Some(parts)
  }

  function OptionalAmount(text: string, d: Dimension): Option<nat> {
    if Strip(text) == "" then Some(0) else if d == Cpu then ParseCpu(text) else ParseMemory(text)
  }

  function AllThree(cpu: Option<nat>, memory: Option<nat>, storage: Option<nat>): Option<Amounts> {
    if cpu.Some? && memory.Some? && storage.Some? then Some(Amounts(cpu.value, memory.value, storage.value)) else None
  }

  function RequestQuantities(text: string): Option<Amounts> {
    var fields := Fields(text, ' ');
    if |fields| > 3 then None
    else
      var padded := fields + ["", "", ""];
      AllThree(OptionalAmount(padded[0], Cpu), OptionalAmount(padded[1], Memory), OptionalAmount(padded[2], Storage))
  }

  /** What one line of the request file commits; None where it breaks the contract. */
  function Committed(line: string): Option<Amounts> {
    if Strip(line) == "" then Some(NOTHING)
    else
      var record :- PodRecord(line, 3);
      var amounts :- RequestQuantities(record[2]);
      Some(if CountsAgainstCapacity(record[0], record[1]) then amounts else NOTHING)
  }

  /** The sum, or None where one of the items is missing. */
  function Sum<T>(zero: T, plus: (T, T) -> T, items: seq<Option<T>>): Option<T> {
    if items == [] then Some(zero)
    else
      var before, last := Sum(zero, plus, items[..|items| - 1]), items[|items| - 1];
      if before.Some? && last.Some? then Some(plus(before.value, last.value)) else None
  }

  function Mapped<A, B>(f: A -> B, s: seq<A>): (r: seq<B>)
    ensures |r| == |s|
  {
    seq(|s|, i requires 0 <= i < |s| => f(s[i]))
  }

  lemma MappedJoin<A, B>(f: A -> B, a: seq<A>, b: seq<A>)
    ensures Mapped(f, a + b) == Mapped(f, a) + Mapped(f, b)
  {
  }

  lemma {:induction false} BrokenBreaksAll<T>(zero: T, plus: (T, T) -> T, items: seq<Option<T>>, i: nat)
    requires i < |items| && items[i].None?
    ensures Sum(zero, plus, items).None?
    decreases |items|
  {
    if i < |items| - 1 {
      BrokenBreaksAll(zero, plus, items[..|items| - 1], i);
    }
  }

  lemma OneMoreItem<T>(zero: T, plus: (T, T) -> T, items: seq<Option<T>>, i: nat)
    requires i < |items| && Sum(zero, plus, items[..i]).Some? && items[i].Some?
    ensures Sum(zero, plus, items[..i + 1]) == Some(plus(Sum(zero, plus, items[..i]).value, items[i].value))
  {
    assert items[..i + 1][..i] == items[..i];
  }

  lemma {:induction false} SumsAddUp<T>(zero: T, plus: (T, T) -> T, a: seq<Option<T>>, b: seq<Option<T>>)
    requires forall x, y, z :: plus(plus(x, y), z) == plus(x, plus(y, z))
    requires forall x :: plus(x, zero) == x
    ensures Sum(zero, plus, a + b) ==
      if Sum(zero, plus, a).Some? && Sum(zero, plus, b).Some? then Some(plus(Sum(zero, plus, a).value, Sum(zero, plus, b).value))
      else None
    decreases |b|
  {
    if b == [] {
      assert a + b == a;
    } else {
      assert (a + b)[..|a + b| - 1] == a + b[..|b| - 1];
      SumsAddUp(zero, plus, a, b[..|b| - 1]);
    }
  }

  function PlusAmounts(a: Amounts, b: Amounts): Amounts {
    a.Plus(b)
  }

  function SumAmounts(amounts: seq<Option<Amounts>>): Option<Amounts> {
    Sum(NOTHING, PlusAmounts, amounts)
  }

  /** What a whole file commits; None where one of its lines breaks the contract. */
  function CommittedBy(lines: seq<string>): Option<Amounts> {
    SumAmounts(Mapped(Committed, lines))
  }

  /** A line is read, and refused if need be, before it is known whether its pod counts. */
  method ReadRequestLine(line: string) returns (r: Option<Amounts>)
    ensures r == Committed(line)
  {
    if Strip(line) == "" {
      return Some(NOTHING);
    }
    var record := PodRecord(line, 3);
    if record.None? {
      return None;
    }
    var amounts := RequestQuantities(record.value[2]);
    if amounts.None? || CountsAgainstCapacity(record.value[0], record.value[1]) {
      return amounts;
    }
    return Some(NOTHING);
  }

  method SumScheduledPodRequests(lines: seq<string>) returns (r: Option<Amounts>)
    ensures r == CommittedBy(lines)
  {
    ghost var amounts := Mapped(Committed, lines);
    var sum := NOTHING;
    for i := 0 to |lines|
      invariant SumAmounts(amounts[..i]) == Some(sum)
    {
      var line := ReadRequestLine(lines[i]);
      assert line == amounts[i];
      if line.None? {
        BrokenBreaksAll(NOTHING, PlusAmounts, amounts, i);
        return None;
      }
      OneMoreItem(NOTHING, PlusAmounts, amounts, i);
      sum := sum.Plus(line.value);
    }
    assert amounts[..|lines|] == amounts;
    return Some(sum);
  }

  /**
   Files add up, in whatever order their lines come: two together commit what the one and the other
   commit, and one broken line in either breaks both.
   */
  lemma FilesAddUp(a: seq<string>, b: seq<string>)
    ensures CommittedBy(a + b)
         == if CommittedBy(a).Some? && CommittedBy(b).Some? then Some(CommittedBy(a).value.Plus(CommittedBy(b).value)) else None
    ensures CommittedBy(a + b) == CommittedBy(b + a)
  {
    MappedJoin(Committed, a, b);
    MappedJoin(Committed, b, a);
    SumsAddUp(NOTHING, PlusAmounts, Mapped(Committed, a), Mapped(Committed, b));
    SumsAddUp(NOTHING, PlusAmounts, Mapped(Committed, b), Mapped(Committed, a));
  }

  /** Pod slots taken: one for each pod that is bound and not finished. */
  function TakenBy(line: string): Option<nat> {
    if Strip(line) == "" then Some(0)
    else
      var record :- PodRecord(line, 2);
      Some(if CountsAgainstCapacity(record[0], record[1]) then 1 else 0)
  }

  function PlusCount(a: nat, b: nat): nat {
    a + b
  }

  function Taken(lines: seq<string>): Option<nat> {
    Sum(0, PlusCount, Mapped(TakenBy, lines))
  }

  method CountScheduledPods(lines: seq<string>) returns (r: Option<nat>)
    ensures r == Taken(lines)
  {
    ghost var counts := Mapped(TakenBy, lines);
    var taken: nat := 0;
    for i := 0 to |lines|
      invariant Sum(0, PlusCount, counts[..i]) == Some(taken)
    {
      var line := TakenBy(lines[i]);
      assert counts[i] == line;
      if line.None? {
        BrokenBreaksAll(0, PlusCount, counts, i);
        return None;
      }
      OneMoreItem(0, PlusCount, counts, i);
      taken := taken + line.value;
    }
    assert counts[..|lines|] == counts;
    return Some(taken);
  }

  /** A container as the collector reports it; a request it does not make is empty. */
  datatype Container = Container(phase: string, node: string, cpu: string, memory: string, storage: string) {
    predicate Valid() {
      && Strip(phase) in POD_PHASES && '|' !in phase && '|' !in node
      && forall text <- [cpu, memory, storage] :: '|' !in text && ' ' !in text
    }

    function Requests(): string {
      Joined([cpu, memory, storage], ' ')
    }

    function Line(): string {
      Joined([phase, node, Requests()], '|')
    }
  }

  lemma {:induction false} JoinedAvoids(parts: seq<string>, separator: char, c: char)
    requires |parts| > 0 && c != separator && forall part <- parts :: c !in part
    ensures c !in Joined(parts, separator)
    decreases |parts|
  {
    if |parts| > 1 {
      JoinedAvoids(parts[1..], separator, c);
    }
  }

  lemma {:induction false} BlankIsNothing(s: string)
    requires forall k {:trigger IsSpace(s[k])} | 0 <= k < |s| :: IsSpace(s[k])
    ensures Strip(s) == ""
    decreases |s|
  {
    if s != "" {
      BlankIsNothing(s[1..]);
    }
  }

  /** What is there after stripping is there in the line. */
  lemma VisiblePart(line: string, part: string)
    requires part <= line && Strip(part) != ""
    ensures Strip(line) != ""
  {
    if forall k {:trigger IsSpace(part[k])} | 0 <= k < |part| :: IsSpace(part[k]) {
      BlankIsNothing(part);
    } else {
      var k :| 0 <= k < |part| && !IsSpace(part[k]);
      assert line[k] == part[k];
      VisibleLine(line, k);
    }
  }

  lemma {:induction false} VisibleLine(line: string, k: nat)
    requires k < |line| && !IsSpace(line[k])
    ensures Strip(line) != ""
  {
    FrontKeepsVisible(line, k);
    var front := StripFront(line, IsSpace);
    BackKeepsVisible(front);
  }

  lemma {:induction false} FrontKeepsVisible(s: string, k: nat)
    requires k < |s| && !IsSpace(s[k])
    ensures StripFront(s, IsSpace) != "" && !IsSpace(StripFront(s, IsSpace)[0])
    decreases |s|
  {
    if IsSpace(s[0]) {
      FrontKeepsVisible(s[1..], k - 1);
    }
  }

  lemma {:induction false} BackKeepsVisible(s: string)
    requires s != "" && !IsSpace(s[0])
    ensures StripBack(s, IsSpace) != ""
    decreases |s|
  {
    if IsSpace(s[|s| - 1]) {
      BackKeepsVisible(s[..|s| - 1]);
    }
  }

  /** Each request is read from its own position, whether or not its neighbours are there. */
  lemma RequestsMeanContainer(c: Container)
    requires c.Valid()
    ensures '|' !in c.Requests()
    ensures RequestQuantities(c.Requests())
         == AllThree(OptionalAmount(c.cpu, Cpu), OptionalAmount(c.memory, Memory), OptionalAmount(c.storage, Storage))
  {
    var requests := [c.cpu, c.memory, c.storage];
    assert forall part <- requests :: '|' !in part && ' ' !in part;
    JoinedAvoids(requests, ' ', '|');
    FieldsOfJoined(requests, ' ');
  }

  /**
   A line means the container it was written for, and that holds its requests exactly if the pod is
   bound to a node and not finished.
   */
  lemma LineMeansContainer(c: Container)
    requires c.Valid()
    ensures var amounts := AllThree(OptionalAmount(c.cpu, Cpu), OptionalAmount(c.memory, Memory), OptionalAmount(c.storage, Storage));
      Committed(c.Line()) ==
      if amounts.None? then None
      else if Strip(c.node) != "" && Strip(c.phase) !in TERMINAL_PHASES then amounts
      else Some(NOTHING)
  {
    RequestsMeanContainer(c);
    FieldsOfJoined([c.phase, c.node, c.Requests()], '|');
    LineIsVisible(c);
  }

  lemma LineIsVisible(c: Container)
    requires c.Valid()
    ensures Strip(c.Line()) != ""
  {
    assert c.phase <= c.Line();
    VisiblePart(c.Line(), c.phase);
  }

  /** What a container holds of the nodes; None for a request that is no quantity. */
  function HeldOf(c: Container): Option<Amounts> {
    var amounts :- AllThree(OptionalAmount(c.cpu, Cpu), OptionalAmount(c.memory, Memory), OptionalAmount(c.storage, Storage));
    Some(if Strip(c.node) != "" && Strip(c.phase) !in TERMINAL_PHASES then amounts else NOTHING)
  }

  lemma LineHolds(c: Container)
    requires c.Valid()
    ensures Committed(c.Line()) == HeldOf(c)
  {
    LineMeansContainer(c);
  }

  lemma MappedTwice<A, B, C>(f: A -> B, g: B -> C, h: A -> C, s: seq<A>)
    requires forall x <- s :: g(f(x)) == h(x)
    ensures Mapped(g, Mapped(f, s)) == Mapped(h, s)
  {
  }

  function LineOf(c: Container): string {
    c.Line()
  }

  /** A file of the collector commits what its containers hold. */
  lemma FileMeansContainers(cs: seq<Container>)
    requires forall c <- cs :: c.Valid()
    ensures CommittedBy(Mapped(LineOf, cs)) == SumAmounts(Mapped(HeldOf, cs))
  {
    forall c <- cs
      ensures Committed(LineOf(c)) == HeldOf(c)
    {
      LineHolds(c);
    }
    MappedTwice(LineOf, Committed, HeldOf, cs);
  }

  // ----- nodes -----

  /** The four positions of a node; those at the end may be left out. */
  function NodeRecord(line: string): Option<seq<string>> {
    var fields := Fields(line, ' ');
    if !(2 <= |fields| <= 4) || Strip(fields[0]) == "" || Strip(fields[1]) == "" then None
    else Some((fields + ["", ""])[..4])
  }

  /** Every position of a node's line is read as such, an empty one too; those at the end may be left out. */
  lemma NodeLineMeans(parts: seq<string>)
    requires 2 <= |parts| <= 4 && (forall part <- parts :: ' ' !in part) && Strip(parts[0]) != "" && Strip(parts[1]) != ""
    ensures NodeRecord(Joined(parts, ' ')) == Some((parts + ["", ""])[..4])
  {
    FieldsOfJoined(parts, ' ');
  }

  /** What one node offers; its storage is None where it reports none. */
  datatype Offer = Offer(cpu: nat, memory: nat, storage: Option<nat>)

  const NO_OFFER := Offer(0, 0, Some(0))

  /** From its quantities; storage is None where the position is empty. */
  function OfferFrom(cpu: Option<nat>, memory: Option<nat>, storage: Option<Option<nat>>): Option<Offer> {
    if cpu.None? || memory.None? || storage == Some(None) then None
    else Some(Offer(cpu.value, memory.value, if storage.Some? then storage.value else None))
  }

  function OfferOf(line: string): Option<Offer> {
    if Strip(line) == "" then Some(NO_OFFER)
    else
      var record :- NodeRecord(line);
      OfferFrom(ParseCpu(record[0]), ParseMemory(record[1]), if Strip(record[2]) == "" then None else Some(ParseMemory(record[2])))
  }

  /** One node without the figure makes the sum of storage unknown. */
  function PlusOffer(a: Offer, b: Offer): Offer {
    Offer(a.cpu + b.cpu, a.memory + b.memory,
          if a.storage.Some? && b.storage.Some? then Some(a.storage.value + b.storage.value) else None)
  }

  function OfferedBy(lines: seq<string>): Option<Offer> {
    Sum(NO_OFFER, PlusOffer, Mapped(OfferOf, lines))
  }

  method ReadNodeLine(line: string) returns (r: Option<Offer>)
    ensures r == OfferOf(line)
  {
    if Strip(line) == "" {
      return Some(NO_OFFER);
    }
    var record := NodeRecord(line);
    if record.None? {
      return None;
    }
    var cpu, memory := ParseCpu(record.value[0]), ParseMemory(record.value[1]);
    var storage := if Strip(record.value[2]) == "" then None else Some(ParseMemory(record.value[2]));
    return OfferFrom(cpu, memory, storage);
  }

  method SumNodeAllocatable(lines: seq<string>) returns (r: Option<Offer>)
    ensures r == OfferedBy(lines)
  {
    ghost var offers := Mapped(OfferOf, lines);
    var sum := NO_OFFER;
    for i := 0 to |lines|
      invariant Sum(NO_OFFER, PlusOffer, offers[..i]) == Some(sum)
    {
      var offer := ReadNodeLine(lines[i]);
      assert offers[i] == offer;
      if offer.None? {
        BrokenBreaksAll(NO_OFFER, PlusOffer, offers, i);
        return None;
      }
      OneMoreItem(NO_OFFER, PlusOffer, offers, i);
      sum := PlusOffer(sum, offer.value);
    }
    assert offers[..|lines|] == offers;
    return Some(sum);
  }

  datatype Slots = Broken | Unreported | Offered(pods: nat)

  /** What one line says of pod slots; an empty line adds none. */
  function SlotsOf(line: string): Slots {
    if Strip(line) == "" then Offered(0)
    else
      var record := NodeRecord(line);
      if record.None? then Broken
      else
        var pods := Strip(record.value[3]);
        if pods == "" then Unreported else if !AllDigits(pods) then Broken else Offered(Number(pods))
  }

  /** What the scan makes of its lines: it stops at the first that is broken or reports nothing. */
  function Scan(lines: seq<Slots>, total: nat): Slots {
    if lines == [] then (if total == 0 then Unreported else Offered(total))
    else if lines[0].Offered? then Scan(lines[1..], total + lines[0].pods)
    else lines[0]
  }

  method SumNodePodSlots(lines: seq<string>) returns (r: Slots)
    ensures r == Scan(Mapped(SlotsOf, lines), 0)
  {
    ghost var all := Mapped(SlotsOf, lines);
    var total: nat := 0;
    assert all[0..] == all;
    for i := 0 to |lines|
      invariant Scan(all, 0) == Scan(all[i..], total)
    {
      var slots := SlotsOf(lines[i]);
      assert slots == all[i] && all[i..][1..] == all[i + 1..];
      if !slots.Offered? {
        return slots;
      }
      total := total + slots.pods;
    }
    return if total == 0 then Unreported else Offered(total);
  }

  /** The first line that does not offer a number of slots. */
  predicate StopsAt(lines: seq<Slots>, i: nat) {
    i < |lines| && !lines[i].Offered? && forall j | 0 <= j < i :: lines[j].Offered?
  }

  /**
   A file is refused exactly if a broken line comes before every node that reports no slots: the scan
   gives up at whichever is first, so behind a node without the figure a broken one passes unread.
   */
  lemma {:induction false} RefusedExactly(lines: seq<Slots>, total: nat)
    ensures Scan(lines, total) == Broken <==> exists i: nat :: StopsAt(lines, i) && lines[i] == Broken
    decreases |lines|
  {
    if lines != [] {
      if !lines[0].Offered? {
        assert StopsAt(lines, 0);
      } else {
        RefusedExactly(lines[1..], total + lines[0].pods);
        forall i: nat | StopsAt(lines[1..], i)
          ensures StopsAt(lines, i + 1) && lines[i + 1] == lines[1..][i]
        {
        }
        forall i: nat | StopsAt(lines, i)
          ensures i > 0 && StopsAt(lines[1..], i - 1) && lines[i] == lines[1..][i - 1]
        {
        }
      }
    }
  }

  function Capacity(lines: seq<Slots>): nat {
    if lines == [] then 0 else (if lines[0].Offered? then lines[0].pods else 0) + Capacity(lines[1..])
  }

  /** The total is known exactly if every node offers a number, and some node offers a slot. */
  lemma {:induction false} KnownExactly(lines: seq<Slots>, total: nat)
    ensures Scan(lines, total).Offered? <==> (forall line <- lines :: line.Offered?) && total + Capacity(lines) > 0
    ensures Scan(lines, total).Offered? ==> Scan(lines, total).pods == total + Capacity(lines)
    decreases |lines|
  {
    if lines != [] && lines[0].Offered? {
      KnownExactly(lines[1..], total + lines[0].pods);
      assert (forall line <- lines :: line.Offered?) <==> (forall line <- lines[1..] :: line.Offered?) by {
        assert forall line <- lines :: line == lines[0] || line in lines[1..];
      }
    }
  }
}
