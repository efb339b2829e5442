/** What the preflight compares with, told from the cluster's own records: nodes, containers and pods. */
module CapacityMeaning {
  import opened Text
  import opened QuantityText
  import opened Preflight
  import opened CapacityRun
  import opened ClusterInput
  import opened CapacityFiles

  // ----- the records, and the lines they are reported in -----

  predicate IsPhase(phase: string) {
    phase == "Pending" || phase == "Running" || phase == "Succeeded" || phase == "Failed" || phase == "Unknown"
  }

  /** Bound to a node and not finished. */
  predicate Holds(phase: string, node: string) {
    Strip(node) != "" && Strip(phase) != "Succeeded" && Strip(phase) != "Failed"
  }

  /** A node as the collector reports it; storage and pods are blank where it does not say. */
  datatype Node = Node(cpu: string, memory: string, storage: string, pods: string) {
    predicate Valid() {
      && Strip(cpu) != "" && Strip(memory) != ""
      && ' ' !in cpu && ' ' !in memory && ' ' !in storage && ' ' !in pods
    }
  }

  function NodeLine(n: Node): string {
    Joined([n.cpu, n.memory, n.storage, n.pods], ' ')
  }

  predicate ValidContainer(c: Container) {
    && IsPhase(Strip(c.phase)) && '|' !in c.phase && '|' !in c.node && '|' !in c.cpu && '|' !in c.memory && '|' !in c.storage
    && ' ' !in c.cpu && ' ' !in c.memory && ' ' !in c.storage
  }

  datatype Pod = Pod(phase: string, node: string) {
    predicate Valid() {
      IsPhase(Strip(phase)) && '|' !in phase && '|' !in node
    }
  }

  function PodLine(p: Pod): string {
    Joined([p.phase, p.node], '|')
  }

  // ----- what one record says -----

  function ValueOf(figure: Option<nat>): nat {
    if figure.Some? then figure.value else 0
  }

  function NodeCpu(n: Node): nat {
    ValueOf(ParseCpu(n.cpu))
  }

  function NodeMemory(n: Node): nat {
    ValueOf(ParseMemory(n.memory))
  }

  function NodeStorage(n: Node): nat {
    ValueOf(ParseMemory(n.storage))
  }

  predicate ReportsStorage(n: Node) {
    Strip(n.storage) != ""
  }

  predicate ReportsPods(n: Node) {
    Strip(n.pods) != ""
  }

  function NodePods(n: Node): nat {
    if AllDigits(Strip(n.pods)) then Number(Strip(n.pods)) else 0
  }

  /** A request that is left out asks for nothing. */
  function AmountOf(text: string, read: string -> Option<nat>): nat {
    if Strip(text) == "" then 0 else ValueOf(read(text))
  }

  predicate BlankOrRead(text: string, read: string -> Option<nat>) {
    Strip(text) == "" || read(text).Some?
  }

  function CpuRequest(c: Container): nat {
    if Holds(c.phase, c.node) then AmountOf(c.cpu, ParseCpu) else 0
  }

  function MemoryRequest(c: Container): nat {
    if Holds(c.phase, c.node) then AmountOf(c.memory, ParseMemory) else 0
  }

  function StorageRequest(c: Container): nat {
    if Holds(c.phase, c.node) then AmountOf(c.storage, ParseMemory) else 0
  }

  function PodSlot(p: Pod): nat {
    if Holds(p.phase, p.node) then 1 else 0
  }

  predicate NodeIsRead(n: Node) {
    ParseCpu(n.cpu).Some? && ParseMemory(n.memory).Some? && (ReportsStorage(n) ==> ParseMemory(n.storage).Some?)
  }

  predicate ContainerIsRead(c: Container) {
    BlankOrRead(c.cpu, ParseCpu) && BlankOrRead(c.memory, ParseMemory) && BlankOrRead(c.storage, ParseMemory)
  }

  /** Before a number of pods that is no number, some node reports none: there the reading has stopped. */
  ghost predicate PodsAreRead(ns: seq<Node>) {
    forall i | 0 <= i < |ns| && !AllDigits(Strip(ns[i].pods)) :: exists j | 0 <= j < i :: !ReportsPods(ns[j])
  }

  // ----- the nodes' amounts -----

  function OfferOfNode(n: Node): Option<Offer> {
    OfferFrom(ParseCpu(n.cpu), ParseMemory(n.memory), if Strip(n.storage) == "" then None else Some(ParseMemory(n.storage)))
  }

  function SlotsOfNode(n: Node): Slots {
    if Strip(n.pods) == "" then Unreported
    else if !AllDigits(Strip(n.pods)) then Broken
    else Offered(Number(Strip(n.pods)))
  }

  lemma NodeLineIsRead(n: Node)
    requires n.Valid()
    ensures Strip(NodeLine(n)) != ""
    ensures NodeRecord(NodeLine(n)) == Some([n.cpu, n.memory, n.storage, n.pods])
  {
    var parts := [n.cpu, n.memory, n.storage, n.pods];
    assert forall part <- parts :: ' ' !in part;
    NodeLineMeans(parts);
    assert (parts + ["", ""])[..4] == parts;
    assert n.cpu <= NodeLine(n);
    VisiblePart(NodeLine(n), n.cpu);
  }

  lemma LinesAreNodes(ns: seq<Node>)
    requires forall n <- ns :: n.Valid()
    ensures Mapped(OfferOf, Mapped(NodeLine, ns)) == Mapped(OfferOfNode, ns)
    ensures Mapped(SlotsOf, Mapped(NodeLine, ns)) == Mapped(SlotsOfNode, ns)
  {
    forall n <- ns
      ensures OfferOf(NodeLine(n)) == OfferOfNode(n) && SlotsOf(NodeLine(n)) == SlotsOfNode(n)
    {
      NodeLineIsRead(n);
    }
    MappedTwice(NodeLine, OfferOf, OfferOfNode, ns);
    MappedTwice(NodeLine, SlotsOf, SlotsOfNode, ns);
  }

  function StorageOf(ns: seq<Node>): Option<nat> {
    if forall n <- ns :: ReportsStorage(n) then Some(SumOver(ns, NodeStorage)) else None
  }

  lemma EachOfMore<T>(items: seq<T>, holds: T -> bool)
    requires items != []
    ensures (forall x <- items :: holds(x)) <==> (forall x <- items[..|items| - 1] :: holds(x)) && holds(items[|items| - 1])
  {
    assert forall x :: x in items <==> x in items[..|items| - 1] || x == items[|items| - 1];
  }

  lemma MappedInit<A, B>(f: A -> B, s: seq<A>)
    requires s != []
    ensures Mapped(f, s)[..|s| - 1] == Mapped(f, s[..|s| - 1]) && Mapped(f, s)[|s| - 1] == f(s[|s| - 1])
  {
  }

  lemma SumMore<T>(zero: T, plus: (T, T) -> T, items: seq<Option<T>>)
    requires items != []
    ensures var before, last := Sum(zero, plus, items[..|items| - 1]), items[|items| - 1];
      Sum(zero, plus, items) == if before.Some? && last.Some? then Some(plus(before.value, last.value)) else None
  {
  }

  function OfferIf<T>(x: T, known: T -> bool, cpu: T -> nat, memory: T -> nat, reports: T -> bool, storage: T -> nat): Option<Offer> {
    if known(x) then Some(Offer(cpu(x), memory(x), if reports(x) then Some(storage(x)) else None)) else None
  }

  ghost function OffersOf<T>(items: seq<T>, known: T -> bool, cpu: T -> nat, memory: T -> nat,
                             reports: T -> bool, storage: T -> nat): Option<Offer>
  {
    if forall x <- items :: known(x)
    then Some(Offer(SumOver(items, cpu), SumOver(items, memory),
                    if forall x <- items :: reports(x) then Some(SumOver(items, storage)) else None))
    else None
  }

  lemma OffersMore<T>(items: seq<T>, known: T -> bool, cpu: T -> nat, memory: T -> nat, reports: T -> bool, storage: T -> nat)
    requires items != []
    ensures var before := OffersOf(items[..|items| - 1], known, cpu, memory, reports, storage);
      var last := OfferIf(items[|items| - 1], known, cpu, memory, reports, storage);
      OffersOf(items, known, cpu, memory, reports, storage)
      == if before.Some? && last.Some? then Some(PlusOffer(before.value, last.value)) else None
  {
    EachOfMore(items, known);
    EachOfMore(items, reports);
  }

  /** Offers add up, whatever they are read from. */
  lemma {:induction false} OffersAddUp<T>(items: seq<T>, one: T -> Option<Offer>, known: T -> bool,
                                          cpu: T -> nat, memory: T -> nat, reports: T -> bool, storage: T -> nat)
    requires forall x <- items :: one(x) == OfferIf(x, known, cpu, memory, reports, storage)
    ensures Sum(NO_OFFER, PlusOffer, Mapped(one, items)) == OffersOf(items, known, cpu, memory, reports, storage)
    decreases |items|
  {
    if items != [] {
      OffersAddUp(items[..|items| - 1], one, known, cpu, memory, reports, storage);
      MappedInit(one, items);
      SumMore(NO_OFFER, PlusOffer, Mapped(one, items));
      OffersMore(items, known, cpu, memory, reports, storage);
    }
  }

  lemma NodeOffers(n: Node)
    ensures OfferOfNode(n) == OfferIf(n, NodeIsRead, NodeCpu, NodeMemory, ReportsStorage, NodeStorage)
  {
  }

  function NodesTotal(ns: seq<Node>): Option<Offer> {
    if forall n <- ns :: NodeIsRead(n) then Some(Offer(SumOver(ns, NodeCpu), SumOver(ns, NodeMemory), StorageOf(ns)))
    else None
  }

  lemma NodesOffer(ns: seq<Node>)
    ensures Sum(NO_OFFER, PlusOffer, Mapped(OfferOfNode, ns)) == NodesTotal(ns)
  {
    forall n <- ns
      ensures OfferOfNode(n) == OfferIf(n, NodeIsRead, NodeCpu, NodeMemory, ReportsStorage, NodeStorage)
    {
      NodeOffers(n);
    }
    OffersAddUp(ns, OfferOfNode, NodeIsRead, NodeCpu, NodeMemory, ReportsStorage, NodeStorage);
  }

  // ----- the nodes' pod slots -----

  lemma {:induction false} CapacityGrows(lines: seq<Slots>, last: Slots)
    ensures Capacity(lines + [last]) == Capacity(lines) + if last.Offered? then last.pods else 0
    decreases |lines|
  {
    if lines == [] {
      assert lines + [last] == [last];
    } else {
      CapacityGrows(lines[1..], last);
      assert (lines + [last])[1..] == lines[1..] + [last];
    }
  }

  lemma {:induction false} NodesCapacity(ns: seq<Node>)
    ensures Capacity(Mapped(SlotsOfNode, ns)) == SumOver(ns, NodePods)
    decreases |ns|
  {
    if ns != [] {
      NodesCapacity(ns[..|ns| - 1]);
      MappedInit(SlotsOfNode, ns);
      var lines := Mapped(SlotsOfNode, ns);
      CapacityGrows(lines[..|ns| - 1], lines[|ns| - 1]);
      assert lines == lines[..|ns| - 1] + [lines[|ns| - 1]];
    }
  }

  predicate CountsPods(n: Node) {
    ReportsPods(n) && AllDigits(Strip(n.pods))
  }

  /** The slots of all nodes: known where every node reports a number and there is a slot at all. */
  lemma NodesSlots(ns: seq<Node>)
    ensures var slots := Scan(Mapped(SlotsOfNode, ns), 0);
      && (slots == Broken <==> !PodsAreRead(ns))
      && (slots.Offered? <==> (forall n <- ns :: CountsPods(n)) && SumOver(ns, NodePods) > 0)
      && (slots.Offered? ==> slots.pods == SumOver(ns, NodePods))
  {
    var lines := Mapped(SlotsOfNode, ns);
    NodesCapacity(ns);
    KnownExactly(lines, 0);
    RefusedExactly(lines, 0);
    assert (forall line <- lines :: line.Offered?) <==> (forall n <- ns :: CountsPods(n)) by {
      assert forall i | 0 <= i < |ns| :: lines[i] == SlotsOfNode(ns[i]);
      assert forall i | 0 <= i < |ns| :: lines[i] in lines && ns[i] in ns;
    }
    FirstStopIsBroken(ns);
  }

  lemma StopsBeforeSilence(ns: seq<Node>, i: nat)
    requires StopsAt(Mapped(SlotsOfNode, ns), i) && Mapped(SlotsOfNode, ns)[i] == Broken
    ensures !PodsAreRead(ns)
  {
    var lines := Mapped(SlotsOfNode, ns);
    assert lines[i] == SlotsOfNode(ns[i]);
    assert forall j | 0 <= j < i :: lines[j] == SlotsOfNode(ns[j]) && ReportsPods(ns[j]);
  }

  lemma FirstStopIsBroken(ns: seq<Node>)
    ensures var lines := Mapped(SlotsOfNode, ns);
      (exists i: nat :: StopsAt(lines, i) && lines[i] == Broken) <==> !PodsAreRead(ns)
  {
    var lines := Mapped(SlotsOfNode, ns);
    if i: nat :| StopsAt(lines, i) && lines[i] == Broken {
      StopsBeforeSilence(ns, i);
    }
    if !PodsAreRead(ns) {
      var k :| 0 <= k < |ns| && !AllDigits(Strip(ns[k].pods)) && !exists j | 0 <= j < k :: !ReportsPods(ns[j]);
      var i := FirstBroken(ns, k);
      BrokenStops(ns, i);
    }
  }

  lemma BrokenStops(ns: seq<Node>, i: nat)
    requires i < |ns| && !AllDigits(Strip(ns[i].pods)) && forall j | 0 <= j < i :: CountsPods(ns[j])
    ensures StopsAt(Mapped(SlotsOfNode, ns), i) && Mapped(SlotsOfNode, ns)[i] == Broken
  {
    var lines := Mapped(SlotsOfNode, ns);
    assert lines[i] == SlotsOfNode(ns[i]);
    assert forall j | 0 <= j < i :: lines[j] == SlotsOfNode(ns[j]) && CountsPods(ns[j]);
  }

  lemma {:induction false} FirstBroken(ns: seq<Node>, k: nat) returns (i: nat)
    requires k < |ns| && !AllDigits(Strip(ns[k].pods)) && forall j | 0 <= j < k :: ReportsPods(ns[j])
    ensures i <= k && !AllDigits(Strip(ns[i].pods)) && forall j | 0 <= j < i :: CountsPods(ns[j])
    decreases k
  {
    i := k;
    if j :| 0 <= j < k && !AllDigits(Strip(ns[j].pods)) {
      i := FirstBroken(ns, j);
    }
  }

  // ----- the containers and the pods -----

  lemma RequestIsRead(text: string, d: Dimension, read: string -> Option<nat>)
    requires read(text) == if d == Cpu then ParseCpu(text) else ParseMemory(text)
    ensures OptionalAmount(text, d) == if BlankOrRead(text, read) then Some(AmountOf(text, read)) else None
  {
  }

  lemma HeldParts(c: Container, cpu: Option<nat>, memory: Option<nat>, storage: Option<nat>)
    requires cpu == OptionalAmount(c.cpu, Cpu) && memory == OptionalAmount(c.memory, Memory)
    requires storage == OptionalAmount(c.storage, Storage)
    ensures HeldOf(c) == if cpu.None? || memory.None? || storage.None? then None
                         else if Holds(c.phase, c.node) then Some(Amounts(cpu.value, memory.value, storage.value))
                         else Some(NOTHING)
  {
  }

  function AmountsIf<T>(x: T, known: T -> bool, cpu: T -> nat, memory: T -> nat, storage: T -> nat): Option<Amounts> {
    if known(x) then Some(Amounts(cpu(x), memory(x), storage(x))) else None
  }

  lemma OneHolds(c: Container)
    ensures HeldOf(c) == AmountsIf(c, ContainerIsRead, CpuRequest, MemoryRequest, StorageRequest)
  {
    RequestIsRead(c.cpu, Cpu, ParseCpu);
    RequestIsRead(c.memory, Memory, ParseMemory);
    RequestIsRead(c.storage, Storage, ParseMemory);
    HeldParts(c, OptionalAmount(c.cpu, Cpu), OptionalAmount(c.memory, Memory), OptionalAmount(c.storage, Storage));
  }

  /** Amounts add up, whatever they are read from. */
  lemma {:induction false} AmountsAddUp<T>(items: seq<T>, one: T -> Option<Amounts>, known: T -> bool,
                                           cpu: T -> nat, memory: T -> nat, storage: T -> nat)
    requires forall x <- items :: one(x) == AmountsIf(x, known, cpu, memory, storage)
    ensures Sum(NOTHING, PlusAmounts, Mapped(one, items))
      == if forall x <- items :: known(x)
         then Some(Amounts(SumOver(items, cpu), SumOver(items, memory), SumOver(items, storage))) else None
    decreases |items|
  {
    if items != [] {
      AmountsAddUp(items[..|items| - 1], one, known, cpu, memory, storage);
      MappedInit(one, items);
      SumMore(NOTHING, PlusAmounts, Mapped(one, items));
      EachOfMore(items, known);
      assert one(items[|items| - 1]) == AmountsIf(items[|items| - 1], known, cpu, memory, storage);
    }
  }

  function ContainersTotal(cs: seq<Container>): Option<Amounts> {
    if forall c <- cs :: ContainerIsRead(c)
    then Some(Amounts(SumOver(cs, CpuRequest), SumOver(cs, MemoryRequest), SumOver(cs, StorageRequest)))
    else None
  }

  lemma ContainersHold(cs: seq<Container>)
    ensures Sum(NOTHING, PlusAmounts, Mapped(HeldOf, cs)) == ContainersTotal(cs)
  {
    forall c <- cs
      ensures HeldOf(c) == AmountsIf(c, ContainerIsRead, CpuRequest, MemoryRequest, StorageRequest)
    {
      OneHolds(c);
    }
    AmountsAddUp(cs, HeldOf, ContainerIsRead, CpuRequest, MemoryRequest, StorageRequest);
  }

  lemma FileOfContainers(cs: seq<Container>)
    requires forall c <- cs :: ValidContainer(c)
    ensures CommittedBy(Mapped(LineOf, cs)) == ContainersTotal(cs)
  {
    FileMeansContainers(cs);
    ContainersHold(cs);
  }

  function SlotOf(p: Pod): Option<nat> {
    Some(PodSlot(p))
  }

  lemma PodLineIsRead(p: Pod)
    requires p.Valid()
    ensures TakenBy(PodLine(p)) == SlotOf(p)
  {
    FieldsOfJoined([p.phase, p.node], '|');
    assert p.phase <= PodLine(p);
    VisiblePart(PodLine(p), p.phase);
  }

  lemma {:induction false} SlotsAddUp(ps: seq<Pod>)
    ensures Sum(0, PlusCount, Mapped(SlotOf, ps)) == Some(SumOver(ps, PodSlot))
    decreases |ps|
  {
    if ps != [] {
      SlotsAddUp(ps[..|ps| - 1]);
      MappedInit(SlotOf, ps);
    }
  }

  lemma FileOfPods(ps: seq<Pod>)
    requires forall p <- ps :: p.Valid()
    ensures Taken(Mapped(PodLine, ps)) == Some(SumOver(ps, PodSlot))
  {
    forall p <- ps
      ensures TakenBy(PodLine(p)) == SlotOf(p)
    {
      PodLineIsRead(p);
    }
    MappedTwice(PodLine, TakenBy, SlotOf, ps);
    SlotsAddUp(ps);
  }

  // ----- the whole cluster -----

  /** What the collector found; a listing that failed is None. */
  datatype Records = Records(nodes: Option<seq<Node>>, containers: Option<seq<Container>>, pods: Option<seq<Pod>>) {
    predicate Valid() {
      && (nodes.Some? ==> forall n <- nodes.value :: n.Valid())
      && (containers.Some? ==> forall c <- containers.value :: ValidContainer(c))
      && (pods.Some? ==> forall p <- pods.value :: p.Valid())
    }

    ghost predicate AreRead() {
      && (nodes.Some? ==> (forall n <- nodes.value :: NodeIsRead(n)) && PodsAreRead(nodes.value))
      && (containers.Some? ==> forall c <- containers.value :: ContainerIsRead(c))
    }

    function Lines(): Files {
      Files(if nodes.Some? then Some(Mapped(NodeLine, nodes.value)) else None,
            if containers.Some? then Some(Mapped(LineOf, containers.value)) else None,
            if pods.Some? then Some(Mapped(PodLine, pods.value)) else None)
    }
  }

  function SumIn<T>(items: Option<seq<T>>, f: T -> nat): Option<nat> {
    if items.Some? then Some(SumOver(items.value, f)) else None
  }

  function SlotsOfAll(ns: seq<Node>): Option<nat> {
    if (forall n <- ns :: CountsPods(n)) && SumOver(ns, NodePods) > 0 then Some(SumOver(ns, NodePods)) else None
  }

  /** What the nodes make known, where they were listed. */
  function Across(nodes: Option<seq<Node>>, f: seq<Node> -> Option<nat>): Option<nat> {
    if nodes.Some? then f(nodes.value) else None
  }

  lemma NodesAreRead(nodes: Option<seq<Node>>)
    requires nodes.Some? ==> forall n <- nodes.value :: n.Valid()
    ensures AllocatableIn(if nodes.Some? then Some(Mapped(NodeLine, nodes.value)) else None)
      == if nodes.Some? ==> (forall n <- nodes.value :: NodeIsRead(n)) && PodsAreRead(nodes.value)
         then Some(Figures(SumIn(nodes, NodeCpu), SumIn(nodes, NodeMemory), Across(nodes, StorageOf), Across(nodes, SlotsOfAll)))
         else None
  {
    if nodes.Some? {
      LinesAreNodes(nodes.value);
      NodesOffer(nodes.value);
      NodesSlots(nodes.value);
    }
  }

  lemma UseIsRead(r: Records)
    requires r.Valid()
    ensures CommittedIn(r.Lines().requests, r.Lines().pods)
      == if r.containers.Some? ==> forall c <- r.containers.value :: ContainerIsRead(c)
         then Some(Figures(SumIn(r.containers, CpuRequest), SumIn(r.containers, MemoryRequest),
                           SumIn(r.containers, StorageRequest), SumIn(r.pods, PodSlot)))
         else None
  {
    if r.containers.Some? {
      FileOfContainers(r.containers.value);
    }
    if r.pods.Some? {
      FileOfPods(r.pods.value);
    }
  }

  /**
   From the collector's lines the run has, dimension by dimension, the sum of what the nodes offer and the
   sum of what containers and pods that are bound and not finished hold; a listing that failed, or a node
   that does not report a dimension, leaves it unknown. The lines are refused just if a quantity is none.
   */
  lemma ClusterMeans(declared: Option<seq<Workload>>, slot: Option<Slot>,
                     hard: map<Dimension, string>, used: map<Dimension, string>, r: Records)
    requires r.Valid()
    ensures var i := InputsOf(declared, slot, hard, used, r.Lines());
      && (i.cluster.Some? <==> r.AreRead())
      && (r.AreRead() ==>
            && ClusterLimit(i, Cpu) == Limit(SumIn(r.nodes, NodeCpu), SumIn(r.containers, CpuRequest))
            && ClusterLimit(i, Memory) == Limit(SumIn(r.nodes, NodeMemory), SumIn(r.containers, MemoryRequest))
            && ClusterLimit(i, Storage) == Limit(Across(r.nodes, StorageOf), SumIn(r.containers, StorageRequest))
            && ClusterLimit(i, PodCount) == Limit(Across(r.nodes, SlotsOfAll), SumIn(r.pods, PodSlot)))
  {
    NodesAreRead(r.nodes);
    UseIsRead(r);
  }

  // ----- the quota -----

  /** A figure that is left empty is not given. */
  function Given(text: string, read: string -> Option<nat>): Option<nat> {
    if text == "" then None else read(text)
  }

  predicate IsRead(text: string, read: string -> Option<nat>) {
    text != "" ==> read(text).Some?
  }

  function Reading(d: Dimension): string -> Option<nat> {
    match d
    case Cpu => ParseCpu
    case Memory => ParseMemory
    case Storage => ParseMemory
    case PodCount => ParseCount
  }

  function TextAt(texts: map<Dimension, string>, d: Dimension): string {
    if d in texts then texts[d] else ""
  }

  lemma FigureMeans(texts: map<Dimension, string>, d: Dimension)
    ensures FigureAt(ReadQuota(texts), d).ToOption() == Given(TextAt(texts, d), Reading(d))
    ensures FigureAt(ReadQuota(texts), d).Unusable? <==> !IsRead(TextAt(texts, d), Reading(d))
  {
    assert d in texts ==> FigureAt(ReadQuota(texts), d) == FigureOf(texts[d], d);
  }

  /** The quota's texts, each against the reading of its own dimension: the hard limit first, then what is used of it. */
  lemma QuotaMeans(declared: Option<seq<Workload>>, slot: Option<Slot>, files: Files,
                   hard: map<Dimension, string>, used: map<Dimension, string>, d: Dimension)
    ensures var i := InputsOf(declared, slot, hard, used, files);
      && QuotaLimit(i, d) == Limit(Given(TextAt(hard, d), Reading(d)), Given(TextAt(used, d), Reading(d)))
      && (QuotaUsable(i, d) <==> IsRead(TextAt(hard, d), Reading(d)) && IsRead(TextAt(used, d), Reading(d)))
  {
    FigureMeans(hard, d);
    FigureMeans(used, d);
  }
}
