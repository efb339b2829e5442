/** The preflight's run: eight comparisons, one verdict. */
module CapacityRun {
  import opened Text
  import opened Quantity
  import opened QuantityText
  import opened Rollout
  import opened Preflight

  const EXIT_OK := 0
  const EXIT_INSUFFICIENT := 1
  const EXIT_INCONCLUSIVE := 2
  const EXIT_BAD_INPUT := 3

  /** A whole, non-negative count. */
  function ParseCount(text: string): Option<nat> {
    var t := Bare(text);
    if t != "" && AllDigits(t) then Some(Number(t)) else None
  }

  /** A figure of the quota as given: left empty, unusable, or known. */
  datatype Figure = Missing | Unusable | Known(value: nat) {
    function ToOption(): Option<nat> {
      if Known? then Some(value) else None
    }
  }

  function FigureOf(text: string, d: Dimension): Figure {
    if text == "" then Missing
    else
      var parsed := match d
        case Cpu => ParseCpu(text)
        case PodCount => ParseCount(text)
        case _ => ParseMemory(text);
      if parsed.Some? then Known(parsed.value) else Unusable
  }

  /** A spelling of digits and nothing else. */
  predicate IsPlain(x: Spelling) {
    x.sign == "" && !x.point && x.tail == Nothing
  }

  lemma PlainPrints(x: Spelling)
    requires x.Valid() && IsPlain(x)
    ensures x.Print() == x.whole && x.whole != ""
  {
  }

  /** A printed spelling that is not plain shows some sign that is no digit. */
  lemma NotAllDigits(x: Spelling, s: string, c: Cuts)
    requires x.Valid() && c == CutsFor(x) && c.fraction <= |s| && s != "" && AllDigits(s)
    requires (s[0] == '+' || s[0] == '-') <==> x.sign != ""
    requires s[c.whole..c.point] == (if x.point then "." else "") && s[c.fraction..] == x.tail.Print()
    ensures x.sign == "" && !x.point && x.tail.Print() == ""
  {
    TailStarts(x.tail);
    StartsWithDigit(s, 0, |s|);
    StartsWithDigit(s, c.whole, c.point);
    StartsWithDigit(s, c.fraction, |s|);
  }

  lemma StartsWithDigit(s: string, i: nat, j: nat)
    requires i <= j <= |s| && AllDigits(s)
    ensures i < j ==> IsDigit(s[i..j][0])
  {
    assert i < j ==> s[i..j][0] == s[i] && s[i] in s;
  }

  lemma NoTail(t: Tail)
    requires t.Valid() && t.Print() == ""
    ensures t == Nothing
  {
  }

  lemma PlainIsAllDigits(x: Spelling)
    requires x.Valid()
    ensures AllDigits(x.Print()) <==> IsPlain(x)
  {
    if IsPlain(x) {
      PlainPrints(x);
    }
    if AllDigits(x.Print()) {
      PrintedPieces(x);
      SignEnds(x);
      NotAllDigits(x, x.Print(), CutsFor(x));
      NoTail(x.tail);
    }
  }

  /**
   A figure is missing only where nothing is written. Of cpu, memory and storage it is the exact
   ceiling of the value written, or unusable; of pods, the number written in digits alone.
   */
  lemma FigureExact(text: string, x: Spelling, d: Dimension)
    requires text != "" && x.Valid() && x.Print() == Bare(text)
    ensures var f := FigureOf(text, d);
            && f != Missing
            && (d != PodCount && x.Value().None? ==> f == Unusable)
            && (d != PodCount && x.Value().Some? ==>
                  var q := x.Value().value;
                  IsCount(f.ToOption(), q.Above(if d == Cpu then 1000 else 1), q.Below()))
            && (d == PodCount ==> f == if IsPlain(x) then Known(Number(x.whole)) else Unusable)
  {
    if d == PodCount {
      PlainIsAllDigits(x);
      SignEnds(x);
      if IsPlain(x) {
        PlainPrints(x);
      }
    } else {
      CountTextExact(text, x, if d == Cpu then 1000 else 1);
    }
  }

  /** What is no quantity at all is unusable in every dimension. */
  lemma FigureRefused(text: string, d: Dimension)
    requires text != "" && forall x: Spelling :: x.Valid() ==> x.Print() != Bare(text)
    ensures FigureOf(text, d) == Unusable
  {
    var t := Bare(text);
    if d == PodCount {
      var x := Spelling("", t, false, "", Nothing);
      assert x.Print() == t;
      assert !x.Valid();
    } else {
      var parsed := ParseQuantity(text);
      if parsed.Some? {
        ParseExact(text, parsed.value);
      }
    }
  }

  /** A limit and what is committed against it; None where the cluster did not report it. */
  datatype Limit = Limit(hard: Option<nat>, used: Option<nat>)

  /**
   What the run reads. `declared` and `slot` are None when the candidate or the current slot is
   unusable; `cluster` is None when a cluster-wide file breaks the line contract.
   */
  datatype Inputs = Inputs(
    declared: Option<seq<Workload>>,
    slot: Option<Slot>,
    quotaHard: map<Dimension, Figure>,
    quotaUsed: map<Dimension, Figure>,
    cluster: Option<map<Dimension, Limit>>)

  /** The figures of the quota as its texts spell them; a text not given is empty. */
  function ReadQuota(texts: map<Dimension, string>): map<Dimension, Figure> {
    map d | d in texts :: FigureOf(texts[d], d)
  }

  function FigureAt(figures: map<Dimension, Figure>, d: Dimension): Figure {
    if d in figures then figures[d] else Missing
  }

  function QuotaLimit(i: Inputs, d: Dimension): Limit {
    Limit(FigureAt(i.quotaHard, d).ToOption(), FigureAt(i.quotaUsed, d).ToOption())
  }

  function LimitAt(limits: map<Dimension, Limit>, d: Dimension): Limit {
    if d in limits then limits[d] else Limit(None, None)
  }

  function ClusterLimit(i: Inputs, d: Dimension): Limit
    requires i.cluster.Some?
  {
    LimitAt(i.cluster.value, d)
  }

  predicate QuotaUsable(i: Inputs, d: Dimension) {
    !FigureAt(i.quotaHard, d).Unusable? && !FigureAt(i.quotaUsed, d).Unusable?
  }

  predicate Reported(l: Limit) {
    l.hard.Some? && l.used.Some?
  }

  predicate Fits(l: Limit, needed: nat) {
    Reported(l) && needed <= l.hard.value - l.used.value
  }

  predicate Exceeds(l: Limit, needed: nat) {
    Reported(l) && needed > l.hard.value - l.used.value
  }

  /** What the candidate needs of each dimension. */
  datatype Demand = Demand(cpu: nat, memory: nat, storage: nat, pods: nat) {
    function Of(d: Dimension): nat {
      match d
      case Cpu => cpu
      case Memory => memory
      case Storage => storage
      case PodCount => pods
    }
  }

  lemma EachDimension(d: Dimension)
    ensures d == Cpu || d == Memory || d == Storage || d == PodCount
  {
  }

  lemma EachQuota(i: Inputs)
    ensures (forall d :: QuotaUsable(i, d))
      <==> QuotaUsable(i, Cpu) && QuotaUsable(i, Memory) && QuotaUsable(i, Storage) && QuotaUsable(i, PodCount)
  {
    forall d: Dimension
      ensures d == Cpu || d == Memory || d == Storage || d == PodCount || QuotaUsable(i, d)
    {
      EachDimension(d);
    }
  }

  predicate SomeLimitExceeded(limit: Dimension -> Limit, demand: Demand) {
    exists d: Dimension :: Exceeds(limit(d), demand.Of(d))
  }

  predicate SomeLimitMissing(limit: Dimension -> Limit) {
    exists d: Dimension :: !Reported(limit(d))
  }

  lemma EachLimit(limit: Dimension -> Limit, demand: Demand)
    ensures SomeLimitExceeded(limit, demand)
      <==> Exceeds(limit(Cpu), demand.cpu) || Exceeds(limit(Memory), demand.memory)
           || Exceeds(limit(Storage), demand.storage) || Exceeds(limit(PodCount), demand.pods)
    ensures SomeLimitMissing(limit)
      <==> !Reported(limit(Cpu)) || !Reported(limit(Memory)) || !Reported(limit(Storage)) || !Reported(limit(PodCount))
  {
    forall d: Dimension
      ensures d == Cpu || d == Memory || d == Storage || d == PodCount || (!Exceeds(limit(d), demand.Of(d)) && Reported(limit(d)))
    {
      EachDimension(d);
    }
  }

  class Report {
    var insufficient: bool
    var inconclusive: bool

    constructor ()
      ensures !insufficient && !inconclusive
    {
      insufficient, inconclusive := false, false;
    }

    method Compare(needed: nat, l: Limit)
      modifies this
      ensures insufficient == (old(insufficient) || Exceeds(l, needed))
      ensures inconclusive == (old(inconclusive) || !Reported(l))
    {
      if l.hard.None? || l.used.None? {
        inconclusive := true;
        return;
      }
      var free := l.hard.value - l.used.value;
      if needed <= free {
        return;
      }
      insufficient := true;
    }

    /** The four dimensions of the namespace quota; false where a figure of the quota cannot be used. */
    method CompareQuota(i: Inputs, demand: Demand) returns (ok: bool)
      modifies this
      ensures ok == forall d :: QuotaUsable(i, d)
      ensures ok ==> insufficient == (old(insufficient) || SomeLimitExceeded(d => QuotaLimit(i, d), demand))
      ensures ok ==> inconclusive == (old(inconclusive) || SomeLimitMissing(d => QuotaLimit(i, d)))
    {
      EachQuota(i);
      EachLimit(d => QuotaLimit(i, d), demand);
      ok := QuotaUsable(i, Cpu);
      if !ok { return; }
      Compare(demand.cpu, QuotaLimit(i, Cpu));
      ok := QuotaUsable(i, Memory);
      if !ok { return; }
      Compare(demand.memory, QuotaLimit(i, Memory));
      ok := QuotaUsable(i, Storage);
      if !ok { return; }
      Compare(demand.storage, QuotaLimit(i, Storage));
      ok := QuotaUsable(i, PodCount);
      if !ok { return; }
      Compare(demand.pods, QuotaLimit(i, PodCount));
    }

    /** The four dimensions of what the nodes offer. */
    method CompareCluster(cluster: map<Dimension, Limit>, demand: Demand)
      modifies this
      ensures insufficient == (old(insufficient) || SomeLimitExceeded(d => LimitAt(cluster, d), demand))
      ensures inconclusive == (old(inconclusive) || SomeLimitMissing(d => LimitAt(cluster, d)))
    {
      EachLimit(d => LimitAt(cluster, d), demand);
      Compare(demand.cpu, LimitAt(cluster, Cpu));
      Compare(demand.memory, LimitAt(cluster, Memory));
      Compare(demand.storage, LimitAt(cluster, Storage));
      Compare(demand.pods, LimitAt(cluster, PodCount));
    }

    /** A shortfall is not softened by what could not be read. */
    function ExitCode(): int
      reads this
    {
      if insufficient then EXIT_INSUFFICIENT else if inconclusive then EXIT_INCONCLUSIVE else EXIT_OK
    }
  }

  predicate Usable(i: Inputs) {
    && i.declared.Some? && i.declared.value != [] && i.slot.Some? && i.cluster.Some?
    && forall d :: QuotaUsable(i, d)
  }

  /** Some limit is known and exceeded. */
  predicate SomeExceeded(i: Inputs)
    requires Usable(i)
  {
    exists d :: LimitExceeded(i, d)
  }

  predicate LimitExceeded(i: Inputs, d: Dimension)
    requires Usable(i)
  {
    var needed := Total(i.declared.value, i.slot.value, d);
    Exceeds(QuotaLimit(i, d), needed) || Exceeds(ClusterLimit(i, d), needed)
  }

  /** Every limit is known and met. */
  predicate AllFit(i: Inputs)
    requires Usable(i)
  {
    forall d :: LimitsMet(i, d)
  }

  predicate LimitsMet(i: Inputs, d: Dimension)
    requires Usable(i)
  {
    var needed := Total(i.declared.value, i.slot.value, d);
    Fits(QuotaLimit(i, d), needed) && Fits(ClusterLimit(i, d), needed)
  }

  /** The two flags over quota and cluster say whether some limit is exceeded, and whether all are met. */
  lemma FlagsDecide(i: Inputs, demand: Demand)
    requires Usable(i) && forall d :: demand.Of(d) == Total(i.declared.value, i.slot.value, d)
    ensures var quota, cluster := d => QuotaLimit(i, d), d => LimitAt(i.cluster.value, d);
      && (SomeExceeded(i) <==> SomeLimitExceeded(quota, demand) || SomeLimitExceeded(cluster, demand))
      && (AllFit(i) <==> !SomeExceeded(i) && !SomeLimitMissing(quota) && !SomeLimitMissing(cluster))
  {
    forall d: Dimension
      ensures LimitExceeded(i, d)
        <==> Exceeds(QuotaLimit(i, d), demand.Of(d)) || Exceeds(LimitAt(i.cluster.value, d), demand.Of(d))
      ensures LimitsMet(i, d)
        <==> !LimitExceeded(i, d) && Reported(QuotaLimit(i, d)) && Reported(LimitAt(i.cluster.value, d))
    {
    }
  }

  method Run(i: Inputs) returns (code: int)
    ensures code == EXIT_BAD_INPUT <==> !Usable(i)
    ensures code == EXIT_OK <==> Usable(i) && AllFit(i)
    ensures code == EXIT_INSUFFICIENT <==> Usable(i) && SomeExceeded(i)
    ensures code == EXIT_INCONCLUSIVE <==> Usable(i) && !AllFit(i) && !SomeExceeded(i)
  {
    if i.declared.None? || i.slot.None? {
      return EXIT_BAD_INPUT;
    }
    var cpu, memory, storage, pods := Summarise(i.declared.value, i.slot.value);
    if i.declared.value == [] {
      return EXIT_BAD_INPUT;
    }
    var demand := Demand(cpu, memory, storage, pods);
    var report := new Report();
    var quotaIsUsable := report.CompareQuota(i, demand);
    if !quotaIsUsable || i.cluster.None? {
      return EXIT_BAD_INPUT;
    }
    report.CompareCluster(i.cluster.value, demand);
    FlagsDecide(i, demand);
    code := report.ExitCode();
  }

  /**
   What exit 0 says: every one of the eight limits was known, and at every instant that the
   interleaved rollouts can reach, no more than the limit is committed, in the namespace quota and
   on the nodes. And it is said whenever that is so.
   */
  lemma ExitOkIsABound(i: Inputs)
    requires Usable(i) && DistinctNames(i.declared.value)
    ensures AllFit(i) <==> forall d: Dimension ::
      && StaysWithin(i.declared.value, i.slot.value, d, QuotaLimit(i, d))
      && StaysWithin(i.declared.value, i.slot.value, d, ClusterLimit(i, d))
  {
    forall d: Dimension
      ensures LimitsMet(i, d)
        <==> && StaysWithin(i.declared.value, i.slot.value, d, QuotaLimit(i, d))
             && StaysWithin(i.declared.value, i.slot.value, d, ClusterLimit(i, d))
    {
      FitsIsABound(i.declared.value, i.slot.value, d, QuotaLimit(i, d));
      FitsIsABound(i.declared.value, i.slot.value, d, ClusterLimit(i, d));
    }
  }

  /** The limit is known, and no reachable instant of the rollouts goes beyond it. */
  ghost predicate StaysWithin(ws: seq<Workload>, slot: Slot, d: Dimension, l: Limit) {
    && Reported(l)
    && forall s: seq<Pods> | JointlyReachable(ws, slot, s) && |s| == |ws| ::
         CommittedAt(ws, slot, d, l.used.value, s) <= l.hard.value
  }

  lemma FitsIsABound(ws: seq<Workload>, slot: Slot, d: Dimension, l: Limit)
    requires DistinctNames(ws)
    ensures Fits(l, Total(ws, slot, d)) <==> StaysWithin(ws, slot, d, l)
  {
    if Reported(l) {
      FitExact(ws, slot, d, l.hard.value, l.used.value);
    }
  }
}
