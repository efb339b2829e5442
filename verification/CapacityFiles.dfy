/** The preflight's run from its input as text: the quota's figures and the collector's files. */
module CapacityFiles {
  import opened Text
  import opened Rollout
  import opened Preflight
  import opened CapacityRun
  import opened ClusterInput

  /** One figure a dimension, where the cluster reported it. */
  datatype Figures = Figures(cpu: Option<nat>, memory: Option<nat>, storage: Option<nat>, pods: Option<nat>)

  const UNKNOWN := Figures(None, None, None, None)

  /** What the nodes offer; None where the file is broken. A file that is not there reports nothing. */
  function AllocatableIn(nodes: Option<seq<string>>): Option<Figures> {
    match nodes
    case None => Some(UNKNOWN)
    case Some(lines) =>
      var offer :- OfferedBy(lines);
      match Scan(Mapped(SlotsOf, lines), 0)
      case Broken => None
      case Unreported => Some(Figures(Some(offer.cpu), Some(offer.memory), offer.storage, None))
      case Offered(n) => Some(Figures(Some(offer.cpu), Some(offer.memory), offer.storage, Some(n)))
  }

  /** What pods on the nodes hold already. */
  function CommittedIn(requests: Option<seq<string>>, pods: Option<seq<string>>): Option<Figures> {
    var amounts := if requests.None? then None else CommittedBy(requests.value);
    var taken := if pods.None? then None else Taken(pods.value);
    if (requests.Some? && amounts.None?) || (pods.Some? && taken.None?) then None
    else if amounts.None? then Some(Figures(None, None, None, taken))
    else Some(Figures(Some(amounts.value.cpu), Some(amounts.value.memory), Some(amounts.value.storage), taken))
  }

  function ClusterIn(nodes: Option<seq<string>>, requests: Option<seq<string>>, pods: Option<seq<string>>)
    : Option<map<Dimension, Limit>>
  {
    var hard :- AllocatableIn(nodes);
    var used :- CommittedIn(requests, pods);
    Some(map[Cpu := Limit(hard.cpu, used.cpu), Memory := Limit(hard.memory, used.memory),
             Storage := Limit(hard.storage, used.storage), PodCount := Limit(hard.pods, used.pods)])
  }

  /** The files of one run: a file that is absent, unreadable or blank is None. */
  datatype Files = Files(nodes: Option<seq<string>>, requests: Option<seq<string>>, pods: Option<seq<string>>)

  method ReadAllocatable(nodes: Option<seq<string>>) returns (r: Option<Figures>)
    ensures r == AllocatableIn(nodes)
  {
    if nodes.None? {
      return Some(UNKNOWN);
    }
    var offer := SumNodeAllocatable(nodes.value);
    if offer.None? {
      return None;
    }
    var slots := SumNodePodSlots(nodes.value);
    if slots.Broken? {
      return None;
    }
    return Some(Figures(Some(offer.value.cpu), Some(offer.value.memory), offer.value.storage,
                        if slots.Offered? then Some(slots.pods) else None));
  }

  method ReadCommitted(requests: Option<seq<string>>, pods: Option<seq<string>>) returns (r: Option<Figures>)
    ensures r == CommittedIn(requests, pods)
  {
    var figures := UNKNOWN;
    if requests.Some? {
      var amounts := SumScheduledPodRequests(requests.value);
      if amounts.None? {
        return None;
      }
      figures := Figures(Some(amounts.value.cpu), Some(amounts.value.memory), Some(amounts.value.storage), None);
    }
    if pods.Some? {
      var taken := CountScheduledPods(pods.value);
      if taken.None? {
        return None;
      }
      figures := figures.(pods := taken);
    }
    return Some(figures);
  }

  method ReadCluster(files: Files) returns (r: Option<map<Dimension, Limit>>)
    ensures r == ClusterIn(files.nodes, files.requests, files.pods)
  {
    var hard := ReadAllocatable(files.nodes);
    if hard.None? {
      return None;
    }
    var used := ReadCommitted(files.requests, files.pods);
    if used.None? {
      return None;
    }
    var h, u := hard.value, used.value;
    return Some(map[Cpu := Limit(h.cpu, u.cpu), Memory := Limit(h.memory, u.memory),
                    Storage := Limit(h.storage, u.storage), PodCount := Limit(h.pods, u.pods)]);
  }

  /** What the texts say, as the run takes it. */
  function InputsOf(declared: Option<seq<Workload>>, slot: Option<Slot>,
                    hard: map<Dimension, string>, used: map<Dimension, string>, files: Files): Inputs
  {
    Inputs(declared, slot, ReadQuota(hard), ReadQuota(used), ClusterIn(files.nodes, files.requests, files.pods))
  }

  /**
   From the lines to the verdict: exit 0 means that all eight limits were reported, and that no instant
   the interleaved rollouts can reach commits more than any of them; and it is given whenever that is so.
   */
  method RunOnFiles(declared: Option<seq<Workload>>, slot: Option<Slot>,
                    hard: map<Dimension, string>, used: map<Dimension, string>, files: Files) returns (code: int)
    ensures var i := InputsOf(declared, slot, hard, used, files);
      && (code == 3 <==> !Usable(i))
      && (code == 0 <==> Usable(i) && AllFit(i))
      && (code == 1 <==> Usable(i) && SomeExceeded(i))
      && (code == 2 <==> Usable(i) && !AllFit(i) && !SomeExceeded(i))
      && (Usable(i) && DistinctNames(declared.value) ==>
            (code == 0 <==> forall d: Dimension ::
               && StaysWithin(declared.value, slot.value, d, QuotaLimit(i, d))
               && StaysWithin(declared.value, slot.value, d, ClusterLimit(i, d))))
  {
    var cluster := ReadCluster(files);
    var i := Inputs(declared, slot, ReadQuota(hard), ReadQuota(used), cluster);
    code := Run(i);
    if Usable(i) && DistinctNames(declared.value) {
      ExitOkIsABound(i);
    }
  }
}
