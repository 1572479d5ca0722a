/** `allocatePort` of src/cluster/config.ts: keep a requested port when possible, else take the lowest free one. */
module PortAllocation {
  import opened Wrappers

  /** The lowest port of `start..end` that is not in `used`. */
  function LowestFree(used: set<int>, start: int, end: int): (port: Option<int>)
    ensures port.Some? ==> start <= port.value <= end && port.value !in used
    ensures port.Some? ==> forall p :: start <= p < port.value ==> p in used
    ensures port.None? ==> forall p :: start <= p <= end ==> p in used
    decreases end - start, used
  {
    if start > end then None
    else if start !in used then Some(start)
    else LowestFree(used, start + 1, end)
  }

  predicate Grantable(used: set<int>, start: int, end: int, requested: Option<int>) {
    requested.Some? && start <= requested.value <= end && requested.value !in used
  }

  /** The requested port when it is in range and free, else the lowest free one. */
  function Allocate(used: set<int>, start: int, end: int, requested: Option<int>): Option<int> {
    if Grantable(used, start, end, requested) then requested else LowestFree(used, start, end)
  }

  /** The requested port is granted when it is in range and free; else the lowest free port is, if there is one. */
  lemma AllocateMeans(used: set<int>, start: int, end: int, requested: Option<int>)
    ensures var port := Allocate(used, start, end, requested);
            && (port.Some? ==> start <= port.value <= end && port.value !in used)
            && (requested.Some? && start <= requested.value <= end && requested.value !in used ==> port == requested)
            && (port.Some? && port != requested ==> forall p :: start <= p < port.value ==> p in used)
            && (port.None? ==> forall p :: start <= p <= end ==> p in used)
  {
  }

  /** The set of used ports that chained allocations share and extend. */
  class UsedPorts {
    var ports: set<int>

    constructor (ports: set<int>)
      ensures this.ports == ports
    {
      this.ports := ports;
    }
  }

  /** `None` is the thrown ServicePortAllocationError. */
  method AllocatePort(used: UsedPorts, start: int, end: int, requested: Option<int>) returns (port: Option<int>)
    modifies used
    ensures port == Allocate(old(used.ports), start, end, requested)
    ensures used.ports == old(used.ports) + (if port.Some? then {port.value} else {})
  {
    if requested.Some? && requested.value >= start && requested.value <= end && requested.value !in used.ports {
      used.ports := used.ports + {requested.value};
      return requested;
    }
    var candidate := start;
    while candidate <= end
      invariant start <= candidate
      invariant used.ports == old(used.ports)
      invariant LowestFree(used.ports, start, end) == LowestFree(used.ports, candidate, end)
      decreases end - candidate
    {
      if candidate !in used.ports {
        used.ports := used.ports + {candidate};
        return Some(candidate);
      }
      candidate := candidate + 1;
    }
    return None;
  }

  /** The ports of `used` that lie in `start..end`. */
  function Within(used: set<int>, start: int, end: int): set<int> {
    set port | port in used && start <= port <= end
  }

  /** A range holds no more ports than it has numbers, and as many only when it is full. */
  lemma {:induction false} WithinSize(used: set<int>, start: int, end: int)
    requires start <= end + 1
    ensures |Within(used, start, end)| <= end - start + 1
    ensures |Within(used, start, end)| == end - start + 1 <==> forall p :: start <= p <= end ==> p in used
    decreases end - start
  {
    if start > end {
      assert Within(used, start, end) == {};
    } else {
      WithinSize(used, start, end - 1);
      var last := if end in used then {end} else {};
      assert Within(used, start, end) == Within(used, start, end - 1) + last;
    }
  }

  /** The search fails exactly when the used ports fill the range. */
  lemma FailsOnlyWhenFull(used: set<int>, start: int, end: int)
    requires start <= end + 1
    ensures LowestFree(used, start, end).Some? <==> |Within(used, start, end)| < end - start + 1
  {
    WithinSize(used, start, end);
  }

  /** Fewer used ports than `start..bound` has room for keep the lowest free port at or below `bound`. */
  lemma LowestFreeStaysBelow(used: set<int>, start: int, bound: int, end: int)
    requires start <= bound <= end
    requires |Within(used, start, bound)| < bound - start + 1
    ensures var port := LowestFree(used, start, end); port.Some? && port.value <= bound
  {
    WithinSize(used, start, bound);
  }

  lemma WithinAdded(used: set<int>, port: int, start: int, end: int)
    requires port !in used
    ensures |Within(used + {port}, start, end)| == |Within(used, start, end)| + if start <= port <= end then 1 else 0
  {
    assert Within(used + {port}, start, end) ==
           Within(used, start, end) + if start <= port <= end then {port} else {};
  }

  lemma WithinNarrowed(used: set<int>, start: int, later: int, end: int)
    requires start <= later
    ensures |Within(used, later, end)| <= |Within(used, start, end)|
  {
    assert Within(used, start, end) == Within(used, later, end) + (Within(used, start, end) - Within(used, later, end));
  }
}
