/** `handlePatroniBalancing` of src/cluster/leaderManager.ts. */
module PatroniBalancing {
  import opened Wrappers
  import opened Models
  import opened Registries
  import opened LeaderReports

  /** The least number per node that is enough for all Patroni services. */
  function OptimalCount(services: Registry, reports: seq<Report>): (count: nat)
    requires reports != []
    ensures |PatroniIds(services)| <= count * |reports| < |PatroniIds(services)| + |reports|
  {
    CeilDiv(|PatroniIds(services)|, |reports|)
  }

  /** The position of the first report with more leaderships than `bound`. */
  function FirstAbove(reports: seq<Report>, bound: nat): (at: Option<nat>)
    ensures at.Some? ==> at.value < |reports| && reports[at.value].Count() > bound
    ensures at.Some? ==> forall i :: 0 <= i < at.value ==> reports[i].Count() <= bound
    ensures at.None? ==> forall i :: 0 <= i < |reports| ==> reports[i].Count() <= bound
  {
    if reports == [] then None
    else if reports[0].Count() > bound then Some(0)
    else match FirstAbove(reports[1..], bound)
      case None => None
      case Some(at) => Some(at + 1)
  }

  /** The position of the first report of another node with fewer leaderships than `bound`. */
  function FirstBelow(reports: seq<Report>, bound: nat, otherThan: int): (at: Option<nat>)
    ensures at.Some? ==> at.value < |reports| && reports[at.value].Count() < bound && reports[at.value].nodeId != otherThan
    ensures at.Some? ==> forall i :: 0 <= i < at.value ==> reports[i].nodeId == otherThan || reports[i].Count() >= bound
    ensures at.None? ==> forall i :: 0 <= i < |reports| && reports[i].nodeId != otherThan ==> reports[i].Count() >= bound
  {
    if reports == [] then None
    else if reports[0].nodeId != otherThan && reports[0].Count() < bound then Some(0)
    else match FirstBelow(reports[1..], bound, otherThan)
      case None => None
      case Some(at) => Some(at + 1)
  }

  /** Goes through the services of the overloaded node and promotes the candidate for the first healthy one. */
  function TryServices(services: Registry, ids: seq<string>, candidate: int, env: Outcomes, log: seq<Action>)
    : (Ending, seq<Action>)
  {
    if ids == [] then (NothingDone, log)
    else if !IsPatroni(services, ids[0]) then TryServices(services, ids[1..], candidate, env, log)
    else
      var health := env.health(|log|);
      var checked := log + [CheckHealth(ids[0], health)];
      if health.LeaderUnknown? then (Threw, checked)
      else if health.Unhealthy? then TryServices(services, ids[1..], candidate, env, checked)
      else
        var accepted := env.promotion(|checked|);
        (if accepted then Acted else NothingDone, checked + [Promote(ids[0], candidate, accepted)])
  }

  function Balance(services: Registry, reports: seq<Report>, env: Outcomes, log: seq<Action>): (Ending, seq<Action>) {
    if reports == [] || PatroniIds(services) == {} then (NothingDone, log) else
    var bound := OptimalCount(services, reports);
    match FirstAbove(reports, bound)
    case None => (NothingDone, log)
    case Some(overloaded) =>
      match FirstBelow(reports, bound, reports[overloaded].nodeId)
      case None => (NothingDone, log)
      case Some(candidate) =>
        TryServices(services, reports[overloaded].leaderships, reports[candidate].nodeId, env, log)
  }

  method HandlePatroniBalancing(services: Registry, reports: seq<Report>, env: Outcomes, log: seq<Action>)
    returns (ending: Ending, requests: seq<Action>)
    ensures (ending, requests) == Balance(services, reports, env, log)
  {
    requests := log;
    if reports == [] {
      return NothingDone, requests;
    }
    var patroniServices := PatroniIds(services);
    if patroniServices == {} {
      return NothingDone, requests;
    }
    var optimal := OptimalCount(services, reports);
    var overloaded := FirstAbove(reports, optimal);
    if overloaded.None? {
      return NothingDone, requests;
    }
    var candidate := FirstBelow(reports, optimal, reports[overloaded.value].nodeId);
    if candidate.None? {
      return NothingDone, requests;
    }
    var ids, target := reports[overloaded.value].leaderships, reports[candidate.value].nodeId;
    for i := 0 to |ids|
      invariant TryServices(services, ids, target, env, log) == TryServices(services, ids[i..], target, env, requests)
    {
      if IsPatroni(services, ids[i]) {
        var health := env.health(|requests|);
        requests := requests + [CheckHealth(ids[i], health)];
        if health.LeaderUnknown? {
          return Threw, requests;
        }
        if health.Healthy? {
          var accepted := env.promotion(|requests|);
          requests := requests + [Promote(ids[i], target, accepted)];
          return if accepted then Acted else NothingDone, requests;
        }
      }
    }
    return NothingDone, requests;
  }

  // What a round requests

  /** The first check that does not answer `Unhealthy` decides: if it fails, the round throws; if it answers `Healthy`, the
      candidate is promoted for this service, and the round ends, accepted or not. Without such a check nothing is
      promoted. */
  ghost predicate DecidedAt(ids: seq<string>, candidate: int, env: Outcomes, log: seq<Action>, at: nat, ending: Ending,
                            requests: seq<Action>) {
    && at <= |ids| && (forall n :: |log| <= n < |log| + at ==> env.health(n).Unhealthy?)
    && if at == |ids| then ending.NothingDone? && requests == log + Checks(ids, env, |log|)
       else
         var checked := log + Checks(ids, env, |log|)[..at + 1];
         match env.health(|log| + at)
         case Unhealthy => false
         case LeaderUnknown => ending.Threw? && requests == checked
         case Healthy =>
           var accepted := env.promotion(|log| + at + 1);
           && ending == (if accepted then Acted else NothingDone)
           && requests == checked + [Promote(ids[at], candidate, accepted)]
  }

  lemma {:induction false} TryServicesMeans(services: Registry, ids: seq<string>, candidate: int, env: Outcomes,
                                            log: seq<Action>)
    returns (at: nat)
    ensures var (ending, requests) := TryServices(services, ids, candidate, env, log);
            DecidedAt(Configured(services, ids), candidate, env, log, at, ending, requests)
    decreases |ids|
  {
    hide IsPatroni, DecidedAt, Checks;
    var configured := Configured(services, ids);
    var (ending, requests) := TryServices(services, ids, candidate, env, log);
    if ids == [] {
      at := 0;
      NothingDecided(candidate, env, log);
    } else if !IsPatroni(services, ids[0]) {
      at := TryServicesMeans(services, ids[1..], candidate, env, log);
      assert configured == Configured(services, ids[1..]);
    } else {
      assert configured[0] == ids[0] && configured[1..] == Configured(services, ids[1..]);
      if env.health(|log|).Unhealthy? {
        at := TryServicesMeans(services, ids[1..], candidate, env, log + [CheckHealth(ids[0], Unhealthy)]);
        DecisionStep(configured, candidate, env, log, at, ending, requests);
        at := at + 1;
      } else {
        at := 0;
        DecidedNow(configured, candidate, env, log);
      }
    }
  }

  lemma NothingDecided(candidate: int, env: Outcomes, log: seq<Action>)
    ensures DecidedAt([], candidate, env, log, 0, NothingDone, log)
  {
    assert log + Checks([], env, |log|) == log;
  }

  lemma DecidedNow(ids: seq<string>, candidate: int, env: Outcomes, log: seq<Action>)
    requires ids != [] && !env.health(|log|).Unhealthy?
    ensures var health, accepted := env.health(|log|), env.promotion(|log| + 1);
            var checked := log + [CheckHealth(ids[0], health)];
            && (health.LeaderUnknown? ==> DecidedAt(ids, candidate, env, log, 0, Threw, checked))
            && (health.Healthy? ==>
                  DecidedAt(ids, candidate, env, log, 0, if accepted then Acted else NothingDone,
                            checked + [Promote(ids[0], candidate, accepted)]))
  {
    assert log + Checks(ids, env, |log|)[..1] == log + [CheckHealth(ids[0], env.health(|log|))];
  }

  lemma DecisionStep(ids: seq<string>, candidate: int, env: Outcomes, log: seq<Action>, later: nat, ending: Ending,
                     requests: seq<Action>)
    requires ids != [] && env.health(|log|).Unhealthy?
    requires DecidedAt(ids[1..], candidate, env, log + [CheckHealth(ids[0], env.health(|log|))], later, ending, requests)
    ensures DecidedAt(ids, candidate, env, log, later + 1, ending, requests)
  {
    var checked := log + [CheckHealth(ids[0], env.health(|log|))];
    assert Checks(ids, env, |log|)[..|ids|] == Checks(ids, env, |log|);
    assert Checks(ids[1..], env, |checked|)[..|ids| - 1] == Checks(ids[1..], env, |checked|);
    ChecksStep(ids, env, log, if later == |ids| - 1 then |ids| else later + 2);
  }

  /** A round picks the first node above the optimal count and the first other node below it, and then tries the Patroni
      services of the former in order; without such a pair it requests nothing. */
  lemma BalanceMeans(services: Registry, reports: seq<Report>, env: Outcomes, log: seq<Action>, from: nat, to: nat)
    returns (at: nat)
    requires from < |reports| && to < |reports| && exists id :: id in services && services[id].Patroni?
    requires var bound := OptimalCount(services, reports);
             && reports[from].Count() > bound && (forall i :: 0 <= i < from ==> reports[i].Count() <= bound)
             && reports[to].Count() < bound && reports[to].nodeId != reports[from].nodeId
             && forall i :: 0 <= i < to ==> reports[i].Count() >= bound || reports[i].nodeId == reports[from].nodeId
    ensures var (ending, requests) := Balance(services, reports, env, log);
            DecidedAt(Configured(services, reports[from].leaderships), reports[to].nodeId, env, log, at, ending, requests)
  {
    hide TryServices, CeilDiv, DecidedAt, Configured, OptimalCount;
    var id :| id in services && services[id].Patroni?;
    assert id in PatroniIds(services);
    at := TryServicesMeans(services, reports[from].leaderships, reports[to].nodeId, env, log);
  }

  lemma NothingToBalance(services: Registry, reports: seq<Report>, env: Outcomes, log: seq<Action>)
    ensures var idle := Balance(services, reports, env, log) == (NothingDone, log);
            && (reports == [] || PatroniIds(services) == {} ==> idle)
            && (reports != [] ==>
                  var bound := OptimalCount(services, reports);
                  (forall i, j :: 0 <= i < |reports| && 0 <= j < |reports| &&
                                  reports[i].Count() > bound && reports[j].Count() < bound ==>
                                    reports[i].nodeId == reports[j].nodeId) ==> idle)
  {
    hide TryServices, CeilDiv;
  }

  // The pigeonhole argument

  /** Reports name configured Patroni services only, and each service is led by at most one reporting node. */
  ghost predicate Consistent(services: Registry, reports: seq<Report>) {
    && reports != []
    && DistinctNodes(reports)
    && LedOnce(reports)
    && Led(reports) <= PatroniIds(services)
  }

  ghost predicate DistinctNodes(reports: seq<Report>) {
    forall i, j :: 0 <= i < j < |reports| ==> reports[i].nodeId != reports[j].nodeId
  }

  ghost predicate LedOnce(reports: seq<Report>) {
    forall i, j, a, b ::
      0 <= i < |reports| && 0 <= j < |reports| && 0 <= a < reports[i].Count() && 0 <= b < reports[j].Count() &&
      reports[i].leaderships[a] == reports[j].leaderships[b]
      ==> i == j && a == b
  }

  function Elements(ids: seq<string>): set<string> {
    set id | id in ids
  }

  /** All services that some reporting node leads. */
  function Led(reports: seq<Report>): set<string> {
    if reports == [] then {} else Led(reports[..|reports| - 1]) + Elements(reports[|reports| - 1].leaderships)
  }

  lemma {:induction false} DistinctCount(ids: seq<string>)
    requires forall a, b :: 0 <= a < b < |ids| ==> ids[a] != ids[b]
    ensures |Elements(ids)| == |ids|
  {
    if ids != [] {
      var last := |ids| - 1;
      DistinctCount(ids[..last]);
      assert Elements(ids) == Elements(ids[..last]) + {ids[last]};
    }
  }

  lemma {:induction false} LedMembers(reports: seq<Report>)
    ensures forall id :: id in Led(reports) <==> exists i :: 0 <= i < |reports| && id in reports[i].leaderships
  {
    if reports != [] {
      var front := reports[..|reports| - 1];
      LedMembers(front);
      assert forall i :: 0 <= i < |front| ==> front[i] == reports[i];
      assert reports[|reports| - 1] in reports;
    }
  }

  /** Counting leaderships is counting services when no service is led twice. */
  lemma {:induction false} LedCount(reports: seq<Report>)
    requires LedOnce(reports)
    ensures |Led(reports)| == TotalCount(reports)
  {
    if reports != [] {
      var last := |reports| - 1;
      var front := reports[..last];
      assert LedOnce(front);
      LedCount(front);
      DistinctCount(reports[last].leaderships);
      LedMembers(front);
      assert Led(front) !! Elements(reports[last].leaderships);
    }
  }

  lemma {:induction false} TotalAtLeast(reports: seq<Report>, bound: nat)
    requires forall i :: 0 <= i < |reports| ==> reports[i].Count() >= bound
    ensures TotalCount(reports) >= bound * |reports|
    ensures (exists i :: 0 <= i < |reports| && reports[i].Count() > bound) ==> TotalCount(reports) > bound * |reports|
  {
    if reports != [] {
      TotalAtLeast(reports[..|reports| - 1], bound);
      assert bound * |reports| == bound * (|reports| - 1) + bound;
    }
  }

  lemma SubsetCount(a: set<string>, b: set<string>)
    requires a <= b
    ensures |a| <= |b|
  {
    assert b == a + (b - a);
  }

  /** A node above the optimal count implies another one below it, so the exit without a candidate is never taken. */
  lemma CandidateExists(services: Registry, reports: seq<Report>)
    requires Consistent(services, reports)
    requires FirstAbove(reports, OptimalCount(services, reports)).Some?
    ensures var bound := OptimalCount(services, reports);
            FirstBelow(reports, bound, reports[FirstAbove(reports, bound).value].nodeId).Some?
  {
    hide LedOnce, Led, CeilDiv;
    LedCount(reports);
    SubsetCount(Led(reports), PatroniIds(services));
    NobodyBelow(reports, OptimalCount(services, reports));
  }

  /** Without anyone below the bound, a node above it makes the total exceed all shares. */
  lemma NobodyBelow(reports: seq<Report>, bound: nat)
    requires DistinctNodes(reports) && FirstAbove(reports, bound).Some?
    requires TotalCount(reports) <= bound * |reports|
    ensures FirstBelow(reports, bound, reports[FirstAbove(reports, bound).value].nodeId).Some?
  {
    var overloaded := FirstAbove(reports, bound).value;
    assert reports[overloaded].Count() > bound;
    if forall i :: 0 <= i < |reports| && reports[i].nodeId != reports[overloaded].nodeId ==> reports[i].Count() >= bound {
      TotalAtLeast(reports, bound);
    }
  }

  // Moving one leadership

  /** The first patroni service of the list whose health check succeeds is the one that is promoted. */
  lemma {:induction false} TriedService(services: Registry, ids: seq<string>, candidate: int, env: Outcomes, log: seq<Action>)
    returns (service: string)
    requires TryServices(services, ids, candidate, env, log).0.Acted?
    ensures service in ids && IsPatroni(services, service)
    ensures var requests := TryServices(services, ids, candidate, env, log).1;
            |requests| >= 2 && requests[|requests| - 2..] == [CheckHealth(service, Healthy), Promote(service, candidate, true)]
    decreases |ids|
  {
    var checked := log + [CheckHealth(ids[0], env.health(|log|))];
    if IsPatroni(services, ids[0]) && env.health(|log|).Healthy? {
      service := ids[0];
    } else {
      service := TriedService(services, ids[1..], candidate, env, if IsPatroni(services, ids[0]) then checked else log);
    }
  }

  /** A round that balances: it promotes, for a service of an overloaded node, a node below the optimal count. */
  ghost predicate BalancesTo(services: Registry, reports: seq<Report>, env: Outcomes, log: seq<Action>,
                             from: nat, to: nat, service: string) {
    && reports != [] && Balance(services, reports, env, log).0.Acted?
    && from < |reports| && to < |reports|
    && reports[from].Count() > OptimalCount(services, reports) > reports[to].Count()
    && service in reports[from].leaderships
    && var requests := Balance(services, reports, env, log).1;
       requests != [] && requests[|requests| - 1] == Promote(service, reports[to].nodeId, true)
  }

  lemma SuccessfulRound(services: Registry, reports: seq<Report>, env: Outcomes, log: seq<Action>)
    returns (from: nat, to: nat, service: string)
    requires Balance(services, reports, env, log).0.Acted?
    ensures BalancesTo(services, reports, env, log, from, to, service)
  {
    var bound := OptimalCount(services, reports);
    from := FirstAbove(reports, bound).value;
    to := FirstBelow(reports, bound, reports[from].nodeId).value;
    service := TriedService(services, reports[from].leaderships, reports[to].nodeId, env, log);
  }

  /** Every health check of the round succeeds, and every promotion is accepted. */
  ghost predicate Favourable(env: Outcomes) {
    forall n :: env.health(n) == Healthy && env.promotion(n)
  }

  lemma {:induction false} TriesUntilActed(services: Registry, ids: seq<string>, candidate: int, env: Outcomes, log: seq<Action>)
    requires Favourable(env) && exists i :: 0 <= i < |ids| && IsPatroni(services, ids[i])
    ensures TryServices(services, ids, candidate, env, log).0.Acted?
    decreases |ids|
  {
    if !IsPatroni(services, ids[0]) {
      var i :| 0 <= i < |ids| && IsPatroni(services, ids[i]);
      assert ids[1..][i - 1] == ids[i];
      TriesUntilActed(services, ids[1..], candidate, env, log);
    }
  }

  /** Progress: with consistent reports and favourable outcomes a round acts exactly when some node is above its share. */
  lemma RoundActs(services: Registry, reports: seq<Report>, env: Outcomes, log: seq<Action>)
    requires Consistent(services, reports) && Favourable(env)
    ensures Balance(services, reports, env, log).0.Acted? <==>
            exists i :: 0 <= i < |reports| && reports[i].Count() > OptimalCount(services, reports)
  {
    hide LedOnce, TryServices, CeilDiv;
    var bound := OptimalCount(services, reports);
    if FirstAbove(reports, bound).Some? {
      var from := FirstAbove(reports, bound).value;
      CandidateExists(services, reports);
      LedMembers(reports);
      assert reports[from].leaderships[0] in reports[from].leaderships;
      assert reports[from].leaderships[0] in Led(reports);
      TriesUntilActed(services, reports[from].leaderships,
                      reports[FirstBelow(reports, bound, reports[from].nodeId).value].nodeId, env, log);
    }
  }

  /** What the nodes report once Patroni has moved the leadership: the same, in any order, but for this service. */
  ghost predicate Moved(before: seq<Report>, after: seq<Report>, from: nat, to: nat, service: string) {
    && |before| == |after| && from < |before| && to < |before| && from != to
    && service in before[from].leaderships
    && (forall i :: 0 <= i < |before| ==> after[i].nodeId == before[i].nodeId)
    && Elements(after[from].leaderships) == Elements(before[from].leaderships) - {service}
    && Elements(after[to].leaderships) == Elements(before[to].leaderships) + {service}
    && forall i :: 0 <= i < |before| && i != from && i != to ==>
         Elements(after[i].leaderships) == Elements(before[i].leaderships)
  }

  /** How far the nodes among the first `n` reports are above the bound, in total. */
  function Excess(reports: seq<Report>, bound: nat, n: nat): nat
    requires n <= |reports|
  {
    if n == 0 then 0
    else Excess(reports, bound, n - 1) + if reports[n - 1].Count() > bound then reports[n - 1].Count() - bound else 0
  }

  lemma MovedCounts(before: seq<Report>, after: seq<Report>, from: nat, to: nat, service: string, i: nat)
    requires LedOnce(before) && LedOnce(after) && Moved(before, after, from, to, service) && i < |before|
    ensures after[i].Count() == before[i].Count() + (if i == to then 1 else 0) - (if i == from then 1 else 0)
  {
    DistinctCount(before[i].leaderships);
    DistinctCount(after[i].leaderships);
    assert service in Elements(before[from].leaderships);
    if i == to {
      assert service !in before[to].leaderships;
    }
  }

  lemma {:induction false} MoveLowersExcess(before: seq<Report>, after: seq<Report>, from: nat, to: nat, service: string,
                                            bound: nat, n: nat)
    requires LedOnce(before) && LedOnce(after) && Moved(before, after, from, to, service)
    requires before[from].Count() > bound > before[to].Count() && n <= |before|
    ensures Excess(before, bound, n) == Excess(after, bound, n) + if from < n then 1 else 0
  {
    hide LedOnce, Moved;
    if n > 0 {
      MoveLowersExcess(before, after, from, to, service, bound, n - 1);
      assert |before| == |after| by {
        MovedSize(before, after, from, to, service);
      }
      MovedCounts(before, after, from, to, service, n - 1);
    } else {
      MovedSize(before, after, from, to, service);
    }
  }

  lemma MovedSize(before: seq<Report>, after: seq<Report>, from: nat, to: nat, service: string)
    requires Moved(before, after, from, to, service)
    ensures |before| == |after|
  {
  }

  lemma {:induction false} NoExcess(reports: seq<Report>, bound: nat, n: nat)
    requires n <= |reports|
    ensures Excess(reports, bound, n) == 0 <==> forall i :: 0 <= i < n ==> reports[i].Count() <= bound
  {
    if n > 0 {
      NoExcess(reports, bound, n - 1);
    }
  }

  /** Consecutive rounds that each balance successfully, with consistent reports in between. */
  ghost predicate BalancingRun(services: Registry, rounds: seq<seq<Report>>) {
    && rounds != []
    && (forall r :: 0 <= r < |rounds| ==> Consistent(services, rounds[r]))
    && forall r :: 0 <= r < |rounds| - 1 ==> RoundStep(services, rounds[r], rounds[r + 1])
  }

  ghost predicate RoundStep(services: Registry, before: seq<Report>, after: seq<Report>) {
    exists env, log, from, to, service ::
      BalancesTo(services, before, env, log, from, to, service) && Moved(before, after, from, to, service)
  }

  lemma RoundLowersExcess(services: Registry, before: seq<Report>, after: seq<Report>)
    requires Consistent(services, before) && Consistent(services, after) && RoundStep(services, before, after)
    ensures |before| == |after|
    ensures var bound := OptimalCount(services, before);
            Excess(before, bound, |before|) == Excess(after, bound, |after|) + 1
  {
    hide LedOnce, Led, Balance, CeilDiv;
    var env, log, from, to, service :|
      BalancesTo(services, before, env, log, from, to, service) && Moved(before, after, from, to, service);
    MoveLowersExcess(before, after, from, to, service, OptimalCount(services, before), |before|);
  }

  /** Balancing terminates at the bound: every successful round uses up exactly one unit of excess. When none is left,
      no node leads more than its share and no round acts; while some is left, a candidate exists. */
  lemma {:induction false} BalancingTerminates(services: Registry, rounds: seq<seq<Report>>)
    requires BalancingRun(services, rounds)
    ensures var first, last := rounds[0], rounds[|rounds| - 1]; var bound := OptimalCount(services, first);
            && |last| == |first|
            && Excess(first, bound, |first|) == Excess(last, bound, |last|) + |rounds| - 1
            && (Excess(last, bound, |last|) == 0 <==> forall i :: 0 <= i < |last| ==> last[i].Count() <= bound)
            && (Excess(last, bound, |last|) == 0 <==> FirstAbove(last, OptimalCount(services, last)).None?)
  {
    hide Consistent, RoundStep, CeilDiv;
    var last := rounds[|rounds| - 1];
    assert Consistent(services, last) && Consistent(services, rounds[0]);
    ConsistentNonEmpty(services, last);
    ConsistentNonEmpty(services, rounds[0]);
    if |rounds| > 1 {
      var front := rounds[..|rounds| - 1];
      assert BalancingRun(services, front);
      BalancingTerminates(services, front);
      var previous := front[|front| - 1];
      assert RoundStep(services, previous, last) && Consistent(services, previous);
      ConsistentNonEmpty(services, previous);
      RoundLowersExcess(services, previous, last);
    }
    NoExcess(last, OptimalCount(services, rounds[0]), |last|);
  }

  lemma ConsistentNonEmpty(services: Registry, reports: seq<Report>)
    requires Consistent(services, reports)
    ensures reports != []
  {
  }
}
