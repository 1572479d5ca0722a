/** `handleRequiredReboots` and `checkCluster` of src/cluster/leaderManager.ts: draining a node before its reboot. */
module RebootDrain {
  import opened Wrappers
  import opened Constants
  import opened Models
  import opened Registries
  import opened ClusterStates
  import opened LeaderReports
  import opened PatroniBalancing

  // Selecting the target and the candidates

  predicate MayReboot(state: ClusterState, hour: int, report: Report) {
    && report.requiresRestart
    && (report.nodeId == state.info.coordinatorNodeId ==>
          report.averageLoad <= COORDINATOR_REBOOT_MAX_LOAD && hour == COORDINATOR_REBOOT_HOUR)
    && report.nodeId != state.info.leaderNodeId
  }

  /** Who may go down: a node that asked for a restart and does not lead the cluster, and the coordinator only when it is
      nearly idle and it is 3 AM. */
  ghost predicate MayGoDown(state: ClusterState, hour: int, target: Report) {
    && target.requiresRestart && target.nodeId != state.info.leaderNodeId
    && (target.nodeId == state.info.coordinatorNodeId ==> hour == 3 && target.averageLoad <= 0.2)
  }

  /** The first report of a node that may go down. */
  function FirstToReboot(state: ClusterState, hour: int, reports: seq<Report>): (target: Option<Report>)
    ensures target.Some? ==>
              exists i :: 0 <= i < |reports| && reports[i] == target.value && MayGoDown(state, hour, target.value) &&
                          forall earlier :: 0 <= earlier < i ==> !MayGoDown(state, hour, reports[earlier])
    ensures target.None? ==> forall i :: 0 <= i < |reports| ==> !MayGoDown(state, hour, reports[i])
  {
    if reports == [] then None
    else if MayReboot(state, hour, reports[0]) then Some(reports[0])
    else FirstToReboot(state, hour, reports[1..])
  }

  predicate IsCandidate(report: Report, target: int) {
    report.nodeId != target && !report.requiresRestart
  }

  function Candidates(reports: seq<Report>, target: int): (candidates: seq<Report>)
    ensures forall report :: report in candidates <==> report in reports && report.nodeId != target && !report.requiresRestart
  {
    if reports == [] then []
    else
      assert reports == [reports[0]] + reports[1..];
      (if IsCandidate(reports[0], target) then [reports[0]] else []) + Candidates(reports[1..], target)
  }

  /** Fewer leaderships first, then lower load. */
  predicate Precedes(left: Report, right: Report) {
    if left.Count() != right.Count() then left.Count() < right.Count() else left.averageLoad < right.averageLoad
  }

  /** The head of the stably sorted candidates: it has the fewest leaderships, among those the lowest load, and among those
      it is listed first. */
  function Best(candidates: seq<Report>): (at: nat)
    requires candidates != []
    ensures at < |candidates|
    ensures forall i :: 0 <= i < |candidates| ==>
              || candidates[at].Count() < candidates[i].Count()
              || (candidates[at].Count() == candidates[i].Count() && candidates[at].averageLoad < candidates[i].averageLoad)
              || (candidates[at].Count() == candidates[i].Count() && candidates[at].averageLoad == candidates[i].averageLoad &&
                  at <= i)
  {
    var last := |candidates| - 1;
    if last == 0 then 0 else
    var front := Best(candidates[..last]);
    if Precedes(candidates[last], candidates[front]) then last else front
  }

  // Draining

  function WithLeadership(candidates: seq<Report>, at: nat, service: string): seq<Report>
    requires at < |candidates|
  {
    candidates[at := candidates[at].(leaderships := candidates[at].leaderships + [service])]
  }

  /** The first loop: `Acted` when every configured Patroni service of the target is healthy. */
  function CheckAll(services: Registry, ids: seq<string>, env: Outcomes, log: seq<Action>): (Ending, seq<Action>) {
    if ids == [] then (Acted, log)
    else if !IsPatroni(services, ids[0]) then CheckAll(services, ids[1..], env, log)
    else
      var health := env.health(|log|);
      var checked := log + [CheckHealth(ids[0], health)];
      match health
      case Healthy => CheckAll(services, ids[1..], env, checked)
      case Unhealthy => (NothingDone, checked)
      case LeaderUnknown => (Threw, checked)
  }

  datatype Drained = Drained(complete: bool, candidates: seq<Report>, moved: seq<string>, log: seq<Action>)

  /** The second loop: each service goes to the candidate that is best at that moment. */
  function DrainAll(services: Registry, ids: seq<string>, candidates: seq<Report>, env: Outcomes, log: seq<Action>): Drained {
    if ids == [] then Drained(true, candidates, [], log)
    else if !IsPatroni(services, ids[0]) then DrainAll(services, ids[1..], candidates, env, log)
    else if candidates == [] then Drained(false, candidates, [], log)
    else
      var at := Best(candidates);
      var accepted := env.promotion(|log|);
      var promoted := log + [Promote(ids[0], candidates[at].nodeId, accepted)];
      if !accepted then Drained(false, candidates, [], promoted) else
      var rest := DrainAll(services, ids[1..], WithLeadership(candidates, at, ids[0]), env, promoted);
      rest.(moved := [ids[0]] + rest.moved)
  }

  function Reboots(state: ClusterState, hour: int, reports: seq<Report>, env: Outcomes, log: seq<Action>)
    : (Ending, seq<Action>)
  {
    if |reports| < 2 then (NothingDone, log) else
    match FirstToReboot(state, hour, reports)
    case None => (NothingDone, log)
    case Some(target) =>
      var (checks, checked) := CheckAll(state.services, target.leaderships, env, log);
      if !checks.Acted? then (checks, checked) else
      var drained := DrainAll(state.services, target.leaderships, Candidates(reports, target.nodeId), env, checked);
      if !drained.complete then (NothingDone, drained.log) else
      var accepted := env.reboot(|drained.log|);
      (if accepted then Acted else NothingDone, drained.log + [Reboot(target.nodeId, accepted)])
  }

  /** One round of `checkCluster`: balancing first, and reboots only when balancing did nothing. */
  function Round(state: ClusterState, isLocalLeader: bool, hour: int, reports: seq<Report>, env: Outcomes): (log: seq<Action>) {
    if !isLocalLeader then [] else
    var (balancing, balanced) := Balance(state.services, reports, env, []);
    if balancing.NothingDone? then Reboots(state, hour, reports, env, balanced).1 else balanced
  }

  // What a drain requests

  /** The candidates are the reports at these positions: those of the other nodes without a required restart, in order. */
  ghost predicate Selected(reports: seq<Report>, target: int, candidates: seq<Report>, positions: seq<nat>) {
    && |positions| == |candidates|
    && (forall k :: 0 <= k < |positions| ==> positions[k] < |reports| && candidates[k] == reports[positions[k]])
    && (forall k, l :: 0 <= k < l < |positions| ==> positions[k] < positions[l])
    && forall i :: 0 <= i < |reports| ==>
         (i in positions <==> reports[i].nodeId != target && !reports[i].requiresRestart)
  }

  lemma {:induction false} CandidatesInOrder(reports: seq<Report>, target: int) returns (positions: seq<nat>)
    ensures Selected(reports, target, Candidates(reports, target), positions)
  {
    hide Candidates, Selected;
    if reports == [] {
      positions := [];
      EmptyCandidates(target);
      assert Selected([], target, [], []) by {
        NothingSelected(target);
      }
    } else {
      var front, last := reports[..|reports| - 1], reports[|reports| - 1];
      assert reports == front + [last];
      CandidatesAppend(front, last, target);
      var earlier := CandidatesInOrder(front, target);
      SelectedStep(front, last, target, Candidates(front, target), earlier);
      if IsCandidate(last, target) {
        positions := earlier + [|front|];
      } else {
        positions := earlier;
        assert Candidates(front, target) + [] == Candidates(front, target);
      }
    }
  }

  lemma NothingSelected(target: int)
    ensures Selected([], target, [], [])
  {
  }

  lemma SelectedStep(front: seq<Report>, last: Report, target: int, candidates: seq<Report>, positions: seq<nat>)
    requires Selected(front, target, candidates, positions)
    ensures IsCandidate(last, target) ==>
              Selected(front + [last], target, candidates + [last], positions + [|front|])
    ensures !IsCandidate(last, target) ==> Selected(front + [last], target, candidates, positions)
  {
    var reports := front + [last];
    assert forall i :: 0 <= i < |front| ==> reports[i] == front[i];
    assert forall i :: i in positions ==> i < |front|;
    var more := positions + [|front|];
    assert forall i :: i in more <==> i in positions || i == |front|;
  }

  /** Every service is checked until a check does not answer `Healthy`; `at` is the first such check. */
  ghost predicate CheckedUpTo(ids: seq<string>, env: Outcomes, log: seq<Action>, at: nat, ending: Ending, requests: seq<Action>) {
    && at <= |ids| && (forall n :: |log| <= n < |log| + at ==> env.health(n).Healthy?)
    && if at == |ids| then ending.Acted? && requests == log + Checks(ids, env, |log|)
       else
         && requests == log + Checks(ids, env, |log|)[..at + 1]
         && match env.health(|log| + at)
            case Healthy => false
            case Unhealthy => ending.NothingDone?
            case LeaderUnknown => ending.Threw?
  }

  lemma {:induction false} CheckAllMeans(services: Registry, ids: seq<string>, env: Outcomes, log: seq<Action>) returns (at: nat)
    ensures var (ending, requests) := CheckAll(services, ids, env, log);
            CheckedUpTo(Configured(services, ids), env, log, at, ending, requests)
    decreases |ids|
  {
    hide IsPatroni, CheckedUpTo, Checks;
    var configured := Configured(services, ids);
    var (ending, requests) := CheckAll(services, ids, env, log);
    if ids == [] {
      at := 0;
      NothingChecked(env, log);
    } else if !IsPatroni(services, ids[0]) {
      at := CheckAllMeans(services, ids[1..], env, log);
      assert configured == Configured(services, ids[1..]);
    } else {
      assert configured[0] == ids[0] && configured[1..] == Configured(services, ids[1..]);
      if env.health(|log|).Healthy? {
        at := CheckAllMeans(services, ids[1..], env, log + [CheckHealth(ids[0], Healthy)]);
        CheckStep(configured, env, log, at, ending, requests);
        at := at + 1;
      } else {
        at := 0;
        CheckStops(configured, env, log);
      }
    }
  }

  lemma NothingChecked(env: Outcomes, log: seq<Action>)
    ensures CheckedUpTo([], env, log, 0, Acted, log)
  {
    assert log + Checks([], env, |log|) == log;
  }

  lemma CheckStops(ids: seq<string>, env: Outcomes, log: seq<Action>)
    requires ids != [] && !env.health(|log|).Healthy?
    ensures var health := env.health(|log|);
            CheckedUpTo(ids, env, log, 0, if health.Unhealthy? then NothingDone else Threw, log + [CheckHealth(ids[0], health)])
  {
    assert log + Checks(ids, env, |log|)[..1] == log + [CheckHealth(ids[0], env.health(|log|))];
  }

  lemma CheckStep(ids: seq<string>, env: Outcomes, log: seq<Action>, later: nat, ending: Ending, requests: seq<Action>)
    requires ids != [] && env.health(|log|).Healthy?
    requires CheckedUpTo(ids[1..], env, log + [CheckHealth(ids[0], env.health(|log|))], later, ending, requests)
    ensures CheckedUpTo(ids, env, log, later + 1, ending, requests)
  {
    var checked := log + [CheckHealth(ids[0], env.health(|log|))];
    assert Checks(ids, env, |log|)[..|ids|] == Checks(ids, env, |log|);
    assert Checks(ids[1..], env, |checked|)[..|ids| - 1] == Checks(ids[1..], env, |checked|);
    ChecksStep(ids, env, log, if later == |ids| - 1 then |ids| else later + 2);
  }

  /** The leaderships of a candidate after some services went to the candidates `receivers`. */
  function CountAfter(candidates: seq<Report>, receivers: seq<nat>, i: nat): nat
    requires i < |candidates|
  {
    |candidates[i].leaderships| + multiset(receivers)[i]
  }

  /** At this moment the candidate has the fewest leaderships, among those with as many the lowest load, and among those it is
      listed first. */
  ghost predicate Foremost(candidates: seq<Report>, receivers: seq<nat>, at: nat)
    requires at < |candidates|
  {
    forall i :: 0 <= i < |candidates| ==>
      var count, other := CountAfter(candidates, receivers, at), CountAfter(candidates, receivers, i);
      || count < other
      || (count == other && candidates[at].averageLoad < candidates[i].averageLoad)
      || (count == other && candidates[at].averageLoad == candidates[i].averageLoad && at <= i)
  }

  /** The requests that promote the candidates `receivers` for the services, one after the other. */
  function Promotions(ids: seq<string>, candidates: seq<Report>, receivers: seq<nat>, env: Outcomes, at: nat)
    : (promotions: seq<Action>)
    requires |receivers| <= |ids| && forall k :: 0 <= k < |receivers| ==> receivers[k] < |candidates|
    ensures |promotions| == |receivers|
  {
    seq(|receivers|, k requires 0 <= k < |receivers| =>
      Promote(ids[k], candidates[receivers[k]].nodeId, env.promotion(at + k)))
  }

  /** The services are offered in order, each to the foremost candidate of that moment, until a promotion is refused or nobody
      is there to take them. */
  ghost predicate DrainTrace(ids: seq<string>, candidates: seq<Report>, env: Outcomes, log: seq<Action>, receivers: seq<nat>,
                             complete: bool, requests: seq<Action>) {
    && |receivers| <= |ids|
    && (forall k :: 0 <= k < |receivers| ==>
          receivers[k] < |candidates| && Foremost(candidates, receivers[..k], receivers[k]))
    && requests == log + Promotions(ids, candidates, receivers, env, |log|)
    && (forall n :: |log| <= n < |log| + |receivers| - 1 ==> env.promotion(n))
    && (complete <==> |receivers| == |ids| && (receivers != [] ==> env.promotion(|log| + |receivers| - 1)))
    && (!complete ==> candidates == [] || (receivers != [] && !env.promotion(|log| + |receivers| - 1)))
  }

  lemma {:induction false} DrainPicks(services: Registry, ids: seq<string>, candidates: seq<Report>, env: Outcomes,
                                      log: seq<Action>)
    returns (receivers: seq<nat>)
    ensures var drained := DrainAll(services, ids, candidates, env, log);
            DrainTrace(Configured(services, ids), candidates, env, log, receivers, drained.complete, drained.log)
    decreases |ids|
  {
    hide IsPatroni, DrainTrace, Best, WithLeadership;
    var configured := Configured(services, ids);
    var drained := DrainAll(services, ids, candidates, env, log);
    if ids == [] || (IsPatroni(services, ids[0]) && candidates == []) {
      receivers := [];
      NothingDrained(configured, candidates, env, log);
    } else if !IsPatroni(services, ids[0]) {
      receivers := DrainPicks(services, ids[1..], candidates, env, log);
      assert configured == Configured(services, ids[1..]);
    } else {
      assert configured[0] == ids[0] && configured[1..] == Configured(services, ids[1..]);
      var at := Best(candidates);
      var accepted := env.promotion(|log|);
      var promoted := log + [Promote(ids[0], candidates[at].nodeId, accepted)];
      if accepted {
        var later := DrainPicks(services, ids[1..], WithLeadership(candidates, at, ids[0]), env, promoted);
        receivers := [at] + later;
        DrainStep(configured, candidates, env, log, later, drained.complete, drained.log);
      } else {
        receivers := [at];
        DrainRefused(configured, candidates, env, log);
      }
    }
  }

  lemma NothingDrained(ids: seq<string>, candidates: seq<Report>, env: Outcomes, log: seq<Action>)
    requires ids == [] || candidates == []
    ensures DrainTrace(ids, candidates, env, log, [], ids == [], log)
  {
    assert log + Promotions(ids, candidates, [], env, |log|) == log;
  }

  lemma BestIsForemost(candidates: seq<Report>)
    requires candidates != []
    ensures Foremost(candidates, [], Best(candidates))
  {
  }

  lemma DrainRefused(ids: seq<string>, candidates: seq<Report>, env: Outcomes, log: seq<Action>)
    requires ids != [] && candidates != [] && !env.promotion(|log|)
    ensures var at := Best(candidates);
            DrainTrace(ids, candidates, env, log, [at], false, log + [Promote(ids[0], candidates[at].nodeId, false)])
  {
    hide Foremost, Best;
    var at := Best(candidates);
    BestIsForemost(candidates);
    assert [at][..0] == [];
    assert Promotions(ids, candidates, [at], env, |log|) == [Promote(ids[0], candidates[at].nodeId, false)];
  }

  /** Counting from the first service on comes to the same as counting from the second one with the first handed over. */
  lemma ForemostShifts(candidates: seq<Report>, at: nat, service: string, receivers: seq<nat>, next: nat)
    requires at < |candidates| && next < |candidates|
    requires Foremost(WithLeadership(candidates, at, service), receivers, next)
    ensures Foremost(candidates, [at] + receivers, next)
  {
    var after := WithLeadership(candidates, at, service);
    forall i | 0 <= i < |candidates| ensures CountAfter(after, receivers, i) == CountAfter(candidates, [at] + receivers, i) {
      assert multiset([at] + receivers) == multiset{at} + multiset(receivers);
    }
  }

  lemma DrainStep(ids: seq<string>, candidates: seq<Report>, env: Outcomes, log: seq<Action>, later: seq<nat>,
                  complete: bool, requests: seq<Action>)
    requires ids != [] && candidates != [] && env.promotion(|log|)
    requires var at := Best(candidates);
             DrainTrace(ids[1..], WithLeadership(candidates, at, ids[0]), env,
                        log + [Promote(ids[0], candidates[at].nodeId, true)], later, complete, requests)
    ensures DrainTrace(ids, candidates, env, log, [Best(candidates)] + later, complete, requests)
  {
    hide Foremost, Best;
    var at := Best(candidates);
    var after, receivers := WithLeadership(candidates, at, ids[0]), [at] + later;
    var promoted := log + [Promote(ids[0], candidates[at].nodeId, true)];
    BestIsForemost(candidates);
    forall k | 0 <= k < |receivers| ensures receivers[k] < |candidates| && Foremost(candidates, receivers[..k], receivers[k]) {
      if k == 0 {
        assert receivers[..0] == [];
      } else {
        assert receivers[k] == later[k - 1] && receivers[..k] == [at] + later[..k - 1];
        ForemostShifts(candidates, at, ids[0], later[..k - 1], later[k - 1]);
      }
    }
    var promotions, rest :=
      Promotions(ids, candidates, receivers, env, |log|), Promotions(ids[1..], after, later, env, |promoted|);
    forall k | 0 < k < |receivers| ensures promotions[k] == rest[k - 1] {
      assert after[later[k - 1]].nodeId == candidates[later[k - 1]].nodeId;
    }
    assert promotions == [Promote(ids[0], candidates[at].nodeId, true)] + rest;
    assert log + promotions == promoted + rest;
  }

  /** A round that turns to reboots: all checks for the first node that may go down, then its drain, then the request. */
  ghost predicate RebootTrace(services: Registry, target: Report, candidates: seq<Report>, env: Outcomes, log: seq<Action>,
                              checked: nat, receivers: seq<nat>, ending: Ending, requests: seq<Action>) {
    var ids := Configured(services, target.leaderships);
    if checked < |ids| then CheckedUpTo(ids, env, log, checked, ending, requests)
    else
      var ready := log + Checks(ids, env, |log|);
      && checked == |ids| && CheckedUpTo(ids, env, log, checked, Acted, ready)
      && if requests != [] && requests[|requests| - 1].Reboot? then
           var drained, accepted := requests[..|requests| - 1], env.reboot(|requests| - 1);
           && DrainTrace(ids, candidates, env, ready, receivers, true, drained)
           && requests[|requests| - 1] == Reboot(target.nodeId, accepted)
           && ending == if accepted then Acted else NothingDone
         else ending.NothingDone? && DrainTrace(ids, candidates, env, ready, receivers, false, requests)
  }

  lemma RebootsMeans(state: ClusterState, hour: int, reports: seq<Report>, env: Outcomes, log: seq<Action>, target: nat)
    returns (candidates: seq<Report>, positions: seq<nat>, checked: nat, receivers: seq<nat>)
    requires |reports| >= 2 && target < |reports| && MayGoDown(state, hour, reports[target])
    requires forall i :: 0 <= i < target ==> !MayGoDown(state, hour, reports[i])
    requires forall i :: 0 <= i < |log| ==> !log[i].Reboot?
    ensures Selected(reports, reports[target].nodeId, candidates, positions)
    ensures var (ending, requests) := Reboots(state, hour, reports, env, log);
            RebootTrace(state.services, reports[target], candidates, env, log, checked, receivers, ending, requests)
  {
    hide Candidates, Selected, CheckAll, DrainAll, CheckedUpTo, DrainTrace, Configured, Checks, MayGoDown;
    var node := reports[target];
    var ids := Configured(state.services, node.leaderships);
    candidates := Candidates(reports, node.nodeId);
    positions := CandidatesInOrder(reports, node.nodeId);
    checked := CheckAllMeans(state.services, node.leaderships, env, log);
    var (checks, ready) := CheckAll(state.services, node.leaderships, env, log);
    CheckAllLog(state.services, node.leaderships, env, log);
    CheckedEnding(ids, env, log, checked, checks, ready);
    receivers := DrainPicks(state.services, node.leaderships, candidates, env, ready);
    var drained := DrainAll(state.services, node.leaderships, candidates, env, ready);
    DrainLog(state.services, node.leaderships, candidates, candidates, env, ready);
    var requests := Reboots(state, hour, reports, env, log).1;
    if checks.Acted? && drained.complete {
      assert requests[..|requests| - 1] == drained.log;
    }
  }

  lemma CheckedEnding(ids: seq<string>, env: Outcomes, log: seq<Action>, at: nat, ending: Ending, requests: seq<Action>)
    requires CheckedUpTo(ids, env, log, at, ending, requests)
    ensures at <= |ids| && (ending.Acted? <==> at == |ids|)
    ensures at == |ids| ==> requests == log + Checks(ids, env, |log|)
  {
    hide Checks;
  }

  /** A reboot is requested: when balancing has nothing to do, every check and promotion succeeds, and another node can take
      the services, the first node that may go down is asked to. */
  lemma RoundReboots(state: ClusterState, hour: int, reports: seq<Report>, env: Outcomes, target: nat)
    requires |reports| >= 2 && target < |reports| && MayGoDown(state, hour, reports[target])
    requires forall i :: 0 <= i < target ==> !MayGoDown(state, hour, reports[i])
    requires forall i :: 0 <= i < |reports| ==> reports[i].Count() <= OptimalCount(state.services, reports)
    requires Favourable(env)
    requires (forall id :: id in reports[target].leaderships ==> id !in state.services || !state.services[id].Patroni?) ||
             exists i :: 0 <= i < |reports| && reports[i].nodeId != reports[target].nodeId && !reports[i].requiresRestart
    ensures var requests := Round(state, true, hour, reports, env);
            requests != [] && requests[|requests| - 1] == Reboot(reports[target].nodeId, env.reboot(|requests| - 1))
  {
    hide Configured, Checks, MayGoDown, OptimalCount, Reboots, Balance, Foremost;
    NothingToBalance(state.services, reports, env, []);
    var candidates, positions, checked, receivers := RebootsMeans(state, hour, reports, env, [], target);
    var ids := Configured(state.services, reports[target].leaderships);
    if ids == [] {
    } else {
      assert ids[0] in ids;
      var i :| 0 <= i < |reports| && reports[i].nodeId != reports[target].nodeId && !reports[i].requiresRestart;
      assert i in positions;
    }
  }

  // Greedy bound

  ghost predicate SameNodes(before: seq<Report>, after: seq<Report>) {
    && |before| == |after|
    && forall i :: 0 <= i < |before| ==>
         after[i].nodeId == before[i].nodeId && before[i].leaderships <= after[i].leaderships
  }

  predicate Received(before: seq<Report>, after: seq<Report>, i: nat)
    requires i < |before| && i < |after|
  {
    after[i].Count() > before[i].Count()
  }

  /** A candidate that received a service is at most one above every other candidate. */
  ghost predicate Level(before: seq<Report>, after: seq<Report>)
    requires |before| == |after|
  {
    forall i, other :: 0 <= i < |after| && 0 <= other < |after| && Received(before, after, i) ==>
      after[i].Count() <= after[other].Count() + 1
  }

  lemma {:induction false} TotalAfterOne(candidates: seq<Report>, at: nat, service: string)
    requires at < |candidates|
    ensures TotalCount(WithLeadership(candidates, at, service)) == TotalCount(candidates) + 1
  {
    var last := |candidates| - 1;
    var after := WithLeadership(candidates, at, service);
    if at == last {
      assert after[..last] == candidates[..last];
    } else {
      TotalAfterOne(candidates[..last], at, service);
      assert after[..last] == WithLeadership(candidates[..last], at, service);
    }
  }

  lemma LevelAfterOne(before: seq<Report>, candidates: seq<Report>, service: string)
    requires candidates != [] && SameNodes(before, candidates) && Level(before, candidates)
    ensures var after := WithLeadership(candidates, Best(candidates), service);
            SameNodes(before, after) && Level(before, after)
  {
  }

  lemma {:induction false} DrainKeepsLevel(before: seq<Report>, services: Registry, ids: seq<string>, candidates: seq<Report>,
                                           env: Outcomes, log: seq<Action>)
    requires SameNodes(before, candidates) && Level(before, candidates)
    ensures var drained := DrainAll(services, ids, candidates, env, log);
            && SameNodes(before, drained.candidates) && Level(before, drained.candidates)
            && TotalCount(drained.candidates) == TotalCount(candidates) + |drained.moved|
    decreases |ids|
  {
    hide SameNodes, Level, Best;
    if ids != [] {
      if !IsPatroni(services, ids[0]) {
        DrainKeepsLevel(before, services, ids[1..], candidates, env, log);
      } else if candidates != [] && env.promotion(|log|) {
        var at := Best(candidates);
        LevelAfterOne(before, candidates, ids[0]);
        TotalAfterOne(candidates, at, ids[0]);
        DrainKeepsLevel(before, services, ids[1..], WithLeadership(candidates, at, ids[0]), env,
                        log + [Promote(ids[0], candidates[at].nodeId, true)]);
      }
    }
  }

  function MaxCount(reports: seq<Report>): nat {
    if reports == [] then 0 else
    var front, last := MaxCount(reports[..|reports| - 1]), reports[|reports| - 1].Count();
    if front > last then front else last
  }

  lemma {:induction false} MaxCountBounds(reports: seq<Report>)
    ensures forall i :: 0 <= i < |reports| ==> reports[i].Count() <= MaxCount(reports)
  {
    if reports != [] {
      MaxCountBounds(reports[..|reports| - 1]);
    }
  }

  /** Who received a service ends within the rounded-up average. */
  lemma ReceiverWithinShare(before: seq<Report>, after: seq<Report>, i: nat)
    requires |before| == |after| && Level(before, after) && i < |after| && Received(before, after, i)
    ensures after[i].Count() <= CeilDiv(TotalCount(after), |after|)
  {
    LevelMeansShare(before, after, i);
    CeilDivAtLeast(TotalCount(after), |after|, after[i].Count());
  }

  /** The greedy bound of a drain, whether it completes or stops at a failed promotion: no candidate ends above both the
      initial maximum and the rounded-up average of everything there is to lead, and a candidate that received a service
      is at most one above every other one. */
  lemma DrainGreedyBound(services: Registry, ids: seq<string>, candidates: seq<Report>, env: Outcomes, log: seq<Action>)
    requires candidates != []
    ensures var drained := DrainAll(services, ids, candidates, env, log); var after := drained.candidates;
            && |after| == |candidates|
            && (forall i :: 0 <= i < |after| ==>
                  after[i].Count() <= MaxCount(candidates) ||
                  after[i].Count() <= CeilDiv(TotalCount(candidates) + |drained.moved|, |candidates|))
            && Level(candidates, after)
  {
    hide DrainAll, CeilDiv, TotalCount, MaxCount;
    DrainKeepsLevel(candidates, services, ids, candidates, env, log);
    var after := DrainAll(services, ids, candidates, env, log).candidates;
    MaxCountBounds(candidates);
    forall i | 0 <= i < |after| && Received(candidates, after, i)
      ensures after[i].Count() <= CeilDiv(TotalCount(after), |after|)
    {
      ReceiverWithinShare(candidates, after, i);
    }
  }

  lemma LevelMeansShare(before: seq<Report>, after: seq<Report>, i: nat)
    requires |before| == |after| && Level(before, after) && i < |after| && Received(before, after, i)
    ensures TotalCount(after) > (after[i].Count() - 1) * |after|
  {
    TotalAtLeast(after, after[i].Count() - 1);
  }

  // Conservation

  function AllLeaderships(reports: seq<Report>): multiset<string> {
    if reports == [] then multiset{}
    else AllLeaderships(reports[..|reports| - 1]) + multiset(reports[|reports| - 1].leaderships)
  }

  lemma {:induction false} LeadershipsAfterOne(candidates: seq<Report>, at: nat, service: string)
    requires at < |candidates|
    ensures AllLeaderships(WithLeadership(candidates, at, service)) == AllLeaderships(candidates) + multiset{service}
  {
    var last := |candidates| - 1;
    var front, after := candidates[..last], WithLeadership(candidates, at, service);
    if at == last {
      assert after[..last] == front;
      assert multiset(after[last].leaderships) == multiset(candidates[last].leaderships) + multiset{service};
    } else {
      LeadershipsAfterOne(front, at, service);
      assert after[..last] == WithLeadership(front, at, service) && after[last] == candidates[last];
    }
  }

  lemma {:induction false} DrainAddsMoved(services: Registry, ids: seq<string>, candidates: seq<Report>, env: Outcomes,
                                          log: seq<Action>)
    ensures var drained := DrainAll(services, ids, candidates, env, log);
            AllLeaderships(drained.candidates) == AllLeaderships(candidates) + multiset(drained.moved)
    decreases |ids|
  {
    hide Best, WithLeadership, AllLeaderships, IsPatroni;
    if ids != [] {
      if !IsPatroni(services, ids[0]) {
        DrainAddsMoved(services, ids[1..], candidates, env, log);
      } else if candidates != [] && env.promotion(|log|) {
        var at := Best(candidates);
        LeadershipsAfterOne(candidates, at, ids[0]);
        DrainAddsMoved(services, ids[1..], WithLeadership(candidates, at, ids[0]), env,
                       log + [Promote(ids[0], candidates[at].nodeId, true)]);
      }
    }
  }

  lemma {:induction false} DrainMovesPrefix(services: Registry, ids: seq<string>, candidates: seq<Report>, env: Outcomes,
                                            log: seq<Action>)
    ensures var drained := DrainAll(services, ids, candidates, env, log); var configured := Configured(services, ids);
            drained.moved <= configured && (drained.complete ==> drained.moved == configured)
    decreases |ids|
  {
    hide Best, WithLeadership, IsPatroni;
    if ids != [] {
      if !IsPatroni(services, ids[0]) {
        DrainMovesPrefix(services, ids[1..], candidates, env, log);
      } else if candidates != [] && env.promotion(|log|) {
        var at := Best(candidates);
        DrainMovesPrefix(services, ids[1..], WithLeadership(candidates, at, ids[0]), env,
                         log + [Promote(ids[0], candidates[at].nodeId, true)]);
      }
    }
  }

  /** A drain moves a prefix of the configured services, all of them when it completes, and what it takes from the target
      is exactly what the candidates gain, also when a promotion fails midway. */
  lemma DrainConserves(services: Registry, ids: seq<string>, candidates: seq<Report>, env: Outcomes, log: seq<Action>)
    ensures var drained := DrainAll(services, ids, candidates, env, log); var configured := Configured(services, ids);
            && drained.moved <= configured && (drained.complete ==> drained.moved == configured)
            && AllLeaderships(drained.candidates) + multiset(configured[|drained.moved|..]) ==
               AllLeaderships(candidates) + multiset(configured)
  {
    hide DrainAll, Configured, AllLeaderships;
    DrainAddsMoved(services, ids, candidates, env, log);
    DrainMovesPrefix(services, ids, candidates, env, log);
    var moved, configured := DrainAll(services, ids, candidates, env, log).moved, Configured(services, ids);
    assert configured == moved + configured[|moved|..];
  }

  // Reboot requests

  /** `requests` extends `log`, with no reboot request among the new entries. */
  ghost predicate ExtendsWithoutReboot(log: seq<Action>, requests: seq<Action>) {
    log <= requests && forall i :: |log| <= i < |requests| ==> !requests[i].Reboot?
  }

  lemma {:induction false} TryServicesLog(services: Registry, ids: seq<string>, candidate: int, env: Outcomes, log: seq<Action>)
    ensures ExtendsWithoutReboot(log, TryServices(services, ids, candidate, env, log).1)
    decreases |ids|
  {
    if ids != [] {
      TryServicesLog(services, ids[1..], candidate, env, log);
      TryServicesLog(services, ids[1..], candidate, env, log + [CheckHealth(ids[0], env.health(|log|))]);
    }
  }

  lemma {:induction false} CheckAllLog(services: Registry, ids: seq<string>, env: Outcomes, log: seq<Action>)
    ensures var (ending, requests) := CheckAll(services, ids, env, log);
            && ExtendsWithoutReboot(log, requests)
            && (ending.Acted? ==> forall id :: id in ids && IsPatroni(services, id) ==> CheckHealth(id, Healthy) in requests)
    decreases |ids|
  {
    if ids != [] {
      assert ids == [ids[0]] + ids[1..];
      var checked := log + [CheckHealth(ids[0], env.health(|log|))];
      CheckAllLog(services, ids[1..], env, log);
      CheckAllLog(services, ids[1..], env, checked);
      assert checked[|log|] == CheckHealth(ids[0], env.health(|log|));
    }
  }

  /** The log shows an accepted promotion of one of the candidates for the service. */
  ghost predicate PromotedTo(candidates: seq<Report>, service: string, log: seq<Action>) {
    exists i :: 0 <= i < |candidates| && Promote(service, candidates[i].nodeId, true) in log
  }

  lemma {:induction false} DrainLog(services: Registry, ids: seq<string>, before: seq<Report>, candidates: seq<Report>,
                                    env: Outcomes, log: seq<Action>)
    requires SameNodes(before, candidates)
    ensures var drained := DrainAll(services, ids, candidates, env, log);
            && ExtendsWithoutReboot(log, drained.log)
            && (drained.complete ==> forall id :: id in ids && IsPatroni(services, id) ==> PromotedTo(before, id, drained.log))
    decreases |ids|
  {
    hide Best, IsPatroni;
    if ids != [] {
      assert ids == [ids[0]] + ids[1..];
      if !IsPatroni(services, ids[0]) {
        DrainLog(services, ids[1..], before, candidates, env, log);
      } else if candidates != [] && env.promotion(|log|) {
        var at := Best(candidates);
        var promotion := Promote(ids[0], candidates[at].nodeId, true);
        DrainLog(services, ids[1..], before, WithLeadership(candidates, at, ids[0]), env, log + [promotion]);
        assert (log + [promotion])[|log|] == promotion;
        assert promotion == Promote(ids[0], before[at].nodeId, true);
      }
    }
  }

  /** The log shows that the service was handed to another reporting node that needs no restart. */
  ghost predicate HandedOver(reports: seq<Report>, target: int, service: string, log: seq<Action>) {
    exists other :: other in reports && other.nodeId != target && !other.requiresRestart &&
                    Promote(service, other.nodeId, true) in log
  }

  /** What must have happened before a reboot request for the node. */
  ghost predicate SafeToRequest(state: ClusterState, hour: int, reports: seq<Report>, nodeId: int, log: seq<Action>) {
    exists target ::
      && target in reports && target.nodeId == nodeId && MayGoDown(state, hour, target)
      && forall id :: id in target.leaderships && IsPatroni(state.services, id) ==>
           CheckHealth(id, Healthy) in log && HandedOver(reports, nodeId, id, log)
  }

  lemma RebootsLog(state: ClusterState, hour: int, reports: seq<Report>, env: Outcomes, log: seq<Action>, i: nat)
    requires forall j :: 0 <= j < |log| ==> !log[j].Reboot?
    requires var requests := Reboots(state, hour, reports, env, log).1; i < |requests| && requests[i].Reboot?
    ensures var requests := Reboots(state, hour, reports, env, log).1;
            i == |requests| - 1 && SafeToRequest(state, hour, reports, requests[i].nodeId, requests[..i])
  {
    hide IsPatroni, Candidates;
    var target := FirstToReboot(state, hour, reports).value;
    var ids, candidates := target.leaderships, Candidates(reports, target.nodeId);
    var (checks, checked) := CheckAll(state.services, ids, env, log);
    CheckAllLog(state.services, ids, env, log);
    if checks.Acted? {
      var drained := DrainAll(state.services, ids, candidates, env, checked);
      DrainLog(state.services, ids, candidates, candidates, env, checked);
      assert forall action :: action in checked ==> action in drained.log;
      assert Reboots(state, hour, reports, env, log).1[..|drained.log|] == drained.log;
      if drained.complete {
        forall id | id in ids && IsPatroni(state.services, id) ensures HandedOver(reports, target.nodeId, id, drained.log) {
        }
      }
    }
  }

  lemma BalanceLog(services: Registry, reports: seq<Report>, env: Outcomes, log: seq<Action>)
    ensures ExtendsWithoutReboot(log, Balance(services, reports, env, log).1)
  {
    if reports != [] && PatroniIds(services) != {} && FirstAbove(reports, OptimalCount(services, reports)).Some? {
      var bound := OptimalCount(services, reports);
      var from := FirstAbove(reports, bound).value;
      var to := FirstBelow(reports, bound, reports[from].nodeId);
      if to.Some? {
        TryServicesLog(services, reports[from].leaderships, reports[to.value].nodeId, env, log);
      }
    }
  }

  /** In every round, whatever the requests answer: a reboot request is the last request, so there is at most one; it
      goes to a node that may reboot, after every configured Patroni service that the node reported was found healthy and
      handed to a node that needs no restart; and only when balancing did nothing in this round. */
  lemma RebootOnlyAfterDrain(state: ClusterState, isLocalLeader: bool, hour: int, reports: seq<Report>, env: Outcomes, i: nat)
    requires var log := Round(state, isLocalLeader, hour, reports, env); i < |log| && log[i].Reboot?
    ensures var log := Round(state, isLocalLeader, hour, reports, env);
            && i == |log| - 1
            && isLocalLeader && |reports| >= 2
            && SafeToRequest(state, hour, reports, log[i].nodeId, log[..i])
            && log[i].nodeId != state.info.leaderNodeId
            && Balance(state.services, reports, env, []).0.NothingDone?
  {
    hide Balance, Candidates, IsPatroni;
    BalanceLog(state.services, reports, env, []);
    var (balancing, balanced) := Balance(state.services, reports, env, []);
    if balancing.NothingDone? {
      RebootsLog(state, hour, reports, env, balanced, i);
    }
  }

  // The code, step by step

  /** A report as the leader holds it: draining appends to the leaderships of candidates. */
  class NodeReport {
    const nodeId: int
    const requiresRestart: bool
    const averageLoad: real
    var patroniLeaderships: seq<string>

    constructor (report: Report)
      ensures Value() == report
    {
      nodeId, requiresRestart, averageLoad := report.nodeId, report.requiresRestart, report.averageLoad;
      patroniLeaderships := report.leaderships;
    }

    function Value(): Report
      reads this
    {
      Report(nodeId, requiresRestart, averageLoad, patroniLeaderships)
    }
  }

  function Values(reports: seq<NodeReport>): (values: seq<Report>)
    reads reports
    ensures |values| == |reports| && forall i :: 0 <= i < |reports| ==> values[i] == reports[i].Value()
  {
    if reports == [] then [] else Values(reports[..|reports| - 1]) + [reports[|reports| - 1].Value()]
  }

  ghost predicate DistinctObjects(reports: seq<NodeReport>) {
    forall i, j :: 0 <= i < j < |reports| ==> reports[i] != reports[j]
  }

  method PushLeadership(candidates: seq<NodeReport>, at: nat, service: string)
    requires DistinctObjects(candidates) && at < |candidates|
    modifies candidates[at]
    ensures Values(candidates) == WithLeadership(old(Values(candidates)), at, service)
  {
    candidates[at].patroniLeaderships := candidates[at].patroniLeaderships + [service];
  }

  /** The second loop of `handleRequiredReboots`: candidates are distinct objects that gain what is promoted to them. */
  method DrainTarget(services: Registry, ids: seq<string>, candidates: seq<NodeReport>, env: Outcomes, log: seq<Action>)
    returns (complete: bool, requests: seq<Action>)
    requires DistinctObjects(candidates)
    modifies candidates
    ensures var drained := DrainAll(services, ids, old(Values(candidates)), env, log);
            complete == drained.complete && requests == drained.log && Values(candidates) == drained.candidates
  {
    requests := log;
    ghost var all := DrainAll(services, ids, Values(candidates), env, log);
    for i := 0 to |ids|
      invariant var rest := DrainAll(services, ids[i..], Values(candidates), env, requests);
                all.complete == rest.complete && all.candidates == rest.candidates && all.log == rest.log
    {
      assert ids[i..][1..] == ids[i + 1..];
      if IsPatroni(services, ids[i]) {
        if candidates == [] {
          return false, requests;
        }
        var at := Best(Values(candidates));
        var accepted := env.promotion(|requests|);
        requests := requests + [Promote(ids[i], candidates[at].nodeId, accepted)];
        if !accepted {
          return false, requests;
        }
        PushLeadership(candidates, at, ids[i]);
      }
    }
    return true, requests;
  }

  lemma ValuesAppend(reports: seq<NodeReport>, report: NodeReport)
    ensures Values(reports + [report]) == Values(reports) + [report.Value()]
  {
  }

  lemma AppendDistinct(reports: seq<NodeReport>, i: nat, candidates: seq<NodeReport>)
    requires DistinctObjects(reports) && i < |reports| && DistinctObjects(candidates)
    requires forall candidate :: candidate in candidates ==> candidate in reports[..i]
    ensures DistinctObjects(candidates + [reports[i]])
  {
    assert reports[i] !in reports[..i];
    assert forall j :: 0 <= j < |candidates| ==> candidates[j] in candidates;
  }

  /** The filter for candidates keeps the report objects themselves. */
  method SelectCandidates(reports: seq<NodeReport>, target: int) returns (candidates: seq<NodeReport>)
    requires DistinctObjects(reports)
    ensures DistinctObjects(candidates) && Values(candidates) == Candidates(Values(reports), target)
    ensures forall i :: 0 <= i < |candidates| ==> candidates[i] in reports
  {
    hide Candidates, Values;
    candidates := [];
    assert Values([]) == [] && Candidates([], target) == [] by {
      EmptyCandidates(target);
    }
    for i := 0 to |reports|
      invariant DistinctObjects(candidates) && Values(candidates) == Candidates(Values(reports[..i]), target)
      invariant forall candidate :: candidate in candidates ==> candidate in reports[..i]
    {
      var report := reports[i];
      assert reports[..i + 1] == reports[..i] + [report];
      ValuesAppend(reports[..i], report);
      CandidatesAppend(Values(reports[..i]), report.Value(), target);
      if report.nodeId != target && !report.requiresRestart {
        AppendDistinct(reports, i, candidates);
        ValuesAppend(candidates, report);
        candidates := candidates + [report];
      }
    }
    assert reports[..|reports|] == reports;
  }

  lemma EmptyCandidates(target: int)
    ensures Values([]) == [] && Candidates([], target) == []
  {
  }

  /** The first loop of `handleRequiredReboots`. */
  method CheckTargetHealth(services: Registry, ids: seq<string>, env: Outcomes, log: seq<Action>)
    returns (ending: Ending, requests: seq<Action>)
    ensures (ending, requests) == CheckAll(services, ids, env, log)
  {
    requests := log;
    for i := 0 to |ids|
      invariant CheckAll(services, ids, env, log) == CheckAll(services, ids[i..], env, requests)
    {
      if IsPatroni(services, ids[i]) {
        var health := env.health(|requests|);
        requests := requests + [CheckHealth(ids[i], health)];
        match health
        case Healthy =>
        case Unhealthy => return NothingDone, requests;
        case LeaderUnknown => return Threw, requests;
      }
    }
    return Acted, requests;
  }

  method HandleRequiredReboots(state: ClusterState, hour: int, reports: seq<NodeReport>, env: Outcomes, log: seq<Action>)
    returns (ending: Ending, requests: seq<Action>)
    requires DistinctObjects(reports)
    modifies reports
    ensures (ending, requests) == Reboots(state, hour, old(Values(reports)), env, log)
  {
    hide Candidates, MayReboot, CheckAll, DrainAll, Values, DistinctObjects;
    ghost var before := Values(reports);
    if |reports| < 2 {
      return NothingDone, log;
    }
    var target := FirstToReboot(state, hour, Values(reports));
    if target.None? {
      return NothingDone, log;
    }
    var ids := target.value.leaderships;
    var candidates := SelectCandidates(reports, target.value.nodeId);
    ending, requests := CheckTargetHealth(state.services, ids, env, log);
    assert (ending, requests) == CheckAll(state.services, ids, env, log);
    if ending != Acted {
      return;
    }
    assert Values(candidates) == Candidates(before, target.value.nodeId);
    assert forall i :: 0 <= i < |candidates| ==> candidates[i] in reports;
    var complete: bool;
    complete, requests := DrainTarget(state.services, ids, candidates, env, requests);
    if !complete {
      return NothingDone, requests;
    }
    var accepted := env.reboot(|requests|);
    requests := requests + [Reboot(target.value.nodeId, accepted)];
    ending := if accepted then Acted else NothingDone;
  }

  /** One round: balances, and turns to required reboots only when balancing did nothing. */
  method CheckCluster(state: ClusterState, isLocalLeader: bool, hour: int, reports: seq<NodeReport>, env: Outcomes)
    returns (requests: seq<Action>)
    requires DistinctObjects(reports)
    modifies reports
    ensures requests == Round(state, isLocalLeader, hour, old(Values(reports)), env)
  {
    if !isLocalLeader {
      return [];
    }
    var ending;
    ending, requests := HandlePatroniBalancing(state.services, Values(reports), env, []);
    if ending != NothingDone {
      return;
    }
    ending, requests := HandleRequiredReboots(state, hour, reports, env, requests);
  }

  lemma {:induction false} CandidatesAppend(reports: seq<Report>, report: Report, target: int)
    ensures Candidates(reports + [report], target) ==
            Candidates(reports, target) + if IsCandidate(report, target) then [report] else []
  {
    hide IsCandidate;
    if reports == [] {
      assert reports + [report] == [report] && Candidates([report][1..], target) == [];
    } else {
      var tail := Candidates(reports[1..], target);
      var head: seq<Report> := if IsCandidate(reports[0], target) then [reports[0]] else [];
      var more: seq<Report> := if IsCandidate(report, target) then [report] else [];
      assert (reports + [report])[1..] == reports[1..] + [report];
      CandidatesAppend(reports[1..], report, target);
      assert head + (tail + more) == (head + tail) + more;
    }
  }

  /** `waitUntilRebootSafe` on the node itself: two checks of the services it leads, with a delay after each. */
  method WaitUntilRebootSafe(ledAt: nat -> seq<string>) returns (safe: bool)
    ensures safe <==> ledAt(0) == [] || ledAt(1) == []
  {
    for attempt := 0 to 2
      invariant forall earlier :: 0 <= earlier < attempt ==> ledAt(earlier) != []
    {
      if ledAt(attempt) == [] {
        return true;
      }
    }
    return false;
  }
}
