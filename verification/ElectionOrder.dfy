/** `findOptimalLeader` and the end of `runLeaderElection` in src/cluster/leaderElection.ts. */
module ElectionOrder {
  import opened Constants
  import opened Models
  import opened ClusterStates

  datatype NodeStatus = NodeStatus(loadValue: real, offlineNodeIds: seq<int>)

  /** The statuses of the nodes that answered. */
  type Statuses = map<int, NodeStatus>

  /** How many answering nodes consider the node offline. */
  function Votes(statuses: Statuses, nodeId: int): nat {
    |set voter | voter in statuses && nodeId in statuses[voter].offlineNodeIds|
  }

  /** The answers and the record of offline votes counted from them. */
  datatype Poll = Poll(statuses: Statuses, votes: map<int, nat>)

  function PollOf(statuses: Statuses): Poll {
    Poll(statuses, map nodeId | nodeId in statuses :: Votes(statuses, nodeId))
  }

  predicate Candidate(poll: Poll, nodeId: int) {
    nodeId in poll.statuses && nodeId in poll.votes
  }

  /** The comparator: load, then offline votes, then the present leader, then the id. */
  function Compare(poll: Poll, leader: int, left: int, right: int): real
    requires Candidate(poll, left) && Candidate(poll, right)
  {
    var leftLoad, rightLoad := poll.statuses[left].loadValue, poll.statuses[right].loadValue;
    if leftLoad != rightLoad then leftLoad - rightLoad
    else if poll.votes[left] != poll.votes[right] then (poll.votes[left] as int - poll.votes[right] as int) as real
    else if left == leader then -1.0
    else if right == leader then 1.0
    else (left - right) as real
  }

  predicate Beats(poll: Poll, leader: int, left: int, right: int)
    requires Candidate(poll, left) && Candidate(poll, right)
  {
    Compare(poll, leader, left, right) < 0.0
  }

  predicate Known(poll: Poll, ids: seq<int>) {
    forall i :: 0 <= i < |ids| ==> Candidate(poll, ids[i])
  }

  /** Insertion sort by the comparator. */
  function InsertId(poll: Poll, leader: int, id: int, sorted: seq<int>): (result: seq<int>)
    requires Candidate(poll, id) && Known(poll, sorted)
    ensures Known(poll, result) && |result| == |sorted| + 1
    ensures multiset(result) == multiset(sorted) + multiset{id}
  {
    if sorted != [] && Beats(poll, leader, sorted[0], id) then
      assert sorted == [sorted[0]] + sorted[1..];
      [sorted[0]] + InsertId(poll, leader, id, sorted[1..])
    else [id] + sorted
  }

  function SortIds(poll: Poll, leader: int, ids: seq<int>): (sorted: seq<int>)
    requires Known(poll, ids)
    ensures Known(poll, sorted) && multiset(sorted) == multiset(ids)
  {
    if ids == [] then []
    else
      assert ids == [ids[0]] + ids[1..];
      InsertId(poll, leader, ids[0], SortIds(poll, leader, ids[1..]))
  }

  /** `order` lists the answering nodes, each once, in any order of their answers. */
  ghost predicate Lists(order: seq<int>, statuses: Statuses) {
    && (forall i, j :: 0 <= i < j < |order| ==> order[i] != order[j])
    && (set id | id in order) == statuses.Keys
  }

  function OptimalLeader(poll: Poll, leader: int, order: seq<int>): int
    requires Known(poll, order) && order != []
  {
    SortIds(poll, leader, order)[0]
  }

  // The comparator is a strict total order on distinct nodes

  lemma ComparatorTotal(poll: Poll, leader: int, a: int, b: int)
    requires Candidate(poll, a) && Candidate(poll, b) && a != b
    ensures Compare(poll, leader, a, b) != 0.0
    ensures Beats(poll, leader, a, b) <==> !Beats(poll, leader, b, a)
  {
  }

  lemma ComparatorTransitive(poll: Poll, leader: int, a: int, b: int, c: int)
    requires Candidate(poll, a) && Candidate(poll, b) && Candidate(poll, c) && a != b && b != c && a != c
    requires Beats(poll, leader, a, b) && Beats(poll, leader, b, c)
    ensures Beats(poll, leader, a, c)
  {
  }

  ghost predicate BeatsAll(poll: Poll, leader: int, winner: int, ids: seq<int>)
    requires Candidate(poll, winner) && Known(poll, ids)
  {
    forall i :: 0 <= i < |ids| && ids[i] != winner ==> Beats(poll, leader, winner, ids[i])
  }

  lemma InsertHead(poll: Poll, leader: int, id: int, sorted: seq<int>)
    requires Candidate(poll, id) && Known(poll, sorted)
    requires sorted != [] ==> BeatsAll(poll, leader, sorted[0], sorted)
    ensures var head := InsertId(poll, leader, id, sorted)[0];
            (head == id || head in sorted) && BeatsAll(poll, leader, head, [id] + sorted)
  {
  }

  lemma SameMembers(poll: Poll, leader: int, winner: int, ids: seq<int>, others: seq<int>)
    requires Known(poll, ids) && Known(poll, others) && multiset(ids) == multiset(others)
    requires Candidate(poll, winner) && BeatsAll(poll, leader, winner, ids)
    ensures BeatsAll(poll, leader, winner, others)
  {
    forall i | 0 <= i < |others| && others[i] != winner ensures Beats(poll, leader, winner, others[i]) {
      assert others[i] in multiset(ids);
      var j :| 0 <= j < |ids| && ids[j] == others[i];
    }
  }

  /** Sorting with the comparator puts a node first that beats all others. */
  lemma {:induction false} SortedHead(poll: Poll, leader: int, ids: seq<int>)
    requires Known(poll, ids) && ids != []
    ensures var sorted := SortIds(poll, leader, ids);
            sorted != [] && sorted[0] in ids && BeatsAll(poll, leader, sorted[0], ids)
  {
    hide Beats, BeatsAll, InsertId;
    assert ids == [ids[0]] + ids[1..];
    var tail := SortIds(poll, leader, ids[1..]);
    SameSize(tail, ids[1..]);
    if |ids| > 1 {
      SortedHead(poll, leader, ids[1..]);
      SameMembers(poll, leader, tail[0], ids[1..], tail);
    }
    InsertHead(poll, leader, ids[0], tail);
    var head := InsertId(poll, leader, ids[0], tail)[0];
    assert multiset([ids[0]] + tail) == multiset(ids);
    SameMembers(poll, leader, head, [ids[0]] + tail, ids);
    assert head in tail ==> head in multiset(ids[1..]);
  }

  lemma SameSize(a: seq<int>, b: seq<int>)
    requires multiset(a) == multiset(b)
    ensures |a| == |b|
  {
    assert |multiset(a)| == |a| && |multiset(b)| == |b|;
  }

  // Main results

  /** What the election prefers: a lower load, then fewer answers that consider the node offline, then the present leader,
      then the smaller id. */
  ghost predicate Preferred(statuses: Statuses, leader: int, node: int, other: int)
    requires node in statuses && other in statuses
  {
    var load, otherLoad := statuses[node].loadValue, statuses[other].loadValue;
    var offline := |set voter | voter in statuses && node in statuses[voter].offlineNodeIds|;
    var otherOffline := |set voter | voter in statuses && other in statuses[voter].offlineNodeIds|;
    || load < otherLoad
    || (load == otherLoad && offline < otherOffline)
    || (load == otherLoad && offline == otherOffline && (node == leader || (other != leader && node < other)))
  }

  /** `winner` answered and is preferred to every other node that answered. */
  ghost predicate IsOptimal(statuses: Statuses, leader: int, winner: int) {
    winner in statuses && forall other :: other in statuses && other != winner ==> Preferred(statuses, leader, winner, other)
  }

  /** The comparator sorts by preference. */
  lemma BeatsIfPreferred(statuses: Statuses, leader: int, node: int, other: int)
    requires node in statuses && other in statuses && node != other
    ensures Beats(PollOf(statuses), leader, node, other) <==> Preferred(statuses, leader, node, other)
  {
  }

  lemma OptimalIsUnique(statuses: Statuses, leader: int, a: int, b: int)
    requires IsOptimal(statuses, leader, a) && IsOptimal(statuses, leader, b)
    ensures a == b
  {
  }

  /** The election picks the unique optimal node, and so there always is one, in whatever order the answers arrived. */
  lemma ElectsTheOptimum(statuses: Statuses, leader: int, order: seq<int>, winner: int)
    requires Lists(order, statuses) && order != []
    ensures Known(PollOf(statuses), order)
    ensures OptimalLeader(PollOf(statuses), leader, order) == winner <==> IsOptimal(statuses, leader, winner)
    ensures IsOptimal(statuses, leader, OptimalLeader(PollOf(statuses), leader, order))
  {
    assert forall i :: 0 <= i < |order| ==> order[i] in set id | id in order;
    SortedHead(PollOf(statuses), leader, order);
    var head := OptimalLeader(PollOf(statuses), leader, order);
    assert IsOptimal(statuses, leader, head) by {
      forall other | other in statuses && other != head ensures Preferred(statuses, leader, head, other) {
        assert other in set id | id in order;
        var i :| 0 <= i < |order| && order[i] == other;
        BeatsIfPreferred(statuses, leader, head, other);
      }
    }
    if IsOptimal(statuses, leader, winner) {
      OptimalIsUnique(statuses, leader, head, winner);
    }
  }

  /** No flapping: a winner that has been installed wins again with the same answers. */
  lemma WinnerStays(statuses: Statuses, leader: int, winner: int)
    requires IsOptimal(statuses, leader, winner)
    ensures IsOptimal(statuses, winner, winner)
  {
  }

  /** A node that needs a reboot loses against any node that reports a real load. */
  lemma RebootingNodeLoses(statuses: Statuses, leader: int, winner: int, other: int)
    requires IsOptimal(statuses, leader, winner)
    requires other in statuses && statuses[other].loadValue < REBOOT_REQUIRED_LOAD_VALUE
    ensures statuses[winner].loadValue < REBOOT_REQUIRED_LOAD_VALUE
  {
  }

  /** The end of `runLeaderElection` on the configuration as it is then; a throw leaves it unchanged. */
  function Elected(state: ClusterState, statuses: Statuses, order: seq<int>, now: string): ClusterState
    requires Known(PollOf(statuses), order) && order != []
  {
    var winner := OptimalLeader(PollOf(statuses), state.info.leaderNodeId, order);
    if state.info.leaderNodeId == winner then state
    else match WithLeader(state, winner, now)
      case Ok(elected) => elected
      case Err(_) => state
  }

  /** The election installs the optimal node if it is still a member, and changes nothing if it was kicked meanwhile.
      Either way the leader is a member, and electing again with the same answers changes nothing more. */
  lemma ElectionSettles(state: ClusterState, statuses: Statuses, order: seq<int>, winner: int, now: string, later: string)
    requires ClusterInvariant(state) && Lists(order, statuses) && order != []
    requires IsOptimal(statuses, state.info.leaderNodeId, winner)
    ensures Known(PollOf(statuses), order)
    ensures var elected := Elected(state, statuses, order, now);
            && (winner in NodeIds(state.nodes) ==> elected.info.leaderNodeId == winner)
            && (winner !in NodeIds(state.nodes) ==> elected == state)
            && elected.info.leaderNodeId in NodeIds(elected.nodes)
            && elected.nodes == state.nodes && elected.services == state.services
            && Elected(elected, statuses, order, later) == elected
  {
    hide NodesInvariant, InfoAccepts, IsOptimal, Lists, SortIds;
    var leader := state.info.leaderNodeId;
    assert Known(PollOf(statuses), order) by {
      ListsKnown(statuses, order);
    }
    ElectsTheOptimum(statuses, leader, order, winner);
    WinnerStays(statuses, leader, winner);
    ElectsTheOptimum(statuses, winner, order, winner);
  }

  lemma ListsKnown(statuses: Statuses, order: seq<int>)
    requires Lists(order, statuses)
    ensures Known(PollOf(statuses), order)
  {
  }

  // The code, step by step

  lemma ListsMembers(statuses: Statuses, order: seq<int>)
    requires Lists(order, statuses)
    ensures forall nodeId :: nodeId in order <==> nodeId in statuses
  {
  }

  lemma RecordComplete(statuses: Statuses, votes: map<int, nat>)
    requires forall nodeId :: nodeId in votes <==> nodeId in statuses
    requires forall nodeId :: nodeId in votes ==> votes[nodeId] == Votes(statuses, nodeId)
    ensures votes == PollOf(statuses).votes
  {
    var record := PollOf(statuses).votes;
    assert votes.Keys == statuses.Keys by {
      forall nodeId | nodeId in votes.Keys ensures nodeId in statuses.Keys {
        assert nodeId in votes;
      }
      forall nodeId | nodeId in statuses.Keys ensures nodeId in votes.Keys {
        assert nodeId in statuses;
      }
    }
    assert record.Keys == statuses.Keys;
  }

  lemma VotesCounted(statuses: Statuses, nodeId: int)
    ensures Votes(statuses, nodeId) == |set voter | voter in statuses && nodeId in statuses[voter].offlineNodeIds|
  {
  }

  /** The loop that fills the local record of offline votes. */
  method CountOfflineVotes(statuses: Statuses, order: seq<int>) returns (votes: map<int, nat>)
    requires Lists(order, statuses)
    ensures votes == PollOf(statuses).votes
  {
    hide Votes, Lists;
    votes := map[];
    ListsMembers(statuses, order);
    for i := 0 to |order|
      invariant forall nodeId :: nodeId in order[..i] <==> nodeId in votes
      invariant forall nodeId :: nodeId in votes ==> votes[nodeId] == Votes(statuses, nodeId)
    {
      assert order[..i + 1] == order[..i] + [order[i]];
      VotesCounted(statuses, order[i]);
      votes := votes[order[i] := |set voter | voter in statuses && order[i] in statuses[voter].offlineNodeIds|];
    }
    assert order[..|order|] == order;
    assert forall nodeId :: nodeId in order <==> nodeId in votes;
    RecordComplete(statuses, votes);
  }

  /** `findOptimalLeader`. */
  method FindOptimalLeader(statuses: Statuses, leader: int, order: seq<int>) returns (winner: int)
    requires Lists(order, statuses) && order != []
    ensures IsOptimal(statuses, leader, winner)
  {
    ListsKnown(statuses, order);
    var votes := CountOfflineVotes(statuses, order);
    var sorted := SortIds(Poll(statuses, votes), leader, order);
    winner := sorted[0];
    ElectsTheOptimum(statuses, leader, order, winner);
  }
}
