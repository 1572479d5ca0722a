/** Reconciliation of the WireGuard peers (src/adapters/wireguard.ts, `syncWireguardPeersFromClusterConfig` of
    src/cluster/config.ts). */
module Wireguard {
  import opened Wrappers
  import opened Models
  import opened Registries
  import opened ClusterStates
  import opened Decimals
  import opened Membership

  const LISTEN_PORT_SUFFIX := ":51820"

  datatype Tunnel = Tunnel(endpoint: string, allowedIp: string)

  datatype Peer = Peer(publicKey: string, tunnel: Tunnel)

  /** The peers of an interface, by public key. */
  type Peers = map<string, Tunnel>

  datatype SyncError = ReadFailed | RemoveFailed(removed: string) | AddFailed(added: string)

  /** What a list of peers asks for. When a key is listed twice, its last entry counts. */
  function Requested(peers: seq<Peer>): Peers {
    if peers == [] then map[]
    else
      var last := peers[|peers| - 1];
      Requested(peers[..|peers| - 1])[last.publicKey := last.tunnel]
  }

  /** Exactly the requested keys; a peer that was there before keeps its tunnel. */
  function Synced(before: Peers, requested: Peers): Peers {
    map key | key in requested :: if key in before then before[key] else requested[key]
  }

  /** A synchronisation that has not finished: what needs no change is untouched, and nothing foreign has appeared. */
  ghost predicate Underway(before: Peers, now: Peers, requested: Peers) {
    && (forall key :: key in before && key in requested ==> key in now)
    && (forall key :: key in now ==> key in before || key in requested)
    && (forall key :: key in now ==> now[key] == if key in before then before[key] else requested[key])
  }

  /** The key has to be removed or added. */
  predicate NeedsChange(before: Peers, requested: Peers, key: string) {
    (key in before && key !in requested) || (key !in before && key in requested)
  }

  ghost predicate Lists(keys: seq<string>, peers: Peers) {
    && (forall key :: key in keys <==> key in peers)
    && (forall i, j :: 0 <= i < j < |keys| ==> keys[i] != keys[j])
  }

  function Kept(before: Peers, requested: Peers): Peers {
    map key | key in before && key in requested :: before[key]
  }

  function Missing(before: Peers, requested: Peers): Peers {
    map key | key in requested && key !in before :: requested[key]
  }

  /** Some of the unknown peers are gone, and nothing else has changed. */
  ghost predicate PartlyRemoved(before: Peers, now: Peers, requested: Peers) {
    && (forall key :: key in before && key in requested ==> key in now)
    && (forall key :: key in now ==> key in before && now[key] == before[key])
  }

  /** The keys in `seen` have been dealt with. */
  ghost predicate Swept(before: Peers, now: Peers, requested: Peers, toAdd: Peers, seen: set<string>) {
    && (forall key :: key in now <==> key in before && (key in requested || key !in seen))
    && (forall key :: key in now ==> now[key] == before[key])
    && (forall key :: key in toAdd <==> key in requested && key !in seen)
    && (forall key :: key in toAdd ==> toAdd[key] == requested[key])
  }

  lemma SweepStarts(peers: Peers, requested: Peers)
    ensures Swept(peers, peers, requested, requested, {})
  {
  }

  lemma SweepMeans(before: Peers, now: Peers, requested: Peers, toAdd: Peers, seen: set<string>, key: string)
    requires Swept(before, now, requested, toAdd, seen) && key in before && key !in seen
    ensures key in now && (key in toAdd <==> key in requested) && PartlyRemoved(before, now, requested)
  {
  }

  lemma SweepKnown(before: Peers, now: Peers, requested: Peers, toAdd: Peers, seen: set<string>, key: string)
    requires Swept(before, now, requested, toAdd, seen) && key in toAdd
    ensures Swept(before, now, requested, toAdd - {key}, seen + {key})
  {
  }

  lemma SweepUnknown(before: Peers, now: Peers, requested: Peers, toAdd: Peers, seen: set<string>, key: string)
    requires Swept(before, now, requested, toAdd, seen) && key !in requested
    ensures Swept(before, now - {key}, requested, toAdd, seen + {key})
  {
  }

  lemma SweepEnds(before: Peers, now: Peers, requested: Peers, toAdd: Peers)
    requires Swept(before, now, requested, toAdd, before.Keys)
    ensures now == Kept(before, requested) && toAdd == Missing(before, requested)
  {
  }

  /** The outcome of one synchronisation, success or failure, when the `wg` commands on the keys in `broken` fail. */
  ghost predicate SyncOutcome(before: Peers, now: Peers, requested: Peers, readable: bool, broken: set<string>,
                              error: Option<SyncError>)
  {
    && Underway(before, now, requested)
    && (error.None? <==> readable && forall key :: key in broken ==> !NeedsChange(before, requested, key))
    && match error
       case None => now == Synced(before, requested)
       case Some(ReadFailed) => !readable && now == before
       case Some(RemoveFailed(key)) =>
         && key in broken && key in before && key !in requested && key in now
         && forall other :: other in now ==> other in before
       case Some(AddFailed(key)) =>
         && key in broken && key in requested && key !in before && key !in now
         && forall other :: other in now ==> other in requested
  }

  class WireguardInterface {
    var peers: Peers

    /** `wg show peers`: every key once, in no particular order. */
    method ShowPeers(readable: bool) returns (keys: Option<seq<string>>)
      ensures keys.Some? <==> readable
      ensures keys.Some? ==> Lists(keys.value, peers)
    {
      if !readable {
        return None;
      }
      var listed: seq<string> := [];
      var remaining := peers.Keys;
      while remaining != {}
        invariant remaining <= peers.Keys
        invariant forall key :: key in listed <==> key in peers && key !in remaining
        invariant forall i, j :: 0 <= i < j < |listed| ==> listed[i] != listed[j]
        decreases remaining
      {
        var key :| key in remaining;
        listed := listed + [key];
        remaining := remaining - {key};
      }
      return Some(listed);
    }

    method RemovePeer(key: string, broken: set<string>) returns (ok: bool)
      modifies this
      ensures ok <==> key !in broken
      ensures peers == if ok then old(peers) - {key} else old(peers)
    {
      ok := key !in broken;
      if ok {
        peers := peers - {key};
      }
    }

    method AddPeer(key: string, tunnel: Tunnel, broken: set<string>) returns (ok: bool)
      modifies this
      ensures ok <==> key !in broken
      ensures peers == if ok then old(peers)[key := tunnel] else old(peers)
    {
      ok := key !in broken;
      if ok {
        peers := peers[key := tunnel];
      }
    }

    /** The map of requested peers. */
    static method CollectPeers(wanted: seq<Peer>) returns (peersToAdd: Peers)
      ensures peersToAdd == Requested(wanted)
    {
      peersToAdd := map[];
      for i := 0 to |wanted|
        invariant peersToAdd == Requested(wanted[..i])
      {
        peersToAdd := peersToAdd[wanted[i].publicKey := wanted[i].tunnel];
        assert wanted[..i + 1][..i] == wanted[..i];
      }
      assert wanted[..|wanted|] == wanted;
    }

    /** Removes every unknown peer, and drops the known ones from the peers to add. */
    method RemoveUnknown(keys: seq<string>, requested: Peers, broken: set<string>)
      returns (failed: Option<string>, toAdd: Peers)
      requires Lists(keys, peers)
      modifies this
      ensures match failed
              case None =>
                && peers == Kept(old(peers), requested) && toAdd == Missing(old(peers), requested)
                && forall key :: key in old(peers) && key !in requested ==> key !in broken
              case Some(key) =>
                && key in broken && key in old(peers) && key !in requested && key in peers
                && PartlyRemoved(old(peers), peers, requested)
    {
      hide Swept, Kept, Missing, PartlyRemoved;
      failed, toAdd := None, requested;
      ghost var seen: set<string> := {};
      SweepStarts(peers, requested);
      for i := 0 to |keys|
        invariant seen <= old(peers).Keys
        invariant forall j :: 0 <= j < |keys| ==> (keys[j] in seen <==> j < i)
        invariant Swept(old(peers), peers, requested, toAdd, seen)
        invariant forall key :: key in seen && key !in requested ==> key !in broken
      {
        var key := keys[i];
        SweepMeans(old(peers), peers, requested, toAdd, seen, key);
        if key in toAdd {
          SweepKnown(old(peers), peers, requested, toAdd, seen, key);
          toAdd := toAdd - {key};
        } else {
          SweepUnknown(old(peers), peers, requested, toAdd, seen, key);
          var ok := RemovePeer(key, broken);
          if !ok {
            return Some(key), toAdd;
          }
        }
        seen := seen + {key};
      }
      assert seen == old(peers).Keys;
      SweepEnds(old(peers), peers, requested, toAdd);
    }

    method SyncPeers(wanted: seq<Peer>, readable: bool, broken: set<string>) returns (error: Option<SyncError>)
      modifies this
      ensures SyncOutcome(old(peers), peers, Requested(wanted), readable, broken, error)
    {
      var requested := CollectPeers(wanted);
      var keys := ShowPeers(readable);
      if keys.None? {
        return Some(ReadFailed);
      }
      var failed, toAdd := RemoveUnknown(keys.value, requested, broken);
      if failed.Some? {
        return Some(RemoveFailed(failed.value));
      }
      error := AddMissing(old(peers), requested, toAdd, broken);
    }

    /** The last loop of `syncWireguardPeers`: unknown peers are gone, and `toAdd` holds the requested peers that were not
        there. */
    method AddMissing(ghost before: Peers, ghost requested: Peers, toAdd: Peers, broken: set<string>)
      returns (error: Option<SyncError>)
      requires peers == Kept(before, requested) && toAdd == Missing(before, requested)
      requires forall key :: key in before && key !in requested ==> key !in broken
      modifies this
      ensures SyncOutcome(before, peers, requested, true, broken, error)
    {
      var remaining := toAdd.Keys;
      while remaining != {}
        invariant remaining <= toAdd.Keys
        invariant forall key :: key in peers <==> key in requested && key !in remaining
        invariant forall key :: key in peers ==> peers[key] == if key in before then before[key] else requested[key]
        invariant forall key :: key in toAdd && key !in remaining ==> key !in broken
        decreases remaining
      {
        var key :| key in remaining;
        var ok := AddPeer(key, toAdd[key], broken);
        if !ok {
          return Some(AddFailed(key));
        }
        remaining := remaining - {key};
      }
      return None;
    }

    /** A node that does not find itself in the configuration leaves the interface alone. */
    method SyncFromCluster(state: ClusterState, hostname: string, readable: bool, broken: set<string>)
      returns (error: Option<SyncError>)
      requires NodesValid(state.nodes)
      modifies this
      ensures match LocalNode(state.nodes, hostname)
              case None => peers == old(peers) && error == None
              case Some(node) =>
                SyncOutcome(old(peers), peers, Requested(OtherPeers(state.nodes, node.nodeId)), readable, broken, error)
    {
      var node := LocalNode(state.nodes, hostname);
      if node.None? {
        return None;
      }
      error := SyncPeers(OtherPeers(state.nodes, node.value.nodeId), readable, broken);
    }
  }

  // Properties of synchronisation

  /** A synchronisation that failed half way is completed by the next one as if it had never started. */
  lemma RetryCompletes(before: Peers, now: Peers, requested: Peers)
    requires Underway(before, now, requested)
    ensures Synced(now, requested) == Synced(before, requested)
  {
  }

  /** The interface ends up as requested exactly when every peer that stays already had the requested tunnel: an outdated
      endpoint is never corrected. */
  lemma OutdatedTunnelsStay(before: Peers, requested: Peers)
    ensures Synced(before, requested) == requested <==>
            forall key :: key in before && key in requested ==> before[key] == requested[key]
  {
  }

  // The peers of a cluster

  function LocalNode(nodes: seq<NodeInfo>, hostname: string): (node: Option<NodeInfo>)
    ensures node.Some? ==> node.value in nodes && node.value.hostname == hostname
    ensures node.None? ==> forall other :: other in nodes ==> other.hostname != hostname
  {
    if nodes == [] then None else if nodes[0].hostname == hostname then Some(nodes[0]) else LocalNode(nodes[1..], hostname)
  }

  function TunnelTo(node: NodeInfo): Tunnel
    requires node.nodeId >= 0
  {
    Tunnel(node.publicIp + LISTEN_PORT_SUFFIX, WireguardIp(node.nodeId) + "/32")
  }

  function OtherPeers(nodes: seq<NodeInfo>, localId: int): seq<Peer>
    requires NodesValid(nodes)
  {
    if nodes == [] then []
    else
      var last := nodes[|nodes| - 1];
      assert NodeAccepts(last);
      OtherPeers(nodes[..|nodes| - 1], localId) +
      if last.nodeId == localId then [] else [Peer(last.wireguardPublicKey, TunnelTo(last))]
  }

  ghost predicate IsOther(nodes: seq<NodeInfo>, localId: int, key: string) {
    exists node :: node in nodes && node.nodeId != localId && node.wireguardPublicKey == key
  }

  /** `node` is asked for under its own key and with its own addresses. */
  ghost predicate AsksForNode(node: NodeInfo, requested: Peers) {
    && node.nodeId >= 0 && node.wireguardPublicKey in requested
    && requested[node.wireguardPublicKey] == Tunnel(node.publicIp + ":51820", "10.0.0." + Decimal(node.nodeId) + "/32")
  }

  /** Exactly the nodes other than the local one are asked for. */
  ghost predicate AsksForOthers(nodes: seq<NodeInfo>, localId: int, requested: Peers) {
    && (forall key :: key in requested ==> IsOther(nodes, localId, key))
    && (forall node :: node in nodes && node.nodeId != localId ==> AsksForNode(node, requested))
  }

  lemma {:induction false} RequestedOthers(nodes: seq<NodeInfo>, localId: int)
    requires NodesInvariant(nodes)
    ensures AsksForOthers(nodes, localId, Requested(OtherPeers(nodes, localId)))
  {
    hide NodeAccepts, TunnelTo, AsksForOthers;
    if nodes == [] {
      NothingAsked(localId);
    } else {
      var front, last := nodes[..|nodes| - 1], nodes[|nodes| - 1];
      RequestedOthers(front, localId);
      assert nodes == front + [last];
      assert last.nodeId in NodeIds(nodes);
      MemberIdInRange(nodes, last.nodeId);
      ExtendRequest(front, last, localId, Requested(OtherPeers(front, localId)));
      RequestedStep(nodes, localId);
    }
  }

  lemma NothingAsked(localId: int)
    ensures AsksForOthers([], localId, map[])
  {
  }

  function WithPeer(requested: Peers, node: NodeInfo, localId: int): Peers
    requires node.nodeId >= 0
  {
    if node.nodeId == localId then requested else requested[node.wireguardPublicKey := TunnelTo(node)]
  }

  lemma RequestedStep(nodes: seq<NodeInfo>, localId: int)
    requires NodesValid(nodes) && nodes != [] && nodes[|nodes| - 1].nodeId >= 0
    ensures var front := nodes[..|nodes| - 1];
            NodesValid(front) && Requested(OtherPeers(nodes, localId)) ==
            WithPeer(Requested(OtherPeers(front, localId)), nodes[|nodes| - 1], localId)
  {
    hide NodeAccepts, TunnelTo;
    var front, last := nodes[..|nodes| - 1], nodes[|nodes| - 1];
    var others := OtherPeers(front, localId);
    if last.nodeId == localId {
      assert OtherPeers(nodes, localId) == others + [] == others;
    } else {
      var peer := Peer(last.wireguardPublicKey, TunnelTo(last));
      assert OtherPeers(nodes, localId) == others + [peer];
      assert (others + [peer])[..|others|] == others;
    }
  }

  lemma ExtendRequest(front: seq<NodeInfo>, last: NodeInfo, localId: int, requested: Peers)
    requires NodesDistinct(front + [last]) && last.nodeId >= 0
    requires AsksForOthers(front, localId, requested)
    ensures AsksForOthers(front + [last], localId, WithPeer(requested, last, localId))
  {
    hide Decimal;
    forall key | key in WithPeer(requested, last, localId) ensures IsOther(front + [last], localId, key) {
      if key in requested {
        var node :| node in front && node.nodeId != localId && node.wireguardPublicKey == key;
        assert node in front + [last];
      } else {
        assert last in front + [last];
      }
    }
    forall node | node in front && node.nodeId != localId ensures node.wireguardPublicKey != last.wireguardPublicKey {
      var i :| 0 <= i < |front| && front[i] == node;
      assert !Clash((front + [last])[i], (front + [last])[|front|]);
    }
  }

  // Main result

  /** After a successful synchronisation the interface has a peer for every other node and for nothing else, least of all
      for the node itself. Peers added by it lead to their nodes, and no two of them share an endpoint or an address. */
  lemma SyncedWithCluster(state: ClusterState, hostname: string, before: Peers)
    requires ClusterInvariant(state) && LocalNode(state.nodes, hostname).Some?
    ensures var local := LocalNode(state.nodes, hostname).value;
            var after := Synced(before, Requested(OtherPeers(state.nodes, local.nodeId)));
            && (forall key :: key in after <==> IsOther(state.nodes, local.nodeId, key))
            && local.wireguardPublicKey !in after
            && (forall key :: key in after && key in before ==> after[key] == before[key])
            && (forall node :: node in state.nodes && node != local ==>
                  node.wireguardPublicKey in after && (node.wireguardPublicKey !in before ==> AsksForNode(node, after)))
  {
    hide NodeAccepts, NodeTrimmed, IsTrimmed, TunnelTo, RegistryInvariant, InfoAccepts;
    var local := LocalNode(state.nodes, hostname).value;
    RequestedOthers(state.nodes, local.nodeId);
    forall node | node in state.nodes && node != local
      ensures node.nodeId != local.nodeId && !Clash(node, local)
    {
      DifferentNodes(state.nodes, node, local);
    }
  }

  lemma DifferentNodes(nodes: seq<NodeInfo>, a: NodeInfo, b: NodeInfo)
    requires NodesInvariant(nodes) && a in nodes && b in nodes && a != b
    ensures a.nodeId != b.nodeId && !Clash(a, b)
  {
  }

  /** Tunnels to different nodes differ in both addresses. */
  lemma TunnelsDiffer(nodes: seq<NodeInfo>, a: NodeInfo, b: NodeInfo)
    requires NodesInvariant(nodes) && a in nodes && b in nodes && a != b && a.nodeId >= 0 && b.nodeId >= 0
    ensures TunnelTo(a).endpoint != TunnelTo(b).endpoint && TunnelTo(a).allowedIp != TunnelTo(b).allowedIp
  {
    hide NodeAccepts;
    DifferentNodes(nodes, a, b);
    if TunnelTo(a).endpoint == TunnelTo(b).endpoint {
      SameHead(a.publicIp, b.publicIp, LISTEN_PORT_SUFFIX);
    }
    if TunnelTo(a).allowedIp == TunnelTo(b).allowedIp {
      SameHead(WireguardIp(a.nodeId), WireguardIp(b.nodeId), "/32");
      NumberedDiffer("10.0.0.", a.nodeId, b.nodeId);
    }
  }

  lemma SameHead(a: string, b: string, tail: string)
    requires a + tail == b + tail
    ensures a == b
  {
    assert |a| == |b|;
    assert a == (a + tail)[..|a|] == (b + tail)[..|b|] == b;
  }

  // A node that comes back from another address

  /** Kicking a node and letting it join again, with its surviving key, from an address that no member has. */
  ghost predicate Rejoins(state: ClusterState, node: NodeInfo, publicIp: string, kicked: ClusterState, rejoined: NodeInfo,
                          now: string) {
    && Kicked(state, node.nodeId, now) == Ok(kicked)
    && JoiningNode(kicked, node.hostname, publicIp, node.wireguardPublicKey) == Ok(rejoined)
  }

  lemma RejoinSucceeds(state: ClusterState, node: NodeInfo, publicIp: string, now: string)
    returns (kicked: ClusterState, rejoined: NodeInfo)
    requires ClusterInvariant(state) && node in state.nodes && node.nodeId != state.info.coordinatorNodeId
    requires IsIpv4(publicIp) && forall other :: other in state.nodes ==> other.publicIp != publicIp
    ensures Rejoins(state, node, publicIp, kicked, rejoined, now) && ClusterInvariant(kicked)
    ensures forall other :: other in kicked.nodes <==> other in state.nodes && other != node
    ensures IsNew(kicked, rejoined)
    ensures rejoined.publicIp == publicIp && rejoined.wireguardPublicKey == node.wireguardPublicKey
  {
    hide NodeTrimmed, IsTrimmed, NotBlank, IsIpv4, RegistryInvariant, InfoAccepts, SortNodes, WithoutNode, NodesSorted,
         NodesDistinct;
    kicked := Kicked(state, node.nodeId, now).value;
    KickedKeepsInvariant(state, node.nodeId, now);
    forall other | other in state.nodes && other != node ensures other.nodeId != node.nodeId && !Clash(other, node) {
      DifferentNodes(state.nodes, other, node);
    }
    assert forall i :: 0 <= i < |kicked.nodes| ==> kicked.nodes[i] in kicked.nodes;
    MembersOnly(kicked.nodes, node.nodeId);
    MemberIdInRange(state.nodes, node.nodeId);
    assert NodeAccepts(node) && NodeTrimmed(node);
    rejoined := JoiningNode(kicked, node.hostname, publicIp, node.wireguardPublicKey).value;
    TrimmedParts(node);
    SelectedIsNew(kicked, node.hostname, publicIp, node.wireguardPublicKey);
  }

  lemma TrimmedParts(node: NodeInfo)
    requires NodeTrimmed(node)
    ensures IsTrimmed(node.hostname) && IsTrimmed(node.wireguardPublicKey)
  {
  }

  /** A follower that synchronises its peers before the kick and after the new join, but not in between, keeps the old
      endpoint of the node, although both configurations are valid. */
  lemma RejoinedPeerKeepsOldEndpoint(state: ClusterState, node: NodeInfo, local: NodeInfo, publicIp: string,
                                     kicked: ClusterState, rejoined: NodeInfo, now: string, later: string)
    requires ClusterInvariant(state) && node in state.nodes && local in state.nodes && node != local
    requires publicIp != node.publicIp && Rejoins(state, node, publicIp, kicked, rejoined, now)
    requires ClusterInvariant(kicked) && IsNew(kicked, rejoined) && rejoined.publicIp == publicIp
    requires rejoined.wireguardPublicKey == node.wireguardPublicKey
    requires forall other :: other in kicked.nodes <==> other in state.nodes && other != node
    ensures var final := WithNode(kicked, rejoined, later);
            && ClusterInvariant(final) && local in final.nodes
            && var key := node.wireguardPublicKey;
               var requested := Requested(OtherPeers(final.nodes, local.nodeId));
               var peers := Synced(Synced(map[], Requested(OtherPeers(state.nodes, local.nodeId))), requested);
               && key in peers && key in requested
               && peers[key].endpoint == node.publicIp + LISTEN_PORT_SUFFIX
               && requested[key].endpoint == publicIp + LISTEN_PORT_SUFFIX != peers[key].endpoint
  {
    hide NodeAccepts, NodeTrimmed, IsTrimmed, RegistryInvariant, InfoAccepts, SortNodes, JoiningNode, Kicked, NodesSorted,
         NodesDistinct, NodesValid, Requested, OtherPeers;
    var final := WithNode(kicked, rejoined, later);
    WithNodeKeepsInvariant(kicked, rejoined, later);
    DifferentNodes(state.nodes, node, local);
    assert local in kicked.nodes;
    RequestedOthers(state.nodes, local.nodeId);
    RequestedOthers(final.nodes, local.nodeId);
    assert AsksForNode(node, Requested(OtherPeers(state.nodes, local.nodeId)));
    assert AsksForNode(rejoined, Requested(OtherPeers(final.nodes, local.nodeId)));
    if publicIp + LISTEN_PORT_SUFFIX == node.publicIp + LISTEN_PORT_SUFFIX {
      SameHead(publicIp, node.publicIp, LISTEN_PORT_SUFFIX);
    }
  }

  const FOLLOWER := NodeInfo(3, "c", "1.1.1.3", "k3")

  /** Such a history: three nodes, the second of which is kicked and comes back from 1.1.1.9 while the third is away. */
  lemma OldEndpointIsReachable(now: string) returns (state: ClusterState, final: ClusterState)
    ensures ClusterInvariant(state) && ClusterInvariant(final) && FOLLOWER in state.nodes && FOLLOWER in final.nodes
    ensures var requested := Requested(OtherPeers(final.nodes, 3));
            var peers := Synced(Synced(map[], Requested(OtherPeers(state.nodes, 3))), requested);
            && "k2" in peers && "k2" in requested
            && peers["k2"].endpoint == "1.1.1.2" + LISTEN_PORT_SUFFIX
            && requested["k2"].endpoint == "1.1.1.9" + LISTEN_PORT_SUFFIX
  {
    hide ClusterInvariant, NodeAccepts, NodeTrimmed, IsIpv4, WithNode, Requested, OtherPeers, Synced, Kicked, JoiningNode;
    state := ThreeNodes(now);
    OneDigitIp("1.1.1.9");
    var kicked, rejoined := RejoinSucceeds(state, SECOND, "1.1.1.9", now);
    RejoinedPeerKeepsOldEndpoint(state, SECOND, FOLLOWER, "1.1.1.9", kicked, rejoined, now, now);
    final := WithNode(kicked, rejoined, now);
  }

  lemma ThreeNodes(now: string) returns (state: ClusterState)
    ensures ClusterInvariant(state) && state.info.coordinatorNodeId == 1
    ensures forall node :: node in state.nodes <==> node in [FIRST, SECOND, FOLLOWER]
  {
    hide NodeAccepts, NodeTrimmed, IsTrimmed, NotBlank, SortNodes, ClusterInvariant;
    ExamplesValid();
    var one := Initial("", "k", 1, now, FIRST).cluster;
    assert one.nodes == [FIRST];
    InitialExample(now);
    var two := WithNode(one, SECOND, now);
    WithNodeKeepsInvariant(one, SECOND, now);
    state := WithNode(two, FOLLOWER, now);
    WithNodeKeepsInvariant(two, FOLLOWER, now);
  }

  lemma ExamplesValid()
    ensures NodeAccepts(FIRST) && NodeTrimmed(FIRST) && NodeAccepts(SECOND) && NodeTrimmed(SECOND)
    ensures NodeAccepts(FOLLOWER) && NodeTrimmed(FOLLOWER)
  {
    hide NodeAccepts, NodeTrimmed, IsIpv4;
    OneDigitIp("1.1.1.1");
    OneDigitIp("1.1.1.2");
    OneDigitIp("1.1.1.3");
    ExampleNode(FIRST);
    ExampleNode(SECOND);
    ExampleNode(FOLLOWER);
  }

  lemma InitialExample(now: string)
    ensures ClusterInvariant(Initial("", "k", 1, now, FIRST).cluster)
  {
    hide ClusterInvariant, Registered, Reachable;
    CollisionIsReachable(now);
    ReachableInvariant(Initial("", "k", 1, now, FIRST));
  }
}
