/**
 The running manager: a mutable map of shared, mutable `Node` objects. The merge loops
 update objects that the old map still reaches, and maps are ranged over in arbitrary order.
 */
module ClusterManager {
  import opened Prelude
  import opened GoTime
  import opened Ids
  import M = Membership

  class Node {
    const id: ID
    const version: string
    const metadata: map<string, string>
    const joinedAt: Time
    var address: string
    var status: M.Status
    var lastSeen: Time
    var isLeader: bool

    constructor (info: M.Info)
      ensures Value() == info
    {
      id, version, metadata, joinedAt := info.id, info.version, info.metadata, info.joinedAt;
      address, status, lastSeen, isLeader := info.address, info.status, info.lastSeen, info.isLeader;
    }

    function Value(): M.Info
      reads this
    {
      M.Info(id, address, status, lastSeen, version, metadata, isLeader, joinedAt)
    }
  }

  class Manager {
    const nodeID: ID
    const heartbeatTimeout: Time
    var nodes: map<ID, Node>
    var isLeader: bool
    var leaderID: ID

    /** Every node is filed under its own identifier, so two keys never share an object. */
    ghost predicate Valid()
      reads this`nodes
    {
      forall k :: k in nodes ==> nodes[k].id == k
    }

    ghost function Values(members: map<ID, Node>): M.View
      reads members.Values
    {
      map k | k in members :: members[k].Value()
    }

    ghost function View(): M.View
      reads this`nodes, nodes.Values
    {
      Values(nodes)
    }

    ghost function Value(): M.Manager
      reads this, nodes.Values
    {
      M.Manager(nodeID, View(), isLeader, leaderID)
    }

    constructor (nodeID: ID, bindAddr: string, heartbeatTimeout: Time, now: Time)
      ensures Valid() && this.nodeID == nodeID && this.heartbeatTimeout == heartbeatTimeout
      ensures Value() == M.Manager(nodeID, map[nodeID := M.Info(nodeID, bindAddr, M.Active, now, "1.0.0", M.ROLE,
          false, now)], false, [])
    {
      this.nodeID, this.heartbeatTimeout := nodeID, heartbeatTimeout;
      var self := new Node(M.Info(nodeID, bindAddr, M.Active, now, "1.0.0", M.ROLE, false, now));
      nodes, isLeader, leaderID := map[nodeID := self], false, [];
    }

    /** The map under construction shares its old members with the map it replaces. */
    ghost predicate Shares(newNodes: map<ID, Node>)
      reads this`nodes
    {
      && (forall k :: k in newNodes ==> newNodes[k].id == k)
      && (forall k :: k in newNodes && k in nodes ==> newNodes[k] == nodes[k])
    }

    /** What no merge changes of a member: identity, version, metadata and join time. */
    ghost predicate SameHistory(before: M.View)
      reads this`nodes
    {
      forall k :: k in nodes ==>
        && k in before && nodes[k].id == before[k].id && nodes[k].version == before[k].version
        && nodes[k].metadata == before[k].metadata && nodes[k].joinedAt == before[k].joinedAt
    }

    /** A known node is changed in place, visibly through both maps, and kept. */
    method Overwrite(newNodes: map<ID, Node>, k: ID, address: string, status: M.Status, seen: Time, leads: bool)
      returns (merged: map<ID, Node>)
      requires Valid() && Shares(newNodes) && k in nodes
      modifies nodes[k]
      ensures merged == newNodes[k := nodes[k]]
      ensures Values(merged) == old(Values(newNodes))[k :=
                old(nodes[k].Value()).(address := address, status := status, lastSeen := seen, isLeader := leads)]
    {
      var node := nodes[k];
      assert forall j :: j in newNodes && j != k ==> newNodes[j] != node;
      node.address, node.status, node.lastSeen, node.isLeader := address, status, seen, leads;
      merged := newNodes[k := node];
    }

    /** What one list entry does: a known member is overwritten, an unknown one is created. */
    method Put(newNodes: map<ID, Node>, k: ID, address: string, status: M.Status, seen: Time, leads: bool, now: Time)
      returns (merged: map<ID, Node>)
      requires Valid() && Shares(newNodes)
      modifies if k in nodes then {nodes[k]} else {}
      ensures Shares(merged) && merged.Keys == newNodes.Keys + {k}
      ensures forall j :: j in merged ==> j in nodes || (j in newNodes && merged[j] == newNodes[j]) || fresh(merged[j])
      ensures Values(merged) == old(Values(newNodes))[k :=
                if k in nodes
                then old(nodes[k].Value()).(address := address, status := status, lastSeen := seen, isLeader := leads)
                else M.Info(k, address, status, seen, "1.0.0", M.ROLE, leads, now)]
    {
      if k in nodes {
        merged := Overwrite(newNodes, k, address, status, seen, leads);
      } else {
        var node := new Node(M.Info(k, address, status, seen, "1.0.0", M.ROLE, leads, now));
        merged := newNodes[k := node];
      }
    }

    /** One heartbeat entry: skipped without an identifier or for self, else merged. */
    method ReadEntry(newNodes: map<ID, Node>, e: M.Entry, now: Time, ghost before: M.View)
      returns (merged: map<ID, Node>)
      requires Valid() && Shares(newNodes) && SameHistory(before) && nodes.Keys == before.Keys
      modifies nodes.Values
      ensures Shares(merged) && SameHistory(before)
      ensures forall k :: k in merged ==> k in nodes || (k in newNodes && merged[k] == newNodes[k]) || fresh(merged[k])
      ensures Values(merged) == if e.id.Some? && e.id.value != nodeID
                                then old(Values(newNodes))[e.id.value := M.MergeEntry(M.Heartbeat, before,
                                    e.id.value, e, now)]
                                else old(Values(newNodes))
    {
      merged := newNodes;
      if e.id.Some? && e.id.value != nodeID {
        var seconds := e.lastSeen.GetOr(0.0);
        merged := Put(newNodes, e.id.value, e.address.GetOr(""), e.status.GetOr(M.OtherStatus("")),
                      if seconds > 0.0 then FromUnix(M.Truncate(seconds)) else now, e.isLeader.GetOr(false), now);
      }
    }

    /** The membership loop of `UpdateNodesFromHeartbeat`. */
    method ReadHeartbeat(start: map<ID, Node>, entries: seq<M.Entry>, now: Time, ghost before: M.View)
      returns (newNodes: map<ID, Node>)
      requires Valid() && Shares(start) && SameHistory(before) && nodes.Keys == before.Keys
      requires Values(start) == M.Merged(M.Heartbeat, nodeID, isLeader, before, [], now)
      modifies nodes.Values
      ensures Shares(newNodes)
      ensures forall k :: k in newNodes ==> k in nodes || (k in start && newNodes[k] == start[k]) || fresh(newNodes[k])
      ensures Values(newNodes) == M.Merged(M.Heartbeat, nodeID, isLeader, before, entries, now)
    {
      newNodes := start;
      for i := 0 to |entries|
        invariant Shares(newNodes) && SameHistory(before)
        invariant forall k :: k in newNodes ==>
                    k in nodes || (k in start && newNodes[k] == start[k]) || fresh(newNodes[k])
        invariant Values(newNodes) == M.Merged(M.Heartbeat, nodeID, isLeader, before, entries[..i], now)
      {
        assert entries[..i + 1] == entries[..i] + [entries[i]];
        M.MergedStep(M.Heartbeat, nodeID, isLeader, before, entries[..i], entries[i], now);
        newNodes := ReadEntry(newNodes, entries[i], now, before);
      }
      assert entries[..|entries|] == entries;
    }

    /** A heartbeat's new map starts from the self node, which is created when missing. */
    method KeepSelf(now: Time) returns (start: map<ID, Node>)
      requires Valid()
      ensures Shares(start) && forall k :: k in start ==> k in nodes || fresh(start[k])
      ensures Values(start) == M.Merged(M.Heartbeat, nodeID, isLeader, View(), [], now)
    {
      if nodeID in nodes {
        start := map[nodeID := nodes[nodeID]];
      } else {
        var self := new Node(M.Info(nodeID, "0.0.0.0:8082", M.Active, now, "1.0.0", M.ROLE, isLeader, now));
        start := map[nodeID := self];
      }
      M.SameMembers(Values(start), M.Merged(M.Heartbeat, nodeID, isLeader, View(), [], now));
    }

    /** The new map: self, then what the entries say. */
    method MergeHeartbeat(entries: seq<M.Entry>, now: Time) returns (newNodes: map<ID, Node>)
      requires Valid()
      modifies nodes.Values
      ensures Shares(newNodes) && forall k :: k in newNodes ==> k in nodes || fresh(newNodes[k])
      ensures Values(newNodes) == M.Merged(M.Heartbeat, nodeID, isLeader, old(View()), entries, now)
    {
      ghost var before := View();
      var start := KeepSelf(now);
      newNodes := ReadHeartbeat(start, entries, now, before);
    }

    method UpdateNodesFromHeartbeat(leader: ID, entries: seq<M.Entry>, now: Time)
      requires Valid()
      modifies this, nodes.Values
      ensures Valid() && forall k :: k in nodes ==> (k in old(nodes) && nodes[k] == old(nodes)[k]) || fresh(nodes[k])
      ensures Value() == M.UpdateFromHeartbeat(old(Value()), leader, entries, now)
    {
      leaderID := leader;
      isLeader := leader == nodeID;
      assert View() == old(View());
      var newNodes := MergeHeartbeat(entries, now);
      nodes := newNodes;
    }

    /** One discovered item: scalars and objects without an identifier are skipped, and so is self. */
    method ReadItem(newNodes: map<ID, Node>, item: M.Item, now: Time, ghost before: M.View)
      returns (merged: map<ID, Node>)
      requires Valid() && Shares(newNodes) && SameHistory(before) && nodes.Keys == before.Keys
      modifies nodes.Values
      ensures Shares(merged) && SameHistory(before)
      ensures forall k :: k in merged ==> k in nodes || (k in newNodes && merged[k] == newNodes[k]) || fresh(merged[k])
      ensures Values(merged) == if item.Object? && item.entry.id.Some? && item.entry.id.value != nodeID
                                then old(Values(newNodes))[item.entry.id.value := M.MergeEntry(M.Discovery, before,
                                    item.entry.id.value, item.entry, now)]
                                else old(Values(newNodes))
    {
      merged := newNodes;
      if item.Object? && item.entry.id.Some? && item.entry.id.value != nodeID {
        var e := item.entry;
        merged := Put(newNodes, e.id.value, e.address.GetOr(""), e.status.GetOr(M.OtherStatus("")),
                      match e.lastSeen case Some(x) => FromUnix(M.Truncate(x)) case None => now,
                          e.isLeader.GetOr(false), now);
      }
    }

    /** The membership loop of `updateClusterMembership`. */
    method ReadItems(start: map<ID, Node>, items: seq<M.Item>, now: Time, ghost before: M.View)
      returns (newNodes: map<ID, Node>)
      requires Valid() && Shares(start) && SameHistory(before) && nodes.Keys == before.Keys
      requires Values(start) == M.Merged(M.Discovery, nodeID, isLeader, before, [], now)
      modifies nodes.Values
      ensures Shares(newNodes)
      ensures forall k :: k in newNodes ==> k in nodes || (k in start && newNodes[k] == start[k]) || fresh(newNodes[k])
      ensures Values(newNodes) == M.Merged(M.Discovery, nodeID, isLeader, before, M.Objects(items), now)
    {
      newNodes := start;
      for i := 0 to |items|
        invariant Shares(newNodes) && SameHistory(before)
        invariant forall k :: k in newNodes ==>
                    k in nodes || (k in start && newNodes[k] == start[k]) || fresh(newNodes[k])
        invariant Values(newNodes) == M.Merged(M.Discovery, nodeID, isLeader, before, M.Objects(items[..i]), now)
      {
        assert items[..i + 1] == items[..i] + [items[i]];
        M.MergedItemStep(nodeID, isLeader, before, items[..i], items[i], now);
        newNodes := ReadItem(newNodes, items[i], now, before);
      }
      assert items[..|items|] == items;
    }

    method MergeItems(items: seq<M.Item>, now: Time) returns (newNodes: map<ID, Node>)
      requires Valid()
      modifies nodes.Values
      ensures Shares(newNodes) && forall k :: k in newNodes ==> k in nodes || fresh(newNodes[k])
      ensures Values(newNodes) == M.Merged(M.Discovery, nodeID, isLeader, old(View()), M.Objects(items), now)
    {
      ghost var before := View();
      var start := PreserveSelf(now);
      newNodes := ReadItems(start, items, now, before);
    }

    method UpdateClusterMembership(items: seq<M.Item>, now: Time)
      requires Valid()
      modifies this`nodes, nodes.Values
      ensures Valid() && forall k :: k in nodes ==> (k in old(nodes) && nodes[k] == old(nodes)[k]) || fresh(nodes[k])
      ensures Value() == M.UpdateMembership(old(Value()), items, now)
    {
      var newNodes := MergeItems(items, now);
      nodes := newNodes;
    }

    /** Discovery keeps the self node when there is one. */
    method PreserveSelf(ghost now: Time) returns (start: map<ID, Node>)
      requires Valid()
      ensures Shares(start) && start.Keys <= nodes.Keys
      ensures Values(start) == M.Merged(M.Discovery, nodeID, isLeader, View(), [], now)
    {
      start := if nodeID in nodes then map[nodeID := nodes[nodeID]] else map[];
      M.SameMembers(Values(start), M.Merged(M.Discovery, nodeID, isLeader, View(), [], now));
    }

    // ---- Heartbeats and health ---------------------------------------------

    /** The payload of a heartbeat: each member once, in the order the map happens to be ranged over. */
    method Snapshot() returns (entries: seq<M.Entry>)
      requires Valid()
      ensures M.Enumerates(entries, View())
    {
      entries := [];
      var rest := nodes.Keys;
      while rest != {}
        invariant rest <= nodes.Keys && |entries| + |rest| == |nodes.Keys|
        invariant forall e :: e in entries ==>
                    e.id.Some? && e.id.value in nodes && e == M.EntryOf(e.id.value, View()[e.id.value])
        invariant forall k :: k in nodes && k !in rest ==> M.EntryOf(k, View()[k]) in entries
      {
        var k :| k in rest;
        var node := nodes[k];
        entries := entries + [M.Entry(Some(node.id), Some(node.address), Some(node.status), Some(node.isLeader),
            Some(Unix(node.lastSeen) as real))];
        rest := rest - {k};
      }
      assert View().Keys == nodes.Keys;
    }

    /** The peers a round of heartbeats is sent to: all members but self. */
    method Peers() returns (peers: seq<ID>)
      requires Valid()
      ensures forall k :: k in peers <==> k in nodes && k != nodeID
      ensures forall i, j :: 0 <= i < j < |peers| ==> peers[i] != peers[j]
    {
      peers := [];
      var rest := nodes.Keys;
      while rest != {}
        invariant rest <= nodes.Keys
        invariant forall k :: k in peers <==> k in nodes && k !in rest && k != nodeID
        invariant forall i, j :: 0 <= i < j < |peers| ==> peers[i] != peers[j]
      {
        var k :| k in rest;
        if nodes[k].id != nodeID {
          peers := peers + [nodes[k].id];
        }
        rest := rest - {k};
      }
    }

    method TouchSelf(now: Time)
      requires Valid()
      modifies nodes.Values
      ensures Value() == M.TouchSelf(old(Value()), now)
    {
      if nodeID in nodes {
        nodes[nodeID].lastSeen := now;
        assert forall k :: k in nodes && k != nodeID ==> nodes[k] != nodes[nodeID];
      }
    }

    /** A heartbeat to `peer` came back with status OK. */
    method Acknowledge(peer: ID, now: Time)
      requires Valid()
      modifies nodes.Values
      ensures Value() == M.Acknowledge(old(Value()), peer, now)
    {
      if peer in nodes {
        nodes[peer].lastSeen := now;
        nodes[peer].status := M.Active;
        assert forall k :: k in nodes && k != peer ==> nodes[k] != nodes[peer];
      }
    }

    /** One peer in the health check. */
    method Age(k: ID, now: Time)
      requires Valid() && k in nodes
      modifies nodes[k]
      ensures View() == old(View())[k := M.Aged(old(View())[k], now, heartbeatTimeout * 3)]
    {
      var node := nodes[k];
      assert forall j :: j in nodes && j != k ==> nodes[j] != node;
      if now - node.lastSeen > heartbeatTimeout * 3 {
        if node.status == M.Active {
          node.status := M.Failed;
        }
      }
    }

    method CheckNodeHealth(now: Time)
      requires Valid()
      modifies nodes.Values
      ensures Value() == M.CheckHealth(old(Value()), now, heartbeatTimeout)
    {
      ghost var before := View();
      var rest := nodes.Keys;
      M.NoneChecked(before, nodeID, now, heartbeatTimeout * 3);
      while rest != {}
        invariant rest <= nodes.Keys == before.Keys
        invariant View() == M.Checked(before, nodeID, rest, now, heartbeatTimeout * 3)
      {
        var k :| k in rest;
        M.CheckedStep(before, nodeID, rest, k, now, heartbeatTimeout * 3);
        if nodes[k].id != nodeID {
          Age(k, now);
        }
        rest := rest - {k};
      }
    }

    // ---- Leadership --------------------------------------------------------

    method BecomeLeader()
      requires Valid()
      modifies this`isLeader, this`leaderID, nodes.Values
      ensures Valid() && Value() == M.BecomeLeader(old(Value()))
    {
      isLeader := true;
      leaderID := nodeID;
      if nodeID in nodes {
        assert forall k :: k in nodes && k != nodeID ==> nodes[k] != nodes[nodeID];
        nodes[nodeID].isLeader := true;
      }
    }

    method Mark(k: ID, leader: ID)
      requires Valid() && k in nodes
      modifies nodes[k]
      ensures View() == old(View())[k := old(View())[k].(isLeader := k == leader)]
    {
      assert forall j :: j in nodes && j != k ==> nodes[j] != nodes[k];
      nodes[k].isLeader := nodes[k].id == leader;
    }

    method SetLeader(leader: ID)
      requires Valid()
      modifies this`isLeader, this`leaderID, nodes.Values
      ensures Valid() && Value() == M.SetLeader(old(Value()), leader)
    {
      ghost var before := View();
      isLeader := leader == nodeID;
      leaderID := leader;
      var rest := nodes.Keys;
      M.NoneMarked(before, leader);
      while rest != {}
        invariant rest <= nodes.Keys == before.Keys
        invariant View() == M.Marked(before, leader, rest)
        invariant leaderID == leader && isLeader == (leader == nodeID)
      {
        var k :| k in rest;
        M.MarkedStep(before, leader, rest, k);
        Mark(k, leader);
        rest := rest - {k};
      }
    }

    /** The active members, each once, in arbitrary order. */
    method GetActiveNodes() returns (active: seq<ID>)
      requires Valid()
      ensures forall k :: k in active <==> k in M.ActiveIds(Value())
      ensures forall i, j :: 0 <= i < j < |active| ==> active[i] != active[j]
    {
      active := [];
      var rest := nodes.Keys;
      while rest != {}
        invariant rest <= nodes.Keys
        invariant forall k :: k in active <==> k in nodes && k !in rest && nodes[k].status == M.Active
        invariant forall i, j :: 0 <= i < j < |active| ==> active[i] != active[j]
      {
        var k :| k in rest;
        if nodes[k].status == M.Active {
          active := active + [nodes[k].id];
        }
        rest := rest - {k};
      }
    }

    method ShouldStartElection() returns (due: bool)
      requires Valid()
      ensures due == M.ElectionDue(Value())
    {
      if leaderID == [] {
        return true;
      }
      if leaderID in nodes {
        return nodes[leaderID].status == M.Failed;
      }
      return true;
    }

    /** The running minimum of `startLeaderElection`. */
    method LowestID(active: seq<ID>) returns (lowest: ID)
      ensures IsMin(lowest, (set k | k in active) + {nodeID})
    {
      lowest := nodeID;
      Trichotomy(nodeID, nodeID);
      for i := 0 to |active|
        invariant lowest == nodeID || lowest in active
        invariant AtMost(lowest, nodeID) && forall j :: 0 <= j < i ==> AtMost(lowest, active[j])
      {
        if Less(active[i], lowest) {
          Trichotomy(active[i], lowest);
          Trichotomy(active[i], active[i]);
          AtMostTransitive(active[i], lowest, nodeID);
          forall j | 0 <= j < i
            ensures AtMost(active[i], active[j])
          {
            AtMostTransitive(active[i], lowest, active[j]);
          }
          lowest := active[i];
        }
      }
    }

    /** Fast path and scan together install the least of self and the active members. */
    method StartLeaderElection()
      requires Valid()
      modifies this`isLeader, this`leaderID, nodes.Values
      ensures Valid() && Value() == M.StartElection(old(Value()))
    {
      ghost var candidates := M.ActiveIds(Value()) + {nodeID};
      var active := GetActiveNodes();
      assert (set k | k in active) + {nodeID} == candidates;
      if |active| == 0 || (|active| == 1 && active[0] == nodeID) {
        assert candidates == {nodeID};
        BecomeLeader();
        return;
      }
      var lowest := LowestID(active);
      MinIsUnique(lowest, Least(candidates), candidates);
      if lowest == nodeID {
        BecomeLeader();
      } else {
        SetLeader(lowest);
      }
    }

    // ---- Membership by hand ------------------------------------------------

    /** The caller's node object itself becomes a member. */
    method AddNode(node: Node) returns (ok: bool)
      requires Valid()
      modifies this`nodes
      ensures Valid() && ok == (node.id !in old(nodes))
      ensures nodes == if ok then old(nodes)[node.id := node] else old(nodes)
      ensures Value() == M.AddNode(old(Value()), node.Value())
    {
      ok := node.id !in nodes;
      if ok {
        nodes := nodes[node.id := node];
      }
    }

    /** `elect` tells that the removed node was the leader, so an election is spawned. */
    method RemoveNode(k: ID) returns (ok: bool, elect: bool)
      requires Valid()
      modifies this`nodes
      ensures Valid() && ok == (k in old(nodes)) && elect == (ok && k == leaderID)
      ensures Value() == M.RemoveNode(old(Value()), k)
    {
      ok, elect := k in nodes, false;
      if ok {
        nodes := nodes - {k};
        elect := k == leaderID;
      }
    }

    method UpdateNodeStatus(k: ID, status: M.Status, now: Time) returns (ok: bool)
      requires Valid()
      modifies nodes.Values
      ensures Valid() && ok == (k in nodes)
      ensures Value() == M.UpdateNodeStatus(old(Value()), k, status, now)
    {
      ok := k in nodes;
      if ok {
        assert forall j :: j in nodes && j != k ==> nodes[j] != nodes[k];
        nodes[k].status := status;
        nodes[k].lastSeen := now;
      }
    }
  }
}
