/**
 Lowest-identifier elections: what one of them decides, when it settles the matter, and
 why managers that see the same active members elect the same node.
 */
module Elections {
  import opened Prelude
  import opened Ids
  import opened Membership

  /** Following x marks x, if it is a member, and unmarks everyone else; nothing else of a member changes. */
  lemma FollowedLeaderIsMarked(m: Manager, x: ID, k: ID)
    requires k in m.nodes
    ensures var after := SetLeader(m, x);
            && after.id == m.id && after.leaderID == x && (after.isLeader <==> x == m.id)
            && after.nodes.Keys == m.nodes.Keys
            && (after.nodes[k].isLeader <==> k == x)
            && after.nodes[k] == m.nodes[k].(isLeader := after.nodes[k].isLeader)
  {
  }

  /** Becoming leader marks self, if it is a member, and leaves everyone else alone, former leaders included. */
  lemma OwnLeadershipIsMarked(m: Manager, k: ID)
    requires k in m.nodes
    ensures var after := BecomeLeader(m);
            && after.id == m.id && after.leaderID == m.id && after.isLeader
            && after.nodes.Keys == m.nodes.Keys
            && after.nodes[k] == m.nodes[k].(isLeader := k == m.id || m.nodes[k].isLeader)
  {
  }

  /** Whoever an election names is self or a member marked active, and no such identifier is lower. */
  lemma LowestActiveIsElected(m: Manager)
    ensures var leader := StartElection(m).leaderID;
            && (leader == m.id || (leader in m.nodes && m.nodes[leader].status == Active))
            && AtMost(leader, m.id)
            && forall k :: k in m.nodes && m.nodes[k].status == Active ==> AtMost(leader, k)
  {
    assert IsMin(Winner(m), ActiveIds(m) + {m.id});
    assert forall k :: k in m.nodes && m.nodes[k].status == Active ==> k in ActiveIds(m) + {m.id};
  }

  /** An election names its winner leader, marks it, and leaves the manager coherent. */
  lemma ElectionInstallsWinner(m: Manager)
    ensures var elected := StartElection(m);
            && elected.leaderID == Winner(m)
            && elected.isLeader == (Winner(m) == m.id)
            && Coherent(elected)
            && elected.nodes.Keys == m.nodes.Keys && ActiveIds(elected) == ActiveIds(m)
            && (Winner(m) in m.nodes ==> elected.nodes[Winner(m)].isLeader)
            && (Winner(m) != m.id ==> forall k :: k in m.nodes ==> (elected.nodes[k].isLeader <==> k == Winner(m)))
  {
    var elected := StartElection(m);
    assert forall k :: k in m.nodes ==> elected.nodes[k].status == m.nodes[k].status;
  }

  /** Managers that share one active set containing them all elect the same node. */
  ghost predicate ShareActive(managers: seq<Manager>, active: set<ID>) {
    forall i :: 0 <= i < |managers| ==> ActiveIds(managers[i]) == active && managers[i].id in active
  }

  ghost predicate DistinctIds(managers: seq<Manager>) {
    forall i, j :: 0 <= i < j < |managers| ==> managers[i].id != managers[j].id
  }

  /** All elect the least active identifier, and nobody else considers itself leader. */
  lemma SharedViewElectsOne(managers: seq<Manager>, active: set<ID>, i: nat)
    requires ShareActive(managers, active) && i < |managers|
    ensures StartElection(managers[i]).leaderID == Least(active)
    ensures StartElection(managers[i]).isLeader <==> managers[i].id == Least(active)
  {
    assert ActiveIds(managers[i]) + {managers[i].id} == active;
    ElectionInstallsWinner(managers[i]);
  }

  /** When every active member takes part, exactly one manager ends as leader. */
  lemma ExactlyOneLeader(managers: seq<Manager>, active: set<ID>) returns (leader: nat)
    requires ShareActive(managers, active) && DistinctIds(managers) && managers != []
    requires forall k :: k in active ==> exists i :: 0 <= i < |managers| && managers[i].id == k
    ensures leader < |managers|
    ensures forall i :: 0 <= i < |managers| ==> (StartElection(managers[i]).isLeader <==> i == leader)
    ensures forall i :: 0 <= i < |managers| ==> StartElection(managers[i]).leaderID == managers[leader].id
  {
    assert managers[0].id in active;
    leader :| 0 <= leader < |managers| && managers[leader].id == Least(active);
    forall i | 0 <= i < |managers|
      ensures StartElection(managers[i]).isLeader <==> i == leader
      ensures StartElection(managers[i]).leaderID == managers[leader].id
    {
      SharedViewElectsOne(managers, active, i);
    }
  }

  /** The empty identifier is below all others. */
  lemma EmptyIsLeast(s: set<ID>)
    requires s != {}
    ensures Least(s) == [] <==> [] in s
  {
    if [] in s {
      Trichotomy(Least(s), []);
    }
  }

  /**
   After an election the node leads or no election is due, except when a member with the
   empty identifier is active: it wins, and an empty leader never ends the search.
   */
  lemma ElectionSettles(m: Manager)
    requires m.id != []
    ensures var elected := StartElection(m);
            elected.isLeader || !ElectionDue(elected) <==> [] !in ActiveIds(m)
  {
    ElectionInstallsWinner(m);
    EmptyIsLeast(ActiveIds(m) + {m.id});
    var elected := StartElection(m);
    assert Winner(m) != m.id ==> Winner(m) in ActiveIds(elected);
  }

  /** Merged heartbeats that list their sender as active leave no election due. */
  lemma HeartbeatSettles(m: Manager, leader: ID, entries: seq<Entry>, now: int)
    requires leader != [] && leader != m.id
    requires LastEntry(entries, leader).Some? && LastEntry(entries, leader).value.status == Some(Active)
    ensures var updated := UpdateFromHeartbeat(m, leader, entries, now);
            !ElectionDue(updated) && Coherent(updated) && !updated.isLeader
  {
    var updated := UpdateFromHeartbeat(m, leader, entries, now);
    MergedFind(Heartbeat, m.id, leader == m.id, m.nodes, entries, now, leader);
  }
}
