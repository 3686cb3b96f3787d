/**
 What the manager's operations do, member by member: who changes, in which fields, and
 that nobody else does.
 */
module MemberOperations {
  import opened Prelude
  import opened GoTime
  import opened Ids
  import opened Membership
  import opened Merging

  /** Leadership and every member but k are as before. */
  ghost predicate OnlyMember(before: Manager, after: Manager, k: ID) {
    && after.id == before.id && after.isLeader == before.isLeader && after.leaderID == before.leaderID
    && (forall j :: j != k ==> (j in after.nodes <==> j in before.nodes))
    && (forall j :: j != k && j in before.nodes ==> after.nodes[j] == before.nodes[j])
  }

  /** All but status and last-seen time. */
  predicate SameBut(a: Info, b: Info) {
    && a.id == b.id && a.address == b.address && a.version == b.version && a.metadata == b.metadata
    && a.isLeader == b.isLeader && a.joinedAt == b.joinedAt
  }

  // ---- One member --------------------------------------------------------

  lemma AddedExactly(m: Manager, info: Info)
    ensures var after := AddNode(m, info);
            && OnlyMember(m, after, info.id) && info.id in after.nodes
            && after.nodes[info.id] == if info.id in m.nodes then m.nodes[info.id] else info
  {
  }

  lemma RemovedExactly(m: Manager, k: ID)
    ensures OnlyMember(m, RemoveNode(m, k), k) && k !in RemoveNode(m, k).nodes
  {
  }

  lemma StatusUpdatedExactly(m: Manager, k: ID, status: Status, now: Time)
    ensures var after := UpdateNodeStatus(m, k, status, now);
            && OnlyMember(m, after, k) && (k in after.nodes <==> k in m.nodes)
            && (k in m.nodes ==>
                  SameBut(after.nodes[k], m.nodes[k]) && after.nodes[k].status == status
                      && after.nodes[k].lastSeen == now)
  {
  }

  lemma AcknowledgedExactly(m: Manager, peer: ID, now: Time)
    ensures var after := Acknowledge(m, peer, now);
            && OnlyMember(m, after, peer) && (peer in after.nodes <==> peer in m.nodes)
            && (peer in m.nodes ==>
                  && SameBut(after.nodes[peer], m.nodes[peer])
                  && after.nodes[peer].status == Active && after.nodes[peer].lastSeen == now)
  {
  }

  lemma SelfTouchedExactly(m: Manager, now: Time)
    ensures var after := TouchSelf(m, now);
            && OnlyMember(m, after, m.id) && (m.id in after.nodes <==> m.id in m.nodes)
            && (m.id in m.nodes ==>
                  && SameBut(after.nodes[m.id], m.nodes[m.id])
                  && after.nodes[m.id].status == m.nodes[m.id].status && after.nodes[m.id].lastSeen == now)
  {
  }

  // ---- All members -------------------------------------------------------

  /**
   A check fails exactly the active peers silent for more than three timeouts, and changes nothing but their
   status.
   */
  lemma CheckedExactly(m: Manager, now: Time, heartbeatTimeout: Time, k: ID)
    requires k in m.nodes
    ensures var after := CheckHealth(m, now, heartbeatTimeout);
            && after.id == m.id && after.isLeader == m.isLeader && after.leaderID == m.leaderID
            && after.nodes.Keys == m.nodes.Keys
            && SameBut(after.nodes[k], m.nodes[k]) && after.nodes[k].lastSeen == m.nodes[k].lastSeen
            && after.nodes[k].status ==
               if k != m.id && m.nodes[k].status == Active
                   && now - m.nodes[k].lastSeen > 3 * heartbeatTimeout then Failed
               else m.nodes[k].status
  {
  }

  // ---- Merging a list, item by item --------------------------------------

  /** Item j is an object that names k. */
  predicate NamedAt(items: seq<Item>, j: int, k: ID) {
    0 <= j < |items| && items[j].Object? && items[j].entry.id == Some(k)
  }

  /** It is the last one to do so. */
  ghost predicate LastNamedAt(items: seq<Item>, j: int, k: ID) {
    NamedAt(items, j, k) && forall i :: j < i ==> !NamedAt(items, i, k)
  }

  lemma {:induction false} LastNamed(items: seq<Item>, k: ID) returns (j: int)
    ensures j == -1 ==> LastEntry(Objects(items), k) == None && forall i :: !NamedAt(items, i, k)
    ensures j != -1 ==> LastNamedAt(items, j, k) && LastEntry(Objects(items), k) == Some(items[j].entry)
    decreases |items|
  {
    if items == [] {
      j := -1;
    } else {
      var before, item := items[..|items| - 1], items[|items| - 1];
      assert items == before + [item];
      ObjectsStep(before, item);
      j := LastNamed(before, k);
      assert forall i :: 0 <= i < |before| ==> (NamedAt(items, i, k) <==> NamedAt(before, i, k));
      if item.Object? {
        LastEntryStep(Objects(before), item.entry, k);
        if item.entry.id == Some(k) {
          j := |items| - 1;
        }
      } else {
        assert Objects(before) + [] == Objects(before);
      }
    }
  }

  /** `int64` of a JSON number: whole seconds, cut towards zero. */
  predicate WholeSeconds(x: real, time: Time) {
    && time % SECOND == 0
    && (x >= 0.0 ==> (time / SECOND) as real <= x < (time / SECOND + 1) as real)
    && (x < 0.0 ==> (time / SECOND - 1) as real < x <= (time / SECOND) as real)
  }

  lemma CutTowardsZero(x: real)
    ensures WholeSeconds(x, FromUnix(Truncate(x)))
  {
    var s := Truncate(x);
    assert s * SECOND / SECOND == s && s * SECOND % SECOND == 0;
  }

  /** The member shows what the entry says, missing fields being empty. */
  predicate Shows(info: Info, e: Entry) {
    && info.address == (if e.address.Some? then e.address.value else "")
    && info.status == (if e.status.Some? then e.status.value else OtherStatus(""))
    && info.isLeader == (e.isLeader.Some? && e.isLeader.value)
  }

  /**
   It is also dated by the entry. Without a usable date it is dated now; a heartbeat has no use for dates up to
   the epoch.
   */
  predicate Tells(source: Source, e: Entry, info: Info, now: Time) {
    Shows(info, e) &&
    match e.lastSeen
    case None => info.lastSeen == now
    case Some(x) => if source.Heartbeat? && x <= 0.0 then info.lastSeen == now else WholeSeconds(x, info.lastSeen)
  }

  ghost predicate AsLastListed(source: Source, items: seq<Item>, k: ID, info: Info, now: Time) {
    exists j :: LastNamedAt(items, j, k) && Tells(source, items[j].entry, info, now)
  }

  lemma EntryTells(source: Source, prev: View, k: ID, e: Entry, now: Time)
    ensures Tells(source, e, MergeEntry(source, prev, k, e, now), now)
  {
    if e.lastSeen.Some? {
      CutTowardsZero(e.lastSeen.value);
    }
  }

  /** Discovery member by member: the identifiers listed, and self if it was there; each as its last object says. */
  lemma DiscoveredExactly(m: Manager, items: seq<Item>, now: Time, k: ID)
    ensures var after := UpdateMembership(m, items, now);
            && after.id == m.id && after.isLeader == m.isLeader && after.leaderID == m.leaderID
            && (k in after.nodes <==> if k == m.id then k in m.nodes else exists j :: NamedAt(items, j, k))
            && (k == m.id && k in m.nodes ==> after.nodes[k] == m.nodes[k])
            && (k != m.id && k in after.nodes ==>
                  KeepsHistory(m.nodes, k, after.nodes[k], now)
                      && AsLastListed(Discovery, items, k, after.nodes[k], now))
  {
    MergedFind(Discovery, m.id, m.isLeader, m.nodes, Objects(items), now, k);
    var last := LastNamed(items, k);
    if last != -1 {
      assert NamedAt(items, last, k);
      EntryTells(Discovery, m.nodes, k, items[last].entry, now);
    }
  }

  /** A heartbeat's list, as items. */
  function AsItems(entries: seq<Entry>): seq<Item> {
    seq(|entries|, j requires 0 <= j < |entries| => Object(entries[j]))
  }

  lemma {:induction false} ObjectsOfItems(entries: seq<Entry>)
    ensures Objects(AsItems(entries)) == entries
  {
    if entries != [] {
      ObjectsOfItems(entries[1..]);
      assert AsItems(entries)[1..] == AsItems(entries[1..]);
    }
  }

  /** A heartbeat member by member: its sender is leader, self is kept or created, everyone else is as last listed. */
  lemma HeardExactly(m: Manager, leader: ID, entries: seq<Entry>, now: Time, k: ID)
    ensures var after, items := UpdateFromHeartbeat(m, leader, entries, now), AsItems(entries);
            && after.id == m.id && after.leaderID == leader && (after.isLeader <==> leader == m.id)
            && (k in after.nodes <==> k == m.id || exists j :: NamedAt(items, j, k))
            && (k == m.id ==>
                  after.nodes[k] == if k in m.nodes then m.nodes[k]
                                    else Info(k, "0.0.0.0:8082", Active, now, "1.0.0", map["role" := "sync-node"],
                                              leader == m.id, now))
            && (k != m.id && k in after.nodes ==>
                  KeepsHistory(m.nodes, k, after.nodes[k], now)
                      && AsLastListed(Heartbeat, items, k, after.nodes[k], now))
  {
    var items := AsItems(entries);
    ObjectsOfItems(entries);
    MergedFind(Heartbeat, m.id, leader == m.id, m.nodes, entries, now, k);
    var last := LastNamed(items, k);
    if last != -1 {
      assert NamedAt(items, last, k);
      EntryTells(Heartbeat, m.nodes, k, items[last].entry, now);
    }
  }
}
