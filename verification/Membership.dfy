/**
 The cluster manager's state as a value, and what each critical section of the
 manager does to it. Class ClusterManager.Manager is proved to follow these functions.
 */
module Membership {
  import opened Prelude
  import opened GoTime
  import opened Ids

  datatype Status = Active | Inactive | Failed | OtherStatus(name: string)

  /** The value of one `Node` object. */
  datatype Info = Info(id: ID, address: string, status: Status, lastSeen: Time, version: string,
                       metadata: map<string, string>, isLeader: bool, joinedAt: Time)

  type View = map<ID, Info>

  /**
   One decoded JSON object of a node list; a field of the wrong type counts as missing. Numbers are decoded as
   reals.
   */
  datatype Entry = Entry(id: Option<ID>, address: Option<string>, status: Option<Status>,
                         isLeader: Option<bool>, lastSeen: Option<real>)

  datatype Manager = Manager(id: ID, nodes: View, isLeader: bool, leaderID: ID)

  /** Membership keys are the identifiers of their nodes. */
  ghost predicate WellKeyed(view: View) {
    forall k :: k in view ==> view[k].id == k
  }

  /** A node belief is coherent when it calls itself leader exactly if the leader it follows is itself. */
  predicate Coherent(m: Manager) {
    m.isLeader <==> m.leaderID == m.id
  }

  // ---- Snapshots ---------------------------------------------------------

  /** What a snapshot says of the member filed under k. */
  function EntryOf(k: ID, info: Info): Entry {
    Entry(Some(k), Some(info.address), Some(info.status), Some(info.isLeader), Some(Unix(info.lastSeen) as real))
  }

  function IdsOf(entries: seq<Entry>): set<ID> {
    set e | e in entries && e.id.Some? :: e.id.value
  }

  /** The entries list each member of the view once, in whatever order the map was ranged over. */
  ghost predicate Enumerates(entries: seq<Entry>, view: View) {
    && |entries| == |view|
    && (forall e :: e in entries ==> e.id.Some? && e.id.value in view && e == EntryOf(e.id.value, view[e.id.value]))
    && (forall k :: k in view ==> EntryOf(k, view[k]) in entries)
  }

  // ---- Merging a node list -----------------------------------------------

  /** The two loops that rebuild the membership differ in the treatment of self and of timestamps. */
  datatype Source = Heartbeat | Discovery

  /** Go's `int64(x)`: truncation towards zero. */
  function Truncate(x: real): int {
    if x >= 0.0 then x.Floor else -(-x).Floor
  }

  function SeenAt(source: Source, e: Entry, now: Time): Time {
    match e.lastSeen
    case None => now
    case Some(x) => if source.Heartbeat? && x <= 0.0 then now else FromUnix(Truncate(x))
  }

  function LastEntry(entries: seq<Entry>, k: ID): Option<Entry> {
    if entries == [] then None
    else if entries[|entries| - 1].id == Some(k) then Some(entries[|entries| - 1])
    else LastEntry(entries[..|entries| - 1], k)
  }

  /** The last entry of k is an entry of k, and is missing only when there is none. */
  lemma {:induction false} LastEntryFound(entries: seq<Entry>, k: ID)
    ensures match LastEntry(entries, k)
            case Some(e) => e in entries && e.id == Some(k)
            case None => forall e :: e in entries ==> e.id != Some(k)
  {
    if entries != [] && entries[|entries| - 1].id != Some(k) {
      LastEntryFound(entries[..|entries| - 1], k);
      assert entries == entries[..|entries| - 1] + [entries[|entries| - 1]];
    }
  }

  const ROLE: map<string, string> := map["role" := "sync-node"]

  /** A known member keeps its identity and history; an unknown one is created. */
  function MergeEntry(source: Source, prev: View, k: ID, e: Entry, now: Time): Info {
    var address, status := e.address.GetOr(""), e.status.GetOr(OtherStatus(""));
    var leads, seen := e.isLeader.GetOr(false), SeenAt(source, e, now);
    if k in prev
    then prev[k].(address := address, status := status, lastSeen := seen, isLeader := leads)
    else Info(k, address, status, seen, "1.0.0", ROLE, leads, now)
  }

  /** What survives of self before the list is read. */
  function Self(source: Source, self: ID, leads: bool, prev: View, now: Time): Option<Info> {
    if self in prev then Some(prev[self])
    else match source
    case Heartbeat => Some(Info(self, "0.0.0.0:8082", Active, now, "1.0.0", ROLE, leads, now))
    case Discovery => None
  }

  function Find(view: View, k: ID): Option<Info> {
    if k in view then Some(view[k]) else None
  }

  lemma SameMembers(a: View, b: View)
    requires forall k :: Find(a, k) == Find(b, k)
    ensures a == b
  {
    forall k
      ensures k in a <==> k in b
      ensures k in a ==> a[k] == b[k]
    {
      assert Find(a, k) == Find(b, k);
    }
  }

  /** The member filed under k after a merge: self, or what the last entry for k says. */
  function MergedAt(source: Source, self: ID, leads: bool, prev: View, entries: seq<Entry>, now: Time,
          k: ID): Option<Info> {
    if k == self then Self(source, self, leads, prev, now)
    else match LastEntry(entries, k)
    case None => None
    case Some(e) => Some(MergeEntry(source, prev, k, e, now))
  }

  /** The new membership. */
  function Merged(source: Source, self: ID, leads: bool, prev: View, entries: seq<Entry>, now: Time): View {
    map k | k in {self} + IdsOf(entries) && MergedAt(source, self, leads, prev, entries, now, k).Some? ::
      MergedAt(source, self, leads, prev, entries, now, k).value
  }

  /** The membership is self plus, for every listed identifier, what its last entry says. */
  lemma MergedFind(source: Source, self: ID, leads: bool, prev: View, entries: seq<Entry>, now: Time, k: ID)
    ensures Find(Merged(source, self, leads, prev, entries, now), k) == MergedAt(source, self, leads, prev, entries,
        now, k)
  {
    LastEntryFound(entries, k);
    if LastEntry(entries, k).Some? {
      assert k in IdsOf(entries);
    }
  }

  lemma LastEntryStep(entries: seq<Entry>, e: Entry, k: ID)
    ensures LastEntry(entries + [e], k) == if e.id == Some(k) then Some(e) else LastEntry(entries, k)
  {
    assert (entries + [e])[..|entries|] == entries;
  }

  /** Reading one more entry changes the one member it names, and nothing else. */
  lemma MergedStep(source: Source, self: ID, leads: bool, prev: View, entries: seq<Entry>, e: Entry, now: Time)
    ensures Merged(source, self, leads, prev, entries + [e], now)
            == if e.id.Some? && e.id.value != self
               then Merged(source, self, leads, prev, entries, now)[e.id.value := MergeEntry(source, prev,
                   e.id.value, e, now)]
               else Merged(source, self, leads, prev, entries, now)
  {
    var before, after := Merged(source, self, leads, prev, entries, now), Merged(source, self, leads, prev,
        entries + [e], now);
    var stepped := if e.id.Some?
        && e.id.value != self then before[e.id.value := MergeEntry(source, prev, e.id.value, e, now)] else before;
    forall k
      ensures Find(after, k) == Find(stepped, k)
    {
      MergedFind(source, self, leads, prev, entries, now, k);
      LastEntryStep(entries, e, k);
    }
    SameMembers(after, stepped);
  }

  /** The second half of `UpdateNodesFromHeartbeat`, after the leader mutex is released. */
  function MergeBeat(m: Manager, entries: seq<Entry>, now: Time): Manager {
    m.(nodes := Merged(Heartbeat, m.id, m.isLeader, m.nodes, entries, now))
  }

  /** `UpdateNodesFromHeartbeat`, uninterrupted. */
  function UpdateFromHeartbeat(m: Manager, leader: ID, entries: seq<Entry>, now: Time): Manager {
    MergeBeat(SetLeaderFlag(m, leader), entries, now)
  }

  /** One element of a discovered node list: a JSON object, or anything else. */
  datatype Item = Scalar | Object(entry: Entry)

  function Objects(items: seq<Item>): (entries: seq<Entry>)
    ensures forall e :: e in entries ==> Object(e) in items
  {
    if items == [] then []
    else (match items[0] case Scalar => [] case Object(e) => [e]) + Objects(items[1..])
  }

  lemma {:induction false} ObjectsStep(items: seq<Item>, item: Item)
    ensures Objects(items + [item]) == Objects(items) + match item case Scalar => [] case Object(e) => [e]
  {
    if items == [] {
      assert (items + [item])[1..] == [];
    } else {
      ObjectsStep(items[1..], item);
      assert (items + [item])[1..] == items[1..] + [item];
    }
  }

  lemma MergedItemStep(self: ID, leads: bool, prev: View, items: seq<Item>, item: Item, now: Time)
    ensures Merged(Discovery, self, leads, prev, Objects(items + [item]), now)
            == if item.Object? && item.entry.id.Some? && item.entry.id.value != self
               then Merged(Discovery, self, leads, prev, Objects(items), now)[item.entry.id.value :=
                      MergeEntry(Discovery, prev, item.entry.id.value, item.entry, now)]
               else Merged(Discovery, self, leads, prev, Objects(items), now)
  {
    ObjectsStep(items, item);
    if item.Object? {
      MergedStep(Discovery, self, leads, prev, Objects(items), item.entry, now);
    } else {
      assert Objects(items) + [] == Objects(items);
    }
  }

  /** `updateClusterMembership`. */
  function UpdateMembership(m: Manager, items: seq<Item>, now: Time): Manager {
    m.(nodes := Merged(Discovery, m.id, m.isLeader, m.nodes, Objects(items), now))
  }

  // ---- The other critical sections ---------------------------------------

  function TouchSelf(m: Manager, now: Time): Manager {
    if m.id in m.nodes then m.(nodes := m.nodes[m.id := m.nodes[m.id].(lastSeen := now)]) else m
  }

  /** A heartbeat to `peer` was answered. */
  function Acknowledge(m: Manager, peer: ID, now: Time): Manager {
    if peer in m.nodes then m.(nodes := m.nodes[peer := m.nodes[peer].(lastSeen := now, status := Active)]) else m
  }

  function Aged(info: Info, now: Time, timeout: Time): Info {
    if now - info.lastSeen > timeout && info.status.Active? then info.(status := Failed) else info
  }

  /** The view while the peers in `rest` are still to be checked. */
  function Checked(view: View, self: ID, rest: set<ID>, now: Time, timeout: Time): View {
    map k | k in view :: if k == self || k in rest then view[k] else Aged(view[k], now, timeout)
  }

  lemma NoneChecked(view: View, self: ID, now: Time, timeout: Time)
    ensures Checked(view, self, view.Keys, now, timeout) == view
  {
  }

  lemma CheckedStep(view: View, self: ID, rest: set<ID>, k: ID, now: Time, timeout: Time)
    requires k in rest && k in view
    ensures var checked := Checked(view, self, rest, now, timeout);
            && checked[k] == view[k]
            && Checked(view, self, rest - {k}, now, timeout) == if k ==
                self then checked else checked[k := Aged(view[k], now, timeout)]
  {
  }

  function CheckHealth(m: Manager, now: Time, heartbeatTimeout: Time): Manager {
    m.(nodes := Checked(m.nodes, m.id, {}, now, heartbeatTimeout * 3))
  }

  function BecomeLeaderFlag(m: Manager): Manager {
    m.(isLeader := true, leaderID := m.id)
  }

  function MarkSelfLeader(m: Manager): Manager {
    if m.id in m.nodes then m.(nodes := m.nodes[m.id := m.nodes[m.id].(isLeader := true)]) else m
  }

  function SetLeaderFlag(m: Manager, leader: ID): Manager {
    m.(isLeader := leader == m.id, leaderID := leader)
  }

  /** The view while the members in `rest` still carry their previous leader flag. */
  function Marked(view: View, leader: ID, rest: set<ID>): View {
    map k | k in view :: if k in rest then view[k] else view[k].(isLeader := k == leader)
  }

  lemma NoneMarked(view: View, leader: ID)
    ensures Marked(view, leader, view.Keys) == view
  {
  }

  lemma MarkedStep(view: View, leader: ID, rest: set<ID>, k: ID)
    requires k in rest && k in view
    ensures var marked := Marked(view, leader, rest);
            && marked[k] == view[k]
            && Marked(view, leader, rest - {k}) == marked[k := view[k].(isLeader := k == leader)]
  {
  }

  function MarkLeader(m: Manager, leader: ID): Manager {
    m.(nodes := Marked(m.nodes, leader, {}))
  }

  function BecomeLeader(m: Manager): Manager {
    MarkSelfLeader(BecomeLeaderFlag(m))
  }

  function SetLeader(m: Manager, leader: ID): Manager {
    MarkLeader(SetLeaderFlag(m, leader), leader)
  }

  function ActiveIds(m: Manager): set<ID> {
    set k | k in m.nodes && m.nodes[k].status.Active?
  }

  predicate ElectionDue(m: Manager) {
    m.leaderID == [] || m.leaderID !in m.nodes || m.nodes[m.leaderID].status.Failed?
  }

  /** AddNode refuses an identifier that is already a member. */
  function AddNode(m: Manager, info: Info): Manager {
    if info.id in m.nodes then m else m.(nodes := m.nodes[info.id := info])
  }

  function RemoveNode(m: Manager, k: ID): Manager {
    m.(nodes := m.nodes - {k})
  }

  function UpdateNodeStatus(m: Manager, k: ID, status: Status, now: Time): Manager {
    if k in m.nodes then m.(nodes := m.nodes[k := m.nodes[k].(status := status, lastSeen := now)]) else m
  }

  /** What an election makes of the manager once it has found the winner. */
  function Installed(m: Manager, winner: ID): Manager {
    if winner == m.id then BecomeLeader(m) else SetLeader(m, winner)
  }

  /** The winner an election must find: the least of self and the active members. */
  ghost function Winner(m: Manager): ID {
    Least(ActiveIds(m) + {m.id})
  }

  ghost function StartElection(m: Manager): Manager {
    Installed(m, Winner(m))
  }
}
