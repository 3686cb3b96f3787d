/**
 What merging a node list achieves, however the maps on either side are enumerated.
 */
module Merging {
  import opened Prelude
  import opened GoTime
  import opened Ids
  import opened Membership

  /** In a snapshot each member is listed once, so its only entry is its last. */
  lemma LastOfSnapshot(entries: seq<Entry>, view: View, k: ID)
    requires Enumerates(entries, view) && WellKeyed(view)
    ensures LastEntry(entries, k) == if k in view then Some(EntryOf(k, view[k])) else None
  {
    LastEntryFound(entries, k);
    if k in view {
      assert EntryOf(k, view[k]) in entries && EntryOf(k, view[k]).id == Some(k);
    }
  }

  /** Whole seconds survive the encoding as a JSON number. */
  lemma SecondsSurvive(k: ID, info: Info, now: Time)
    ensures SeenAt(Heartbeat, EntryOf(k, info), now) ==
        if Unix(info.lastSeen) > 0 then FromUnix(Unix(info.lastSeen)) else now
  {
  }

  /**
   `got` shows what `sent` showed, with the last-seen time in whole seconds (times before the first second are
   replaced).
   */
  predicate Mirrors(sent: Info, got: Info, now: Time) {
    && got.address == sent.address && got.status == sent.status && got.isLeader == sent.isLeader
    && got.lastSeen == if Unix(sent.lastSeen) > 0 then FromUnix(Unix(sent.lastSeen)) else now
  }

  /** A continuing member keeps identity, version, metadata and join time; a new one joins now. */
  predicate KeepsHistory(prev: View, k: ID, got: Info, now: Time) {
    if k in prev
    then got.id == prev[k].id && got.version == prev[k].version && got.metadata == prev[k].metadata
        && got.joinedAt == prev[k].joinedAt
    else got.id == k && got.version == "1.0.0" && got.metadata == ROLE && got.joinedAt == now
  }

  lemma RoundTripAt(sender: Manager, receiver: Manager, entries: seq<Entry>, now: Time, k: ID)
    requires WellKeyed(sender.nodes) && Enumerates(entries, sender.nodes)
    ensures var merged := UpdateFromHeartbeat(receiver, sender.id, entries, now).nodes;
            && (k in merged <==> k in sender.nodes || k == receiver.id)
            && (k in merged && k == receiver.id && k in receiver.nodes ==> merged[k] == receiver.nodes[k])
            && (k in merged && k != receiver.id ==>
                  Mirrors(sender.nodes[k], merged[k], now) && KeepsHistory(receiver.nodes, k, merged[k], now))
  {
    var merged := UpdateFromHeartbeat(receiver, sender.id, entries, now).nodes;
    MergedFind(Heartbeat, receiver.id, sender.id == receiver.id, receiver.nodes, entries, now, k);
    LastOfSnapshot(entries, sender.nodes, k);
    if k in sender.nodes {
      SecondsSurvive(k, sender.nodes[k], now);
    }
  }

  /**
   The round trip: the receiver ends with the sender's members plus itself, mirrors each
   of them, and keeps its own history of those it knew.
   */
  lemma SnapshotRoundTrip(sender: Manager, receiver: Manager, entries: seq<Entry>, now: Time)
    requires WellKeyed(sender.nodes) && Enumerates(entries, sender.nodes)
    ensures var merged := UpdateFromHeartbeat(receiver, sender.id, entries, now).nodes;
            && merged.Keys == sender.nodes.Keys + {receiver.id}
            && (receiver.id in receiver.nodes ==> merged[receiver.id] == receiver.nodes[receiver.id])
            && forall k :: k in sender.nodes && k != receiver.id ==>
                 Mirrors(sender.nodes[k], merged[k], now) && KeepsHistory(receiver.nodes, k, merged[k], now)
  {
    var merged := UpdateFromHeartbeat(receiver, sender.id, entries, now).nodes;
    forall k
      ensures k in merged <==> k in sender.nodes || k == receiver.id
      ensures k in merged && k == receiver.id && k in receiver.nodes ==> merged[k] == receiver.nodes[k]
      ensures k in merged && k != receiver.id ==>
                Mirrors(sender.nodes[k], merged[k], now) && KeepsHistory(receiver.nodes, k, merged[k], now)
    {
      RoundTripAt(sender, receiver, entries, now, k);
    }
  }

  /** The snapshot's order is irrelevant. */
  lemma AnyEnumeration(view: View, self: ID, leads: bool, prev: View, a: seq<Entry>, b: seq<Entry>, now: Time)
    requires WellKeyed(view) && Enumerates(a, view) && Enumerates(b, view)
    ensures Merged(Heartbeat, self, leads, prev, a, now) == Merged(Heartbeat, self, leads, prev, b, now)
  {
    SameLastsSameMerge(Heartbeat, self, leads, prev, a, b, now) by {
      forall k
        ensures LastEntry(a, k) == LastEntry(b, k)
      {
        LastOfSnapshot(a, view, k);
        LastOfSnapshot(b, view, k);
      }
    }
  }

  /** A merge depends on the list only through the last entry of each identifier. */
  lemma SameLastsSameMerge(source: Source, self: ID, leads: bool, prev: View, a: seq<Entry>, b: seq<Entry>, now: Time)
    requires forall k :: LastEntry(a, k) == LastEntry(b, k)
    ensures Merged(source, self, leads, prev, a, now) == Merged(source, self, leads, prev, b, now)
  {
    var x, y := Merged(source, self, leads, prev, a, now), Merged(source, self, leads, prev, b, now);
    forall k
      ensures Find(x, k) == Find(y, k)
    {
      MergedFind(source, self, leads, prev, a, now, k);
      MergedFind(source, self, leads, prev, b, now, k);
    }
    SameMembers(x, y);
  }

  ghost predicate UniqueIds(entries: seq<Entry>) {
    forall i, j :: 0 <= i < j < |entries| && entries[i].id.Some? ==> entries[i].id != entries[j].id
  }

  /** Without repeated identifiers any permutation of the list merges to the same membership. */
  lemma MergeIgnoresOrder(source: Source, self: ID, leads: bool, prev: View, a: seq<Entry>, b: seq<Entry>, now: Time)
    requires UniqueIds(a) && multiset(a) == multiset(b)
    ensures Merged(source, self, leads, prev, a, now) == Merged(source, self, leads, prev, b, now)
  {
    forall k
      ensures LastEntry(a, k) == LastEntry(b, k)
    {
      LastEntryFound(a, k);
      LastEntryFound(b, k);
      assert forall e :: e in a <==> e in multiset(a);
      assert forall e :: e in b <==> e in multiset(b);
    }
    SameLastsSameMerge(source, self, leads, prev, a, b, now);
  }

  /** The entry carries a timestamp that the loop takes over instead of reading the clock. */
  predicate Timed(source: Source, e: Entry) {
    e.lastSeen.Some? && (source.Heartbeat? ==> e.lastSeen.value > 0.0)
  }

  /** Merging the same timed list again, at any later time, changes nothing. */
  lemma MergeIsIdempotent(source: Source, self: ID, leads: bool, prev: View, entries: seq<Entry>, now: Time,
          later: Time)
    requires forall e :: e in entries ==> Timed(source, e)
    ensures var once := Merged(source, self, leads, prev, entries, now);
            Merged(source, self, leads, once, entries, later) == once
  {
    var once := Merged(source, self, leads, prev, entries, now);
    var twice := Merged(source, self, leads, once, entries, later);
    forall k
      ensures Find(twice, k) == Find(once, k)
    {
      MergedFind(source, self, leads, prev, entries, now, k);
      MergedFind(source, self, leads, prev, entries, now, self);
      MergedFind(source, self, leads, once, entries, later, k);
      LastEntryFound(entries, k);
    }
    SameMembers(twice, once);
  }

  /** The entry that decides about k tells nothing the two loops read differently. */
  predicate Undisputed(entries: seq<Entry>, k: ID) {
    match LastEntry(entries, k)
    case None => true
    case Some(e) => e.lastSeen.None? || e.lastSeen.value > 0.0
  }

  /**
   The heartbeat loop and the discovery loop agree on a list exactly when self is a
   member and no deciding entry carries a time at or before the epoch.
   */
  lemma LoopsAgree(self: ID, leads: bool, prev: View, entries: seq<Entry>, now: Time)
    requires now > 0
    ensures Merged(Heartbeat, self, leads, prev, entries, now) == Merged(Discovery, self, leads, prev, entries, now)
            <==> self in prev && forall k :: k != self ==> Undisputed(entries, k)
  {
    var h, d := Merged(Heartbeat, self, leads, prev, entries, now), Merged(Discovery, self, leads, prev, entries, now);
    forall k
      ensures Find(h, k) == Find(d, k) <==> if k == self then self in prev else Undisputed(entries, k)
    {
      LoopsAgreeAt(self, leads, prev, entries, now, k);
      MergedFind(Heartbeat, self, leads, prev, entries, now, k);
      MergedFind(Discovery, self, leads, prev, entries, now, k);
    }
    if h == d {
      assert Find(h, self) == Find(d, self);
    }
    if forall k :: Find(h, k) == Find(d, k) {
      SameMembers(h, d);
    }
  }

  lemma LoopsAgreeAt(self: ID, leads: bool, prev: View, entries: seq<Entry>, now: Time, k: ID)
    requires now > 0
    ensures MergedAt(Heartbeat, self, leads, prev, entries, now, k) == MergedAt(Discovery, self, leads, prev,
        entries, now, k)
            <==> if k == self then self in prev else Undisputed(entries, k)
  {
    if k != self && LastEntry(entries, k).Some? {
      var e := LastEntry(entries, k).value;
      if e.lastSeen.Some? && e.lastSeen.value <= 0.0 {
        assert Truncate(e.lastSeen.value) <= 0;
        assert MergeEntry(Heartbeat, prev, k, e, now).lastSeen != MergeEntry(Discovery, prev, k, e, now).lastSeen;
      }
    }
  }

  // ---- Relayed timestamps ------------------------------------------------

  /** One hop: the current holder's snapshot, in some order, reaches another manager. */
  datatype Hop = Hop(receiver: Manager, entries: seq<Entry>, now: Time)

  function Relayed(holder: Manager, hops: seq<Hop>): Manager
    decreases |hops|
  {
    if hops == [] then holder
    else Relayed(UpdateFromHeartbeat(hops[0].receiver, holder.id, hops[0].entries, hops[0].now), hops[1..])
  }

  /** Each hop carries a true snapshot of its holder to a manager other than k itself. */
  ghost predicate Relays(holder: Manager, hops: seq<Hop>, k: ID)
    decreases |hops|
  {
    hops != [] ==>
      && hops[0].receiver.id != k && WellKeyed(hops[0].receiver.nodes)
      && Enumerates(hops[0].entries, holder.nodes)
      && Relays(UpdateFromHeartbeat(hops[0].receiver, holder.id, hops[0].entries, hops[0].now), hops[1..], k)
  }

  lemma MergeKeepsKeys(source: Source, self: ID, leads: bool, prev: View, entries: seq<Entry>, now: Time)
    requires WellKeyed(prev)
    ensures WellKeyed(Merged(source, self, leads, prev, entries, now))
  {
    var merged := Merged(source, self, leads, prev, entries, now);
    forall k | k in merged
      ensures merged[k].id == k
    {
      MergedFind(source, self, leads, prev, entries, now, k);
      LastEntryFound(entries, k);
    }
  }

  /** Relaying cuts a time from the first full second on down to its second once, however many hops follow. */
  lemma {:induction false} RelayCutsOnce(holder: Manager, hops: seq<Hop>, k: ID)
    requires WellKeyed(holder.nodes) && k in holder.nodes && Unix(holder.nodes[k].lastSeen) > 0
    requires Relays(holder, hops, k)
    ensures k in Relayed(holder, hops).nodes
    ensures Relayed(holder, hops).nodes[k].lastSeen
            == if hops == [] then holder.nodes[k].lastSeen else FromUnix(Unix(holder.nodes[k].lastSeen))
    decreases |hops|
  {
    if hops != [] {
      var hop := hops[0];
      RoundTripAt(holder, hop.receiver, hop.entries, hop.now, k);
      MergeKeepsKeys(Heartbeat, hop.receiver.id, holder.id == hop.receiver.id, hop.receiver.nodes, hop.entries,
          hop.now);
      UnixOfWholeSecond(Unix(holder.nodes[k].lastSeen));
      RelayCutsOnce(UpdateFromHeartbeat(hop.receiver, holder.id, hop.entries, hop.now), hops[1..], k);
    }
  }

  /** In total a relayed time loses less than a second and never becomes newer. */
  lemma RelayedFreshness(holder: Manager, hops: seq<Hop>, k: ID)
    requires WellKeyed(holder.nodes) && k in holder.nodes && Unix(holder.nodes[k].lastSeen) > 0
    requires Relays(holder, hops, k)
    ensures k in Relayed(holder, hops).nodes
    ensures holder.nodes[k].lastSeen - SECOND < Relayed(holder, hops).nodes[k].lastSeen <= holder.nodes[k].lastSeen
  {
    RelayCutsOnce(holder, hops, k);
  }

  /**
   Before the first full second of the epoch the receiver's clock takes over: exactly then can one hop make a
   time newer.
   */
  lemma OneHopKeepsAge(holder: Manager, hop: Hop, k: ID)
    requires WellKeyed(holder.nodes) && k in holder.nodes
    requires Relays(holder, [hop], k) && hop.now > holder.nodes[k].lastSeen
    ensures k in Relayed(holder, [hop]).nodes
    ensures Relayed(holder, [hop]).nodes[k].lastSeen <= holder.nodes[k].lastSeen <==> holder.nodes[k].lastSeen >= SECOND
  {
    RoundTripAt(holder, hop.receiver, hop.entries, hop.now, k);
    assert [hop][1..] == [];
    assert Relayed(holder, [hop]) == UpdateFromHeartbeat(hop.receiver, holder.id, hop.entries, hop.now);
  }
}
