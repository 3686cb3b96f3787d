/**
 A full round of heartbeats: one manager that considers itself leader sends its snapshot
 to every other manager, each delivery and answer completing before the next. Whatever
 the managers believed before, they then agree on this leader and, as far as it lists them,
 on the membership.
 */
module HeartbeatRound {
  import opened Prelude
  import opened GoTime
  import opened Ids
  import opened Membership
  import opened Merging
  import opened ClusterSystem

  /** The receiver after some snapshot of the sender, in any order of enumeration, was merged at any time. */
  ghost predicate MergesSnapshot(sender: Manager, receiver: Manager, merged: Manager) {
    exists entries, now ::
      Enumerates(entries, sender.nodes) && merged == UpdateFromHeartbeat(receiver, sender.id, entries, now)
  }

  lemma BeatIsHeard(s: System, beat: Beat)
    requires beat.to in s.managers
    ensures var sent := s.(beats := s.beats + [beat]);
            HeardFrom(sent, |s.beats|) ==
            System(s.managers[beat.to := SetLeaderFlag(s.managers[beat.to], beat.leader)], s.beats,
                   s.jobs + [Job(beat.to, MergeMembers(beat.leader, beat.entries))])
  {
    assert RemoveAt(s.beats + [beat], |s.beats|) == s.beats;
  }

  lemma BeatIsMerged(s: System, to: ID, m: Manager, leader: ID, entries: seq<Entry>, now: Time)
    requires to in s.managers
    ensures var heard := System(s.managers[to := m], s.beats, s.jobs + [Job(to, MergeMembers(leader, entries))]);
            Goes(heard, RunJob(|s.jobs|, now), With(s, to, MergeBeat(m, entries, now)))
  {
    assert RemoveAt(s.jobs + [Job(to, MergeMembers(leader, entries))], |s.jobs|) == s.jobs;
    var merged := MergeBeat(m, entries, now);
    assert s.managers[to := m][to := merged] == s.managers[to := merged];
  }

  /** Sent and delivered at once, a heartbeat of the system is such a merge and nothing else. */
  lemma BeatIsAMerge(s: System, leader: ID, to: ID, entries: seq<Entry>, now: Time)
    requires Sane(s) && to in s.managers && Enabled(s, SendBeat(leader, to, entries))
    ensures var run := [SendBeat(leader, to, entries), DeliverBeat(|s.beats|), RunJob(|s.jobs|, now)];
            var merged := UpdateFromHeartbeat(s.managers[to], leader, entries, now);
            && Possible(s, run) && After(s, run) == With(s, to, merged)
            && MergesSnapshot(s.managers[leader], s.managers[to], merged)
  {
    var beat := Beat(to, leader, entries);
    var sent := s.(beats := s.beats + [beat]);
    var heard := HeardFrom(sent, |s.beats|);
    BeatIsHeard(s, beat);
    BeatIsMerged(s, to, SetLeaderFlag(s.managers[to], leader), leader, entries, now);
    ThreeSteps(s, SendBeat(leader, to, entries), sent, DeliverBeat(|s.beats|), heard, RunJob(|s.jobs|, now),
               With(s, to, UpdateFromHeartbeat(s.managers[to], leader, entries, now)));
  }

  /** What a delivery may do to its receiver: sender, receiver before and receiver after. */
  type Merge = (Manager, Manager, Manager) -> bool

  /** One heartbeat of the round: its target, the target afterwards, and the time of the answer if it arrived. */
  datatype Delivery = Delivery(to: ID, merged: Manager, answered: Option<Time>)

  function Delivered(s: System, leader: ID, d: Delivery): System
    requires leader in s.managers
  {
    var merged := With(s, d.to, d.merged);
    match d.answered
    case None => merged
    case Some(t) => With(merged, leader, Acknowledge(merged.managers[leader], d.to, t))
  }

  ghost predicate CanDeliver(merge: Merge, s: System, leader: ID, d: Delivery) {
    && leader in s.managers && d.to in s.managers && d.to != leader
    && merge(s.managers[leader], s.managers[d.to], d.merged)
  }

  ghost predicate CanRound(merge: Merge, s: System, leader: ID, round: seq<Delivery>)
    decreases |round|
  {
    round != [] ==>
      CanDeliver(merge, s, leader, round[0]) && CanRound(merge, Delivered(s, leader, round[0]), leader, round[1..])
  }

  ghost function Rounded(merge: Merge, s: System, leader: ID, round: seq<Delivery>): System
    requires CanRound(merge, s, leader, round)
    decreases |round|
  {
    if round == [] then s else Rounded(merge, Delivered(s, leader, round[0]), leader, round[1..])
  }

  /** A manager that follows the leader with exactly these members and itself. */
  ghost predicate Follows(m: Manager, k: ID, leader: ID, members: set<ID>) {
    m.id == k && m.leaderID == leader && !m.isLeader && m.nodes.Keys == members + {k}
  }

  ghost predicate Leads(m: Manager, leader: ID, members: set<ID>) {
    m.id == leader && m.isLeader && m.leaderID == leader && m.nodes.Keys == members && WellKeyed(m.nodes)
  }

  /** The leader stands, with these members, and the managers in `done` follow it. */
  ghost predicate Led(s: System, leader: ID, members: set<ID>, done: set<ID>) {
    && leader in s.managers && Leads(s.managers[leader], leader, members) && leader !in done
    && (forall k :: k in s.managers ==> s.managers[k].id == k)
    && (forall k :: k in done ==> k in s.managers && Follows(s.managers[k], k, leader, members))
  }

  /** The delivery makes followers: whoever it reaches adopts a leading sender and its members. */
  ghost predicate Converts(merge: Merge) {
    forall sender, receiver, merged :: merge(sender, receiver, merged) ==>
      Leads(sender, sender.id, sender.nodes.Keys) && receiver.id != sender.id ==>
        Follows(merged, receiver.id, sender.id, sender.nodes.Keys)
  }

  lemma SnapshotConverts(sender: Manager, receiver: Manager, entries: seq<Entry>, now: Time)
    requires Enumerates(entries, sender.nodes) && Leads(sender, sender.id, sender.nodes.Keys)
        && receiver.id != sender.id
    ensures Follows(UpdateFromHeartbeat(receiver, sender.id, entries, now), receiver.id, sender.id, sender.nodes.Keys)
  {
    SnapshotRoundTrip(sender, receiver, entries, now);
  }

  lemma SnapshotsConvert()
    ensures Converts(MergesSnapshot)
  {
    forall sender, receiver, merged |
      MergesSnapshot(sender, receiver, merged) && Leads(sender, sender.id, sender.nodes.Keys)
          && receiver.id != sender.id
      ensures Follows(merged, receiver.id, sender.id, sender.nodes.Keys)
    {
      var entries, now :| Enumerates(entries, sender.nodes)
          && merged == UpdateFromHeartbeat(receiver, sender.id, entries, now);
      SnapshotConverts(sender, receiver, entries, now);
    }
  }

  lemma AnswerKeepsLeader(m: Manager, peer: ID, now: Time, leader: ID, members: set<ID>)
    requires Leads(m, leader, members)
    ensures Leads(Acknowledge(m, peer, now), leader, members)
  {
  }

  lemma DeliveryLeads(merge: Merge, s: System, leader: ID, members: set<ID>, done: set<ID>, d: Delivery)
    requires Converts(merge) && Led(s, leader, members, done) && CanDeliver(merge, s, leader, d)
    ensures Led(Delivered(s, leader, d), leader, members, done + {d.to})
    ensures Delivered(s, leader, d).managers.Keys == s.managers.Keys
  {
    assert Follows(d.merged, d.to, leader, members);
    if d.answered.Some? {
      AnswerKeepsLeader(s.managers[leader], d.to, d.answered.value, leader, members);
    }
  }

  function Targets(round: seq<Delivery>): set<ID> {
    set d | d in round :: d.to
  }

  lemma {:induction false} RoundLeads(merge: Merge, s: System, leader: ID, members: set<ID>, done: set<ID>,
          round: seq<Delivery>)
    requires Converts(merge) && Led(s, leader, members, done) && CanRound(merge, s, leader, round)
    ensures Led(Rounded(merge, s, leader, round), leader, members, done + Targets(round))
    ensures Rounded(merge, s, leader, round).managers.Keys == s.managers.Keys
    decreases |round|
  {
    if round == [] {
      assert done + Targets(round) == done;
    } else {
      DeliveryLeads(merge, s, leader, members, done, round[0]);
      RoundLeads(merge, Delivered(s, leader, round[0]), leader, members, done + {round[0].to}, round[1..]);
      assert done + Targets(round) == (done + {round[0].to}) + Targets(round[1..]);
    }
  }

  /** Exactly the leader leads, all name it, and every other manager has the leader's members and itself. */
  ghost predicate Agree(s: System, leader: ID, members: set<ID>) {
    forall k :: k in s.managers ==>
      && s.managers[k].leaderID == leader
      && (s.managers[k].isLeader <==> k == leader)
      && s.managers[k].nodes.Keys == members + if k == leader then {} else {k}
  }

  lemma RoundAgrees(merge: Merge, s: System, leader: ID, round: seq<Delivery>)
    requires Converts(merge) && Sane(s) && leader in s.managers && s.managers[leader].isLeader
    requires Targets(round) >= s.managers.Keys - {leader} && CanRound(merge, s, leader, round)
    ensures Agree(Rounded(merge, s, leader, round), leader, s.managers[leader].nodes.Keys)
    ensures Rounded(merge, s, leader, round).managers.Keys == s.managers.Keys
  {
    RoundLeads(merge, s, leader, s.managers[leader].nodes.Keys, {}, round);
  }

  /** Exactly one leader, one belief about it everywhere, and one membership up to the managers it left out. */
  lemma RoundRestoresLeader(s: System, leader: ID, round: seq<Delivery>)
    requires Sane(s) && leader in s.managers && s.managers[leader].isLeader
    requires Targets(round) >= s.managers.Keys - {leader} && CanRound(MergesSnapshot, s, leader, round)
    ensures Agree(Rounded(MergesSnapshot, s, leader, round), leader, s.managers[leader].nodes.Keys)
    ensures Rounded(MergesSnapshot, s, leader, round).managers.Keys == s.managers.Keys
  {
    SnapshotsConvert();
    RoundAgrees(MergesSnapshot, s, leader, round);
  }

  lemma AgreedMemberships(s: System, leader: ID, members: set<ID>)
    requires Agree(s, leader, members)
    ensures (forall k :: k in s.managers ==> s.managers[k].nodes.Keys == members) <==>
        s.managers.Keys - {leader} <= members
  {
    forall k | k in s.managers && k != leader
      ensures s.managers[k].nodes.Keys == members <==> k in members
    {
      assert k in members + {k};
    }
  }

  /** All memberships end equal to the leader's if and only if the leader's lists every other manager. */
  lemma RoundRestoresMembership(s: System, leader: ID, round: seq<Delivery>)
    requires Sane(s) && leader in s.managers && s.managers[leader].isLeader
    requires Targets(round) >= s.managers.Keys - {leader} && CanRound(MergesSnapshot, s, leader, round)
    ensures var members, end := s.managers[leader].nodes.Keys, Rounded(MergesSnapshot, s, leader, round);
            (forall k :: k in end.managers ==> end.managers[k].nodes.Keys == members) <==>
                s.managers.Keys - {leader} <= members
  {
    RoundRestoresLeader(s, leader, round);
    AgreedMemberships(Rounded(MergesSnapshot, s, leader, round), leader, s.managers[leader].nodes.Keys);
  }

  // ---- A round is a run --------------------------------------------------

  lemma DeliveryIsARun(s: System, leader: ID, d: Delivery) returns (run: seq<Step>)
    requires Sane(s) && CanDeliver(MergesSnapshot, s, leader, d)
    ensures Possible(s, run) && After(s, run) == Delivered(s, leader, d)
  {
    var entries, now :| Enumerates(entries, s.managers[leader].nodes)
                        && d.merged == UpdateFromHeartbeat(s.managers[d.to], leader, entries, now);
    BeatIsAMerge(s, leader, d.to, entries, now);
    run := [SendBeat(leader, d.to, entries), DeliverBeat(|s.beats|), RunJob(|s.jobs|, now)];
    if d.answered.Some? {
      var merged := With(s, d.to, d.merged);
      var answer := Local(leader, Answered(d.to), d.answered.value);
      Cons(merged, answer, []);
      Concat(s, run, [answer] + []);
      run := run + ([answer] + []);
    }
  }

  /** A round of heartbeats, one after the other, is a run of the whole system. */
  lemma {:induction false} RoundIsARun(s: System, leader: ID, round: seq<Delivery>) returns (run: seq<Step>)
    requires Sane(s) && CanRound(MergesSnapshot, s, leader, round) && leader in s.managers
    ensures Possible(s, run) && After(s, run) == Rounded(MergesSnapshot, s, leader, round)
    decreases |round|
  {
    if round == [] {
      run := [];
    } else {
      var first := DeliveryIsARun(s, leader, round[0]);
      RunKeepsSane(s, first);
      var rest := RoundIsARun(Delivered(s, leader, round[0]), leader, round[1..]);
      Concat(s, first, rest);
      run := first + rest;
    }
  }
}
