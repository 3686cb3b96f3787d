/**
 Many managers at once. Each step is one critical section of one manager; heartbeats
 travel between them and can be delayed, reordered or lost, and an election, a discovery
 or the delivery of a heartbeat can be interrupted between its sections.
 */
module ClusterSystem {
  import opened Prelude
  import opened GoTime
  import opened Ids
  import opened Membership
  import opened Merging

  /** A heartbeat under way: the snapshot of the sender, who announces itself as leader. */
  datatype Beat = Beat(to: ID, leader: ID, entries: seq<Entry>)

  /**
   What a goroutine still has to do: install an election's winner, adopt a discovered leader, set the
   node flags, merge the members of a heartbeat whose leader it has already taken over, or merge a
   discovered list once the reply is there.
   */
  datatype Task =
    | Install(winner: ID)
    | Adopt(leader: ID)
    | FlagSelf
    | FlagLeader(leader: ID)
    | MergeMembers(leader: ID, entries: seq<Entry>)
    | MergeReply(items: seq<Item>)

  datatype Job = Job(owner: ID, task: Task)

  datatype System = System(managers: map<ID, Manager>, beats: seq<Beat>, jobs: seq<Job>)

  /** The critical sections that involve no other manager and no goroutine. */
  datatype Op =
    | Answered(peer: ID)
    | Touch
    | Check(heartbeatTimeout: Time)
    | Add(info: Info)
    | Remove(member: ID)
    | SetStatus(member: ID, status: Status)

  function Perform(m: Manager, op: Op, now: Time): Manager {
    match op
    case Answered(peer) => Acknowledge(m, peer, now)
    case Touch => TouchSelf(m, now)
    case Check(heartbeatTimeout) => CheckHealth(m, now, heartbeatTimeout)
    case Add(info) => AddNode(m, info)
    case Remove(k) => RemoveNode(m, k)
    case SetStatus(k, status) => UpdateNodeStatus(m, k, status, now)
  }

  /**
   A heartbeat goes to someone who was a member when the round began and may be none when the snapshot
   is taken. A discovered list names members of the manager that was asked; its other fields may say
   anything. Between the two halves of a delivery any section may run, the ones of this manager's
   nodes mutex included, which is more than the mutex allows.
   */
  datatype Step =
    | SendBeat(from: ID, to: ID, entries: seq<Entry>)
    | DeliverBeat(index: nat)
    | LoseBeat(index: nat)
    | Elect(node: ID)
    | Bootstrap(node: ID)
    | Discover(node: ID, from: ID, items: seq<Item>)
    | AskLeader(node: ID, from: ID)
    | RunJob(index: nat, now: Time)
    | Local(node: ID, op: Op, now: Time)

  ghost predicate Enabled(s: System, step: Step) {
    match step
    case SendBeat(from, to, entries) =>
      from in s.managers && to != from && Enumerates(entries, s.managers[from].nodes)
    case DeliverBeat(i) => i < |s.beats| && s.beats[i].to in s.managers
    case LoseBeat(i) => i < |s.beats|
    case Elect(n) => n in s.managers
    case Bootstrap(n) => n in s.managers
    case Discover(n, from, items) =>
      n in s.managers && from in s.managers && IdsOf(Objects(items)) <= s.managers[from].nodes.Keys
    case AskLeader(n, from) => n in s.managers && from in s.managers
    case RunJob(j, _) => j < |s.jobs| && s.jobs[j].owner in s.managers
    case Local(n, _, _) => n in s.managers
  }

  function With(s: System, n: ID, m: Manager): System {
    s.(managers := s.managers[n := m])
  }

  function Spawn(s: System, n: ID, task: Task): System {
    s.(jobs := s.jobs + [Job(n, task)])
  }

  function RunTask(s: System, n: ID, task: Task, now: Time): System
    requires n in s.managers
  {
    var m := s.managers[n];
    match task
    case Install(winner) =>
      if winner == n then Spawn(With(s, n, BecomeLeaderFlag(m)), n, FlagSelf)
      else Spawn(With(s, n, SetLeaderFlag(m, winner)), n, FlagLeader(winner))
    case Adopt(leader) => Spawn(With(s, n, SetLeaderFlag(m, leader)), n, FlagLeader(leader))
    case FlagSelf => With(s, n, MarkSelfLeader(m))
    case FlagLeader(leader) => With(s, n, MarkLeader(m, leader))
    case MergeMembers(_, entries) => With(s, n, MergeBeat(m, entries, now))
    case MergeReply(items) => With(s, n, UpdateMembership(m, items, now))
  }

  ghost function Apply(s: System, step: Step): System
    requires Enabled(s, step)
  {
    match step
    case SendBeat(from, to, entries) => s.(beats := s.beats + [Beat(to, from, entries)])
    case DeliverBeat(i) =>
      var beat := s.beats[i];
      var heard := With(s.(beats := RemoveAt(s.beats, i)), beat.to, SetLeaderFlag(s.managers[beat.to], beat.leader));
      Spawn(heard, beat.to, MergeMembers(beat.leader, beat.entries))
    case LoseBeat(i) => s.(beats := RemoveAt(s.beats, i))
    case Elect(n) => Spawn(s, n, Install(Winner(s.managers[n])))
    case Bootstrap(n) => Spawn(s, n, Install(n))
    case Discover(n, from, items) => Spawn(s, n, MergeReply(items))
    case AskLeader(n, from) => Spawn(s, n, Adopt(s.managers[from].leaderID))
    case RunJob(j, now) => RunTask(s.(jobs := RemoveAt(s.jobs, j)), s.jobs[j].owner, s.jobs[j].task, now)
    case Local(n, op, now) => With(s, n, Perform(s.managers[n], op, now))
  }

  ghost predicate Possible(s: System, run: seq<Step>)
    decreases |run|
  {
    run == [] || (Enabled(s, run[0]) && Possible(Apply(s, run[0]), run[1..]))
  }

  ghost function After(s: System, run: seq<Step>): System
    requires Possible(s, run)
    decreases |run|
  {
    if run == [] then s else After(Apply(s, run[0]), run[1..])
  }

  lemma Cons(s: System, step: Step, rest: seq<Step>)
    requires Enabled(s, step) && Possible(Apply(s, step), rest)
    ensures Possible(s, [step] + rest) && After(s, [step] + rest) == After(Apply(s, step), rest)
  {
    assert ([step] + rest)[1..] == rest;
  }

  ghost predicate RunsTo(s: System, run: seq<Step>, end: System) {
    Possible(s, run) && After(s, run) == end
  }

  lemma FirstOfBoth(run: seq<Step>, more: seq<Step>)
    requires run != []
    ensures (run + more)[0] == run[0] && (run + more)[1..] == run[1..] + more
  {
  }

  lemma {:induction false} RunsOn(s: System, run: seq<Step>, mid: System, more: seq<Step>, end: System)
    requires RunsTo(s, run, mid) && RunsTo(mid, more, end)
    ensures RunsTo(s, run + more, end)
    decreases |run|
  {
    if run == [] {
      assert run + more == more;
    } else {
      FirstOfBoth(run, more);
      RunsOn(Apply(s, run[0]), run[1..], mid, more, end);
    }
  }

  lemma Concat(s: System, run: seq<Step>, more: seq<Step>)
    requires Possible(s, run) && Possible(After(s, run), more)
    ensures Possible(s, run + more) && After(s, run + more) == After(After(s, run), more)
  {
    RunsOn(s, run, After(s, run), more, After(After(s, run), more));
  }

  ghost predicate Goes(s: System, step: Step, t: System) {
    Enabled(s, step) && Apply(s, step) == t
  }

  lemma ThreeSteps(s: System, a: Step, s1: System, b: Step, s2: System, c: Step, s3: System)
    requires Goes(s, a, s1) && Goes(s1, b, s2) && Goes(s2, c, s3)
    ensures Possible(s, [a, b, c]) && After(s, [a, b, c]) == s3
  {
    Cons(s2, c, []);
    Cons(s1, b, [c] + []);
    Cons(s, a, [b] + ([c] + []));
    assert [a] + ([b] + ([c] + [])) == [a, b, c];
  }

  // ---- Every manager stays coherent --------------------------------------

  ghost predicate Sane(s: System) {
    forall n :: n in s.managers ==>
      n != [] && s.managers[n].id == n && WellKeyed(s.managers[n].nodes) && Coherent(s.managers[n])
  }

  lemma StepKeepsSane(s: System, step: Step)
    requires Sane(s) && Enabled(s, step)
    ensures Sane(Apply(s, step))
  {
    match step
    case RunJob(j, now) => TaskKeepsSane(s.(jobs := RemoveAt(s.jobs, j)), s.jobs[j].owner, s.jobs[j].task, now);
    case Local(n, op, now) => OpKeepsSane(s.managers[n], op, now);
    case _ =>
  }

  lemma OpKeepsSane(m: Manager, op: Op, now: Time)
    requires WellKeyed(m.nodes)
    ensures var m' := Perform(m, op, now);
            m'.id == m.id && WellKeyed(m'.nodes) && m'.isLeader == m.isLeader && m'.leaderID == m.leaderID
  {
  }

  lemma TaskKeepsSane(s: System, n: ID, task: Task, now: Time)
    requires Sane(s) && n in s.managers
    ensures Sane(RunTask(s, n, task, now))
  {
    if task.MergeMembers? {
      var m := s.managers[n];
      MergeKeepsKeys(Heartbeat, m.id, m.isLeader, m.nodes, task.entries, now);
    } else if task.MergeReply? {
      var m := s.managers[n];
      MergeKeepsKeys(Discovery, m.id, m.isLeader, m.nodes, Objects(task.items), now);
    }
  }

  /** In every interleaving, a manager considers itself leader exactly if the leader it names is itself. */
  lemma {:induction false} RunKeepsSane(s: System, run: seq<Step>)
    requires Sane(s) && Possible(s, run)
    ensures Sane(After(s, run))
    decreases |run|
  {
    if run != [] {
      StepKeepsSane(s, run[0]);
      RunKeepsSane(Apply(s, run[0]), run[1..]);
    }
  }

  // ---- No invented members or leaders ------------------------------------

  ghost predicate KnownTask(known: set<ID>, task: Task) {
    match task
    case Install(winner) => winner in known
    case Adopt(leader) => leader == [] || leader in known
    case FlagSelf => true
    case FlagLeader(_) => true
    case MergeMembers(leader, entries) => leader in known && IdsOf(entries) <= known
    case MergeReply(items) => IdsOf(Objects(items)) <= known
  }

  /** Every identifier in a view, a belief, a heartbeat or a goroutine is known; only a leader can be empty. */
  ghost predicate OnlyKnown(known: set<ID>, s: System) {
    && s.managers.Keys <= known
    && (forall n :: n in s.managers ==>
          s.managers[n].nodes.Keys <= known && (s.managers[n].leaderID == [] || s.managers[n].leaderID in known))
    && (forall beat :: beat in s.beats ==> beat.leader in known && IdsOf(beat.entries) <= known)
    && (forall job :: job in s.jobs ==> KnownTask(known, job.task))
  }

  function Adds(op: Op): set<ID> {
    match op case Add(info) => {info.id} case _ => {}
  }

  function Introduces(step: Step): set<ID> {
    match step case Local(_, op, _) => Adds(op) case _ => {}
  }

  /** Step i of the run is a call of AddNode for k. */
  predicate AddsAt(run: seq<Step>, i: int, k: ID) {
    0 <= i < |run| && run[i].Local? && run[i].op.Add? && run[i].op.info.id == k
  }

  function Introduced(run: seq<Step>): (ids: set<ID>)
    ensures forall k :: k in ids <==> exists i :: AddsAt(run, i, k)
  {
    if run == [] then {}
    else
      var rest := Introduced(run[1..]);
      assert forall i, k :: AddsAt(run, i, k) ==> (i == 0 && k in Introduces(run[0])) || AddsAt(run[1..], i - 1, k);
      assert forall i, k :: AddsAt(run[1..], i, k) ==> AddsAt(run, i + 1, k);
      assert forall k :: k in Introduces(run[0]) ==> AddsAt(run, 0, k);
      Introduces(run[0]) + rest
  }

  lemma MergedIds(source: Source, self: ID, leads: bool, prev: View, entries: seq<Entry>, now: Time)
    ensures Merged(source, self, leads, prev, entries, now).Keys <= {self} + IdsOf(entries)
  {
    var merged := Merged(source, self, leads, prev, entries, now);
    forall k | k in merged
      ensures k in {self} + IdsOf(entries)
    {
      MergedFind(source, self, leads, prev, entries, now, k);
      LastEntryFound(entries, k);
    }
  }

  lemma SnapshotIds(entries: seq<Entry>, view: View)
    requires Enumerates(entries, view)
    ensures IdsOf(entries) <= view.Keys
  {
  }

  lemma WithInventsNothing(known: set<ID>, s: System, n: ID, m: Manager)
    requires OnlyKnown(known, s) && n in s.managers && m.nodes.Keys <= known && (m.leaderID == []
        || m.leaderID in known)
    ensures OnlyKnown(known, With(s, n, m))
  {
  }

  lemma BeatInventsNothing(known: set<ID>, s: System, i: nat)
    requires Sane(s) && Enabled(s, DeliverBeat(i)) && OnlyKnown(known, s)
    ensures OnlyKnown(known, Apply(s, DeliverBeat(i)))
  {
    var beat := s.beats[i];
    WithInventsNothing(known, s.(beats := RemoveAt(s.beats, i)), beat.to, SetLeaderFlag(s.managers[beat.to],
        beat.leader));
  }

  lemma SendInventsNothing(known: set<ID>, s: System, from: ID, to: ID, entries: seq<Entry>)
    requires Sane(s) && Enabled(s, SendBeat(from, to, entries)) && OnlyKnown(known, s)
    ensures OnlyKnown(known, Apply(s, SendBeat(from, to, entries)))
  {
    SnapshotIds(entries, s.managers[from].nodes);
  }

  lemma LocalInventsNothing(known: set<ID>, s: System, n: ID, op: Op, now: Time)
    requires Sane(s) && Enabled(s, Local(n, op, now)) && OnlyKnown(known, s)
    ensures OnlyKnown(known + Adds(op), Apply(s, Local(n, op, now)))
  {
    assert OnlyKnown(known + Adds(op), s);
    OpIds(s.managers[n], op, now);
    WithInventsNothing(known + Adds(op), s, n, Perform(s.managers[n], op, now));
  }

  lemma StepInventsNothing(known: set<ID>, s: System, step: Step)
    requires Sane(s) && Enabled(s, step) && OnlyKnown(known, s)
    ensures OnlyKnown(known + Introduces(step), Apply(s, step))
  {
    var more := known + Introduces(step);
    assert OnlyKnown(more, s);
    match step
    case SendBeat(from, to, entries) => SendInventsNothing(more, s, from, to, entries);
    case DeliverBeat(i) => BeatInventsNothing(more, s, i);
    case RunJob(j, now) => TaskInventsNothing(more, s.(jobs := RemoveAt(s.jobs, j)), s.jobs[j].owner, s.jobs[j].task,
        now);
    case Local(n, op, now) => LocalInventsNothing(known, s, n, op, now);
    case _ =>
  }

  lemma OpIds(m: Manager, op: Op, now: Time)
    ensures var m' := Perform(m, op, now);
            m'.id == m.id && m'.nodes.Keys <= m.nodes.Keys + Adds(op) && m'.leaderID == m.leaderID
  {
  }

  lemma TaskInventsNothing(known: set<ID>, s: System, n: ID, task: Task, now: Time)
    requires Sane(s) && n in s.managers && OnlyKnown(known, s) && KnownTask(known, task)
    ensures OnlyKnown(known, RunTask(s, n, task, now))
  {
    if task.MergeMembers? {
      var m := s.managers[n];
      MergedIds(Heartbeat, m.id, m.isLeader, m.nodes, task.entries, now);
      WithInventsNothing(known, s, n, MergeBeat(m, task.entries, now));
    } else if task.MergeReply? {
      var m := s.managers[n];
      MergedIds(Discovery, m.id, m.isLeader, m.nodes, Objects(task.items), now);
      WithInventsNothing(known, s, n, UpdateMembership(m, task.items, now));
    }
  }

  lemma {:induction false} RunInventsNothing(known: set<ID>, s: System, run: seq<Step>)
    requires Sane(s) && Possible(s, run) && OnlyKnown(known, s)
    ensures OnlyKnown(known + Introduced(run), After(s, run))
    decreases |run|
  {
    if run == [] {
      assert known + Introduced(run) == known;
    } else {
      StepKeepsSane(s, run[0]);
      StepInventsNothing(known, s, run[0]);
      RunInventsNothing(known + Introduces(run[0]), Apply(s, run[0]), run[1..]);
      assert known + Introduced(run) == (known + Introduces(run[0])) + Introduced(run[1..]);
    }
  }

  /** Freshly created managers: each knows itself, as active, and no leader. */
  ghost predicate Fresh(s: System) {
    && s.beats == [] && s.jobs == []
    && forall n :: n in s.managers ==>
         var m := s.managers[n];
         n != [] && m.id == n && m.nodes.Keys == {n} && m.nodes[n].id == n && m.nodes[n].status.Active?
             && !m.isLeader && m.leaderID == []
  }

  /** Members and leaders come from the initial nodes or from a call of AddNode. */
  lemma NoInventedMembers(s: System, run: seq<Step>, n: ID, k: ID)
    requires Fresh(s) && Possible(s, run) && n in After(s, run).managers
    requires k in After(s, run).managers[n].nodes || (k == After(s, run).managers[n].leaderID && k != [])
    ensures k in s.managers || exists i :: AddsAt(run, i, k)
  {
    RunInventsNothing(s.managers.Keys, s, run);
  }

  // ---- Heartbeats settle their receivers ---------------------------------

  /** The list of a heartbeat to `to` shows its sender as active. */
  ghost predicate ShowsSender(to: ID, leader: ID, entries: seq<Entry>) {
    && leader != [] && leader != to
    && LastEntry(entries, leader).Some? && LastEntry(entries, leader).value.status == Some(Active)
  }

  /** Every manager is present and active in its own view, and every heartbeat lists its sender so. */
  ghost predicate SelfActive(s: System) {
    && (forall n :: n in s.managers ==> n in s.managers[n].nodes && s.managers[n].nodes[n].status.Active?)
    && (forall beat :: beat in s.beats ==> ShowsSender(beat.to, beat.leader, beat.entries))
    && (forall job :: job in s.jobs && job.task.MergeMembers? ==>
        ShowsSender(job.owner, job.task.leader, job.task.entries))
  }

  /** Nobody removes a manager from its own view or gives it another status there. */
  predicate SparesSelf(step: Step) {
    match step
    case Local(n, Remove(k), _) => n != k
    case Local(n, SetStatus(k, status), _) => n != k || status.Active?
    case _ => true
  }

  lemma WithKeepsSelfActive(s: System, n: ID, m: Manager)
    requires SelfActive(s) && n in s.managers && n in m.nodes && m.nodes[n].status.Active?
    ensures SelfActive(With(s, n, m))
  {
  }

  lemma BeatKeepsSelfActive(s: System, i: nat)
    requires Sane(s) && SelfActive(s) && Enabled(s, DeliverBeat(i))
    ensures SelfActive(Apply(s, DeliverBeat(i)))
  {
    var beat := s.beats[i];
    WithKeepsSelfActive(s.(beats := RemoveAt(s.beats, i)), beat.to, SetLeaderFlag(s.managers[beat.to], beat.leader));
  }

  lemma SendKeepsSelfActive(s: System, from: ID, to: ID, entries: seq<Entry>)
    requires Sane(s) && SelfActive(s) && Enabled(s, SendBeat(from, to, entries))
    ensures SelfActive(Apply(s, SendBeat(from, to, entries)))
  {
    LastOfSnapshot(entries, s.managers[from].nodes, from);
  }

  lemma LocalKeepsSelfActive(s: System, n: ID, op: Op, now: Time)
    requires Sane(s) && SelfActive(s) && Enabled(s, Local(n, op, now)) && SparesSelf(Local(n, op, now))
    ensures SelfActive(Apply(s, Local(n, op, now)))
  {
    OpKeepsSelfActive(s.managers[n], Local(n, op, now), now);
    WithKeepsSelfActive(s, n, Perform(s.managers[n], op, now));
  }

  lemma StepKeepsSelfActive(s: System, step: Step)
    requires Sane(s) && SelfActive(s) && Enabled(s, step) && SparesSelf(step)
    ensures SelfActive(Apply(s, step))
  {
    match step
    case SendBeat(from, to, entries) => SendKeepsSelfActive(s, from, to, entries);
    case DeliverBeat(i) => BeatKeepsSelfActive(s, i);
    case RunJob(j, now) => TaskKeepsSelfActive(s.(jobs := RemoveAt(s.jobs, j)), s.jobs[j].owner, s.jobs[j].task, now);
    case Local(n, op, now) => LocalKeepsSelfActive(s, n, op, now);
    case _ =>
  }

  lemma OpKeepsSelfActive(m: Manager, step: Step, now: Time)
    requires step.Local? && step.node == m.id && SparesSelf(step)
    requires m.id in m.nodes && m.nodes[m.id].status.Active?
    ensures var m' := Perform(m, step.op, now); m.id in m'.nodes && m'.nodes[m.id].status.Active?
  {
  }

  lemma SelfSurvives(source: Source, self: ID, leads: bool, prev: View, entries: seq<Entry>, now: Time)
    requires self in prev
    ensures var merged := Merged(source, self, leads, prev, entries, now); self in merged && merged[self] == prev[self]
  {
    var merged := Merged(source, self, leads, prev, entries, now);
    MergedFind(source, self, leads, prev, entries, now, self);
  }

  lemma TaskKeepsSelfActive(s: System, n: ID, task: Task, now: Time)
    requires Sane(s) && SelfActive(s) && n in s.managers
    ensures SelfActive(RunTask(s, n, task, now))
  {
    if task.MergeMembers? {
      var m := s.managers[n];
      SelfSurvives(Heartbeat, m.id, m.isLeader, m.nodes, task.entries, now);
      WithKeepsSelfActive(s, n, MergeBeat(m, task.entries, now));
    } else if task.MergeReply? {
      var m := s.managers[n];
      SelfSurvives(Discovery, m.id, m.isLeader, m.nodes, Objects(task.items), now);
      WithKeepsSelfActive(s, n, UpdateMembership(m, task.items, now));
    }
  }

  lemma {:induction false} RunKeepsSelfActive(s: System, run: seq<Step>)
    requires Sane(s) && SelfActive(s) && Possible(s, run) && forall step :: step in run ==> SparesSelf(step)
    ensures Sane(After(s, run)) && SelfActive(After(s, run))
    decreases |run|
  {
    if run != [] {
      StepKeepsSane(s, run[0]);
      StepKeepsSelfActive(s, run[0]);
      RunKeepsSelfActive(Apply(s, run[0]), run[1..]);
    }
  }

  /** The list, or the manager's own presence, vouches for this leader. */
  ghost predicate Vouched(self: ID, leader: ID, entries: seq<Entry>) {
    && leader != []
    && (leader == self ||
        (LastEntry(entries, leader).Some? && LastEntry(entries, leader).value.status.GetOr(OtherStatus("")) != Failed))
  }

  lemma MergeSettlesExactly(m: Manager, entries: seq<Entry>, now: Time)
    requires m.id in m.nodes && m.nodes[m.id].status.Active?
    ensures !ElectionDue(MergeBeat(m, entries, now)) <==> Vouched(m.id, m.leaderID, entries)
  {
    MergedFind(Heartbeat, m.id, m.isLeader, m.nodes, entries, now, m.leaderID);
  }

  /**
   Whatever happened before, once the members of a heartbeat are merged no election is due, exactly
   if the list vouches for the leader the receiver names by then. It vouches for its sender, so only
   a change of leader between the two halves of the delivery can spoil this.
   */
  lemma DeliveredHeartbeatSettles(s: System, run: seq<Step>, j: nat, now: Time)
    requires Fresh(s) && Possible(s, run) && forall step :: step in run ==> SparesSelf(step)
    requires Enabled(After(s, run), RunJob(j, now)) && After(s, run).jobs[j].task.MergeMembers?
    ensures var before := After(s, run);
            var job, n := before.jobs[j], before.jobs[j].owner;
            var m := Apply(before, RunJob(j, now)).managers[n];
            && m.leaderID == before.managers[n].leaderID
            && (!ElectionDue(m) <==> Vouched(n, m.leaderID, job.task.entries))
            && (m.leaderID == job.task.leader ==> !ElectionDue(m) && !m.isLeader)
  {
    RunKeepsSelfActive(s, run);
    var before := After(s, run);
    MergeSettlesExactly(before.managers[before.jobs[j].owner], before.jobs[j].task.entries, now);
    assert ShowsSender(before.jobs[j].owner, before.jobs[j].task.leader, before.jobs[j].task.entries);
  }

  /** The first half of a delivery. */
  function HeardFrom(s: System, i: nat): System
    requires i < |s.beats| && s.beats[i].to in s.managers
  {
    var beat := s.beats[i];
    System(s.managers[beat.to := SetLeaderFlag(s.managers[beat.to], beat.leader)], RemoveAt(s.beats, i),
           s.jobs + [Job(beat.to, MergeMembers(beat.leader, beat.entries))])
  }

  /** The election's section, run before the second half. */
  lemma InstalledInBetween(s: System, i: nat, j: nat, now: Time) returns (s2: System)
    requires Sane(s) && Enabled(s, DeliverBeat(i)) && Enabled(s, RunJob(j, now))
    requires s.jobs[j].owner == s.beats[i].to && s.jobs[j].task.Install?
    ensures var beat := s.beats[i];
            && Goes(HeardFrom(s, i), RunJob(j, now), s2)
            && beat.to in s2.managers && s2.managers[beat.to].nodes == s.managers[beat.to].nodes
            && s2.managers[beat.to].leaderID == s.jobs[j].task.winner && s2.managers[beat.to].id == beat.to
            && |s2.jobs| > |s.jobs| - 1
                && s2.jobs[|s.jobs| - 1] == Job(beat.to, MergeMembers(beat.leader, beat.entries))
  {
    var s1 := HeardFrom(s, i);
    assert s1.jobs[j] == s.jobs[j];
    s2 := Apply(s1, RunJob(j, now));
  }

  /** The second half of the delivery, when the receiver names a leader the list does not vouch for. */
  lemma MergedAfterwards(s: System, j: nat, now: Time) returns (end: System)
    requires Enabled(s, RunJob(j, now)) && s.jobs[j].task.MergeMembers?
    requires var m := s.managers[s.jobs[j].owner];
             m.id in m.nodes && m.nodes[m.id].status.Active? && !Vouched(m.id, m.leaderID, s.jobs[j].task.entries)
    ensures Goes(s, RunJob(j, now), end) && s.jobs[j].owner in end.managers
        && ElectionDue(end.managers[s.jobs[j].owner])
  {
    end := Apply(s, RunJob(j, now));
    MergeSettlesExactly(s.managers[s.jobs[j].owner], s.jobs[j].task.entries, now);
  }

  /**
   An election that installs a winner the list does not vouch for, between the halves of a delivery, leaves an
   election due.
   */
  lemma InterruptedDeliveryLeavesElectionDue(s: System, i: nat, j: nat, now: Time) returns (end: System)
    requires Sane(s) && SelfActive(s) && Enabled(s, DeliverBeat(i)) && Enabled(s, RunJob(j, now))
    requires s.jobs[j].owner == s.beats[i].to && s.jobs[j].task.Install?
    requires !Vouched(s.beats[i].to, s.jobs[j].task.winner, s.beats[i].entries)
    ensures var run := [DeliverBeat(i), RunJob(j, now), RunJob(|s.jobs| - 1, now)];
            Possible(s, run) && After(s, run) == end
    ensures s.beats[i].to in end.managers && ElectionDue(end.managers[s.beats[i].to])
  {
    var s2 := InstalledInBetween(s, i, j, now);
    end := MergedAfterwards(s2, |s.jobs| - 1, now);
    ThreeSteps(s, DeliverBeat(i), HeardFrom(s, i), RunJob(j, now), s2, RunJob(|s.jobs| - 1, now), end);
  }

  /** A manager that has just been created. */
  function Created(id: ID, now: Time): Manager {
    Manager(id, map[id := Info(id, "0.0.0.0:8082", Active, now, "1.0.0", ROLE, false, now)], false, [])
  }

  function Alone(b: ID, now: Time): seq<Entry> {
    [EntryOf(b, Created(b, now).nodes[b])]
  }

  /** The first manager has been told of x. */
  function Informed(a: ID, b: ID, x: Info, now: Time): System {
    System(map[a := AddNode(Created(a, now), x), b := Created(b, now)], [], [])
  }

  /** It has started an election, which x wins, while a heartbeat of the second is on its way to it. */
  function Electing(a: ID, b: ID, x: Info, now: Time): System {
    System(Informed(a, b, x, now).managers, [Beat(a, b, Alone(b, now))], [Job(a, Install(x.id))])
  }

  lemma HeartbeatIsSent(a: ID, b: ID, x: Info, now: Time)
    requires a != b
    ensures Goes(Informed(a, b, x, now), SendBeat(b, a, Alone(b, now)), Electing(a, b, x, now).(jobs := []))
  {
    assert Alone(b, now)[0] in Alone(b, now);
  }

  lemma ElectionIsStarted(a: ID, b: ID, x: Info, now: Time)
    requires a != b && Less(x.id, a) && x.status.Active?
    ensures Goes(Electing(a, b, x, now).(jobs := []), Elect(a), Electing(a, b, x, now))
  {
    Trichotomy(x.id, a);
    LowerNodeWins(AddNode(Created(a, now), x), x.id);
  }

  lemma ElectingIsSane(a: ID, b: ID, x: Info, now: Time)
    requires a != [] && b != [] && a != b
    ensures Sane(Electing(a, b, x, now))
  {
  }

  lemma ElectingIsSelfActive(a: ID, b: ID, x: Info, now: Time)
    requires b != [] && a != b && x.id != a
    ensures SelfActive(Electing(a, b, x, now))
  {
    LastOfOne(EntryOf(b, Created(b, now).nodes[b]), b);
  }

  lemma LastOfOne(e: Entry, k: ID)
    ensures LastEntry([e], k) == if e.id == Some(k) then Some(e) else None
  {
    assert [e][..0] == [];
  }

  /** Two new managers. */
  function Started(a: ID, b: ID, now: Time): System {
    System(map[a := Created(a, now), b := Created(b, now)], [], [])
  }

  lemma StartedIsFresh(a: ID, b: ID, now: Time)
    requires a != [] && b != [] && a != b
    ensures Fresh(Started(a, b, now)) && Started(a, b, now).managers.Keys == {a, b}
  {
  }

  lemma NodeIsAdded(a: ID, b: ID, x: Info, now: Time) returns (s: System)
    requires a != [] && b != [] && a != b
    ensures Fresh(s) && s.managers.Keys == {a, b} && Goes(s, Local(a, Add(x), now), Informed(a, b, x, now))
  {
    s := Started(a, b, now);
    StartedIsFresh(a, b, now);
    assert s.managers[a := AddNode(Created(a, now), x)] == Informed(a, b, x, now).managers;
  }

  /** From two new managers, three steps lead to where an election can interrupt a delivery. */
  lemma InterruptionIsReachable(a: ID, b: ID, x: Info, now: Time) returns (s: System, end: System)
    requires a != [] && b != [] && a != b && x.id != b && Less(x.id, a) && x.status.Active?
    ensures Fresh(s) && s.managers.Keys == {a, b} && end == Electing(a, b, x, now)
    ensures var run := [Local(a, Add(x), now), SendBeat(b, a, Alone(b, now)), Elect(a)];
            Possible(s, run) && After(s, run) == end
    ensures Sane(end) && SelfActive(end) && !Vouched(a, x.id, Alone(b, now))
  {
    Trichotomy(x.id, a);
    s := NodeIsAdded(a, b, x, now);
    HeartbeatIsSent(a, b, x, now);
    ElectionIsStarted(a, b, x, now);
    end := Electing(a, b, x, now);
    ThreeSteps(s, Local(a, Add(x), now), Informed(a, b, x, now), SendBeat(b, a, Alone(b, now)), end.(jobs := []),
        Elect(a), end);
    ElectingIsSane(a, b, x, now);
    ElectingIsSelfActive(a, b, x, now);
    LastOfOne(EntryOf(b, Created(b, now).nodes[b]), x.id);
  }

  lemma LowerNodeWins(m: Manager, x: ID)
    requires ActiveIds(m) + {m.id} == {m.id, x} && Less(x, m.id)
    ensures Winner(m) == x
  {
    Trichotomy(x, m.id);
    Trichotomy(x, x);
    MinIsUnique(x, Winner(m), {m.id, x});
  }

  // ---- Uninterrupted operations ------------------------------------------

  lemma LastJobLeaves(jobs: seq<Job>, job: Job)
    ensures RemoveAt(jobs + [job], |jobs|) == jobs
  {
  }

  /** A goroutine just started takes its one step at once. */
  lemma RunsAtOnce(s: System, n: ID, task: Task, now: Time)
    requires n in s.managers
    ensures Goes(Spawn(s, n, task), RunJob(|s.jobs|, now), RunTask(s, n, task, now))
  {
    LastJobLeaves(s.jobs, Job(n, task));
    assert Spawn(s, n, task).(jobs := s.jobs) == s;
  }

  /** An election nobody interrupts does what the manager's election does, and nothing else. */
  lemma ElectionIsARun(s: System, n: ID, now: Time)
    requires Sane(s) && n in s.managers
    ensures var run := [Elect(n), RunJob(|s.jobs|, now), RunJob(|s.jobs|, now)];
            RunsTo(s, run, With(s, n, StartElection(s.managers[n])))
  {
    var winner := Winner(s.managers[n]);
    var spawned := Spawn(s, n, Install(winner));
    var installed := RunTask(s, n, Install(winner), now);
    RunsAtOnce(s, n, Install(winner), now);
    InstalledAtOnce(s, n, winner, now);
    ThreeSteps(s, Elect(n), spawned, RunJob(|s.jobs|, now), installed, RunJob(|s.jobs|, now),
               With(s, n, StartElection(s.managers[n])));
  }

  lemma InstalledAtOnce(s: System, n: ID, winner: ID, now: Time)
    requires Sane(s) && n in s.managers
    ensures Goes(RunTask(s, n, Install(winner), now), RunJob(|s.jobs|, now),
                 With(s, n, Installed(s.managers[n], winner)))
  {
    var m := s.managers[n];
    var flagged := if winner == n then BecomeLeaderFlag(m) else SetLeaderFlag(m, winner);
    RunsAtOnce(With(s, n, flagged), n, if winner == n then FlagSelf else FlagLeader(winner), now);
    assert s.managers[n := flagged][n := Installed(m, winner)] == s.managers[n := Installed(m, winner)];
  }

  /** Nor does adopting the leader another manager names. */
  lemma AdoptionIsARun(s: System, n: ID, from: ID, now: Time)
    requires Sane(s) && n in s.managers && from in s.managers
    ensures var run := [AskLeader(n, from), RunJob(|s.jobs|, now), RunJob(|s.jobs|, now)];
            RunsTo(s, run, With(s, n, SetLeader(s.managers[n], s.managers[from].leaderID)))
  {
    var m, leader := s.managers[n], s.managers[from].leaderID;
    var adopted := RunTask(s, n, Adopt(leader), now);
    RunsAtOnce(s, n, Adopt(leader), now);
    RunsAtOnce(With(s, n, SetLeaderFlag(m, leader)), n, FlagLeader(leader), now);
    assert s.managers[n := SetLeaderFlag(m, leader)][n := SetLeader(m, leader)] == s.managers[n := SetLeader(m,
        leader)];
    ThreeSteps(s, AskLeader(n, from), Spawn(s, n, Adopt(leader)), RunJob(|s.jobs|, now), adopted, RunJob(|s.jobs|, now),
               With(s, n, SetLeader(m, leader)));
  }

  /** A discovery whose reply is merged at once. */
  lemma DiscoveryIsARun(s: System, n: ID, from: ID, items: seq<Item>, now: Time)
    requires n in s.managers && from in s.managers && IdsOf(Objects(items)) <= s.managers[from].nodes.Keys
    ensures RunsTo(s, [Discover(n, from, items), RunJob(|s.jobs|, now)], With(s, n, UpdateMembership(s.managers[n],
        items, now)))
  {
    var merged := With(s, n, UpdateMembership(s.managers[n], items, now));
    RunsAtOnce(s, n, MergeReply(items), now);
    Cons(Spawn(s, n, MergeReply(items)), RunJob(|s.jobs|, now), []);
    Cons(s, Discover(n, from, items), [RunJob(|s.jobs|, now)] + []);
    assert [Discover(n, from, items)] + ([RunJob(|s.jobs|, now)] + []) == [Discover(n, from, items), RunJob(|s.jobs|,
        now)];
  }

  /** A node that bootstraps the cluster becomes its own leader. */
  lemma BootstrapIsARun(s: System, n: ID, now: Time)
    requires Sane(s) && n in s.managers
    ensures RunsTo(s, [Bootstrap(n), RunJob(|s.jobs|, now), RunJob(|s.jobs|, now)], With(s, n,
        BecomeLeader(s.managers[n])))
  {
    RunsAtOnce(s, n, Install(n), now);
    InstalledAtOnce(s, n, n, now);
    ThreeSteps(s, Bootstrap(n), Spawn(s, n, Install(n)), RunJob(|s.jobs|, now), RunTask(s, n, Install(n), now),
               RunJob(|s.jobs|, now), With(s, n, BecomeLeader(s.managers[n])));
  }

  /** A local operation takes effect at its manager and nowhere else. */
  lemma LocalTakesEffect(s: System, n: ID, op: Op, now: Time)
    requires n in s.managers
    ensures var s' := Apply(s, Local(n, op, now));
            && s'.beats == s.beats && s'.jobs == s.jobs && s'.managers.Keys == s.managers.Keys
            && (forall j :: j in s.managers && j != n ==> s'.managers[j] == s.managers[j])
            && var before, after := s.managers[n], s'.managers[n].nodes;
               match op
               case Add(info) => info.id in after && (info.id !in before.nodes ==> after[info.id] == info)
               case Remove(k) => k !in after
               case SetStatus(k, status) =>
                 k in before.nodes ==> k in after && after[k].status == status && after[k].lastSeen == now
               case Answered(k) =>
                 k in before.nodes ==> k in after && after[k].status == Active && after[k].lastSeen == now
               case Touch => before.id in before.nodes ==> before.id in after && after[before.id].lastSeen == now
               case Check(timeout) =>
                 forall k :: k in before.nodes && k != before.id && before.nodes[k].status == Active ==>
                   k in after && (after[k].status == Failed <==> now - before.nodes[k].lastSeen > 3 * timeout)
  {
  }
}
