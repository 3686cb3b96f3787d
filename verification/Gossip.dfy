/**
 The whole mesh as a labelled transition system: any number of nodes, a network
 that delivers broadcast messages in any order, and the goroutines of every node
 interleaved at their critical sections.
 */
module Gossip {
  import opened Prelude
  import opened GoTime
  import opened FileSync

  /** What never changes during a run: the checksum function and each node's strategy. */
  datatype World = World(hash: Hash, strategies: seq<Strategy>)

  datatype Packet = Packet(to: Peer, msg: Message)

  /**
   A goroutine between two critical sections. `Checked` passed shouldSyncFile,
   `Conflicted` found a conflict, `Wanted` is about to publish its request and
   `Recording` has published an event it has not recorded yet.
   */
  datatype Task =
    | Checked(event: FileEvent)
    | Conflicted(event: FileEvent)
    | Wanted(event: FileEvent)
    | Recording(event: FileEvent)

  datatype Job = Job(owner: Peer, task: Task)

  datatype System = System(nodes: seq<Node>, net: seq<Packet>, jobs: seq<Job>)

  datatype Step =
    | Edit(node: Peer, path: Path, content: Content, now: Time)
    | Delete(node: Peer, path: Path)
    | Fire(node: Peer, watch: Watch, now: Time)
    | SyncFile(node: Peer, path: Path, now: Time)
    | Deliver(index: nat, now: Time)
    | Advance(index: nat, now: Time)

  /** One copy of the message for every node below n except its sender. */
  function Broadcast(n: nat, msg: Message): (packets: seq<Packet>)
    ensures forall packet :: packet in packets <==>
                             packet.msg == msg && packet.to < n && packet.to != msg.from
  {
    if n == 0 then []
    else Broadcast(n - 1, msg) + if n - 1 != msg.from then [Packet(n - 1, msg)] else []
  }

  predicate Sized(w: World, s: System) {
    |s.nodes| == |w.strategies|
  }

  predicate Enabled(s: System, step: Step) {
    match step
    case Edit(n, _, _, _) => n < |s.nodes|
    case Delete(n, p) => n < |s.nodes| && p in s.nodes[n].disk
    case Fire(n, watch, _) => n < |s.nodes| && watch in s.nodes[n].pending
    case SyncFile(n, p, _) => n < |s.nodes| && p in s.nodes[n].disk
    case Deliver(i, _) => i < |s.net| && s.net[i].to < |s.nodes|
    case Advance(j, _) => j < |s.jobs| && s.jobs[j].owner < |s.nodes|
  }

  function Send(s: System, msg: Message): System {
    s.(net := s.net + Broadcast(|s.nodes|, msg))
  }

  function Spawn(s: System, owner: Peer, task: Task): System {
    s.(jobs := s.jobs + [Job(owner, task)])
  }

  /** Node n publishes an event; recording it is left to the goroutine. */
  function Announce(s: System, n: Peer, event: FileEvent, now: Time): System {
    Spawn(Send(s, EventMessage(n, event, now)), n, Recording(event))
  }

  function Receive(s: System, n: Peer, msg: Message, now: Time): System
    requires n < |s.nodes|
  {
    var node := s.nodes[n];
    if msg.from == n then s
    else match msg.kind
    case Event => if ShouldSyncFile(node.records, EventOf(msg)) then Spawn(s, n, Checked(EventOf(msg))) else s
    case Request =>
      if msg.path in node.disk then Send(s, ResponseMessage(n, msg.path, node.disk[msg.path].content, now)) else s
    case Response => s.(nodes := s.nodes[n := Write(node, msg.path, msg.data, now)])
    case Other(_) => s
  }

  function RunTask(w: World, s: System, n: Peer, task: Task, now: Time): System
    requires Sized(w, s) && n < |s.nodes|
  {
    var node := s.nodes[n];
    match task
    case Checked(event) =>
      Spawn(s, n, if HasConflict(node.records, event, now) then Conflicted(event) else Wanted(event))
    case Conflicted(event) =>
      var (records, proceed) := ResolveConflict(w.strategies[n], node.records, event);
      var resolved := s.(nodes := s.nodes[n := node.(records := records)]);
      if proceed then Spawn(resolved, n, Wanted(event)) else resolved
    case Wanted(event) => Send(s, RequestMessage(n, event.path, now))
    case Recording(event) =>
      s.(nodes := s.nodes[n := node.(records := node.records[event.path := RecordOf(event, now)])])
  }

  function Apply(w: World, s: System, step: Step): (s': System)
    requires Sized(w, s) && Enabled(s, step)
    ensures Sized(w, s')
  {
    match step
    case Edit(n, p, c, now) => s.(nodes := s.nodes[n := Write(s.nodes[n], p, c, now)])
    case Delete(n, p) => s.(nodes := s.nodes[n := FileSync.Remove(s.nodes[n], p)])
    case Fire(n, watch, now) =>
      var node := s.nodes[n];
      Announce(s.(nodes := s.nodes[n := node.(pending := node.pending - {watch})]), n,
               Observe(w.hash, node.disk, watch.path, watch.removed, now), now)
    case SyncFile(n, p, now) => Announce(s, n, Observe(w.hash, s.nodes[n].disk, p, false, now), now)
    case Deliver(i, now) => Receive(s.(net := RemoveAt(s.net, i)), s.net[i].to, s.net[i].msg, now)
    case Advance(j, now) => RunTask(w, s.(jobs := RemoveAt(s.jobs, j)), s.jobs[j].owner, s.jobs[j].task, now)
  }

  /** Every step of the run is enabled when it is taken. */
  predicate Possible(w: World, s: System, run: seq<Step>)
    requires Sized(w, s)
    decreases |run|
  {
    run == [] || (Enabled(s, run[0]) && Possible(w, Apply(w, s, run[0]), run[1..]))
  }

  function After(w: World, s: System, run: seq<Step>): (s': System)
    requires Sized(w, s) && Possible(w, s, run)
    ensures Sized(w, s')
    decreases |run|
  {
    if run == [] then s else After(w, Apply(w, s, run[0]), run[1..])
  }

  lemma Cons(w: World, s: System, step: Step, rest: seq<Step>)
    requires Sized(w, s) && Enabled(s, step) && Possible(w, Apply(w, s, step), rest)
    ensures Possible(w, s, [step] + rest)
    ensures After(w, s, [step] + rest) == After(w, Apply(w, s, step), rest)
  {
    assert ([step] + rest)[1..] == rest;
  }

  lemma FirstOfBoth(run: seq<Step>, more: seq<Step>)
    requires run != []
    ensures (run + more)[0] == run[0] && (run + more)[1..] == run[1..] + more
  {
  }

  ghost predicate Goes(w: World, s: System, run: seq<Step>, end: System) {
    Sized(w, s) && Possible(w, s, run) && After(w, s, run) == end
  }

  lemma {:induction false} GoesOn(w: World, s: System, run: seq<Step>, mid: System, more: seq<Step>, end: System)
    requires Goes(w, s, run, mid) && Goes(w, mid, more, end)
    ensures Goes(w, s, run + more, end)
    decreases |run|
  {
    if run == [] {
      assert run + more == more;
    } else {
      FirstOfBoth(run, more);
      GoesOn(w, Apply(w, s, run[0]), run[1..], mid, more, end);
    }
  }

  lemma Concat(w: World, s: System, run: seq<Step>, more: seq<Step>)
    requires Sized(w, s) && Possible(w, s, run) && Possible(w, After(w, s, run), more)
    ensures Possible(w, s, run + more) && After(w, s, run + more) == After(w, After(w, s, run), more)
  {
    GoesOn(w, s, run, After(w, s, run), more, After(w, After(w, s, run), more));
  }

  // ---- The uninterrupted handler is one of the interleavings --------------

  /** The packets a reaction puts on the network. */
  function Outgoing(n: nat, sent: Option<Message>): seq<Packet> {
    match sent case None => [] case Some(msg) => Broadcast(n, msg)
  }

  /** The system in which node n handled packet i in one go, as ProcessMessage describes. */
  function Handled(w: World, s: System, i: nat, now: Time): System
    requires Sized(w, s) && i < |s.net| && s.net[i].to < |s.nodes|
  {
    var n := s.net[i].to;
    var reaction := ProcessMessage(n, w.strategies[n], s.nodes[n], s.net[i].msg, now);
    System(s.nodes[n := reaction.node], RemoveAt(s.net, i) + Outgoing(|s.nodes|, reaction.sent), s.jobs)
  }

  /** The steps node n takes to handle packet i when nothing interrupts it. */
  function HandlingSteps(w: World, s: System, i: nat, now: Time): seq<Step>
    requires Sized(w, s) && i < |s.net| && s.net[i].to < |s.nodes|
  {
    var n, msg, records := s.net[i].to, s.net[i].msg, s.nodes[s.net[i].to].records;
    var next := Advance(|s.jobs|, now);
    if msg.from == n || !msg.kind.Event? || !ShouldSyncFile(records, EventOf(msg)) then [Deliver(i, now)]
    else if !HasConflict(records, EventOf(msg), now) then [Deliver(i, now), next, next]
    else if !ResolveConflict(w.strategies[n], records, EventOf(msg)).1 then [Deliver(i, now), next, next]
    else [Deliver(i, now), next, next, next]
  }

  /** A job just appended is removed again by the step that runs it. */
  lemma RemoveLast<T>(s: seq<T>, x: T)
    ensures RemoveAt(s + [x], |s|) == s
  {
  }

  /** The last job of a list runs to completion; `task` is what it becomes. */
  lemma AdvanceLast(w: World, s: System, jobs: seq<Job>, n: Peer, task: Task, now: Time)
    requires Sized(w, s) && n < |s.nodes| && s.jobs == jobs + [Job(n, task)]
    ensures Apply(w, s, Advance(|jobs|, now)) == RunTask(w, s.(jobs := jobs), n, task, now)
  {
    RemoveLast(jobs, Job(n, task));
  }

  /** From the decision to fetch, two more steps publish the request. */
  lemma Fetch(w: World, s: System, jobs: seq<Job>, n: Peer, event: FileEvent, now: Time)
    requires Sized(w, s) && n < |s.nodes| && s.jobs == jobs + [Job(n, Wanted(event))]
    ensures var run := [Advance(|jobs|, now)];
            && Possible(w, s, run)
            && After(w, s, run) == Send(s.(jobs := jobs), RequestMessage(n, event.path, now))
  {
    AdvanceLast(w, s, jobs, n, Wanted(event), now);
    Cons(w, s, Advance(|jobs|, now), []);
    assert [Advance(|jobs|, now)] + [] == [Advance(|jobs|, now)];
  }

  /** An event that passed shouldSyncFile is taken to its request or its rejection. */
  lemma Decide(w: World, s: System, jobs: seq<Job>, n: Peer, event: FileEvent, now: Time)
    requires Sized(w, s) && n < |s.nodes| && s.jobs == jobs + [Job(n, Checked(event))]
    requires ShouldSyncFile(s.nodes[n].records, event)
    ensures var next, node := Advance(|jobs|, now), s.nodes[n];
            var conflict := HasConflict(node.records, event, now);
            var run := if conflict
                && ResolveConflict(w.strategies[n], node.records, event).1 then [next, next, next] else [next, next];
            var (records, wanted) := HandleFileEvent(w.strategies[n], node.records, event, now);
            && Possible(w, s, run)
            && After(w, s, run) == System(s.nodes[n := node.(records := records)],
                                          s.net + if wanted then Broadcast(|s.nodes|, RequestMessage(n, event.path,
                                              now)) else [],
                                          jobs)
  {
    var next, node := Advance(|jobs|, now), s.nodes[n];
    AdvanceLast(w, s, jobs, n, Checked(event), now);
    var s1 := Apply(w, s, next);
    assert s.nodes[n := node] == s.nodes && s.net + [] == s.net;
    if !HasConflict(node.records, event, now) {
      Fetch(w, s1, jobs, n, event, now);
      Cons(w, s, next, [next]);
      assert [next] + [next] == [next, next];
    } else {
      AdvanceLast(w, s1, jobs, n, Conflicted(event), now);
      var s2 := Apply(w, s1, next);
      if ResolveConflict(w.strategies[n], node.records, event).1 {
        Fetch(w, s2, jobs, n, event, now);
        Cons(w, s1, next, [next]);
        Cons(w, s, next, [next, next]);
        assert [next] + [next, next] == [next, next, next];
      } else {
        Cons(w, s1, next, []);
        Cons(w, s, next, [next]);
        assert [next] + [] == [next] && [next] + [next] == [next, next];
      }
    }
  }

  /** A message that is no acceptable event is handled by its delivery alone. */
  lemma HandledByDelivery(w: World, s: System, i: nat, now: Time)
    requires Sized(w, s) && i < |s.net| && s.net[i].to < |s.nodes|
    requires var n, msg := s.net[i].to, s.net[i].msg;
             msg.from == n || !msg.kind.Event? || !ShouldSyncFile(s.nodes[n].records, EventOf(msg))
    ensures Apply(w, s, Deliver(i, now)) == Handled(w, s, i, now)
  {
    var node := s.nodes[s.net[i].to];
    assert s.nodes[s.net[i].to := node] == s.nodes;
    assert node.(records := node.records) == node;
    assert RemoveAt(s.net, i) + [] == RemoveAt(s.net, i);
  }

  /** Handling a message in one go, as ProcessMessage describes, is one of the interleavings. */
  lemma HandlerIsARun(w: World, s: System, i: nat, now: Time)
    requires Sized(w, s) && i < |s.net| && s.net[i].to < |s.nodes|
    ensures Possible(w, s, HandlingSteps(w, s, i, now))
    ensures After(w, s, HandlingSteps(w, s, i, now)) == Handled(w, s, i, now)
  {
    var n, msg := s.net[i].to, s.net[i].msg;
    var run, rest := HandlingSteps(w, s, i, now), HandlingSteps(w, s, i, now)[1..];
    if msg.from == n || !msg.kind.Event? || !ShouldSyncFile(s.nodes[n].records, EventOf(msg)) {
      HandledByDelivery(w, s, i, now);
      assert rest == [];
    } else {
      Decide(w, Apply(w, s, Deliver(i, now)), s.jobs, n, EventOf(msg), now);
    }
    Cons(w, s, Deliver(i, now), rest);
    assert run == [Deliver(i, now)] + rest;
  }

  /** Firing a watcher and recording at once is the engine's FireWatcher. */
  lemma FiringIsARun(w: World, s: System, n: Peer, watch: Watch, now: Time)
    requires Sized(w, s) && n < |s.nodes| && watch in s.nodes[n].pending
    ensures var run := [Fire(n, watch, now), Advance(|s.jobs|, now)];
            var reaction := FireWatcher(w.hash, n, s.nodes[n], watch, now);
            && Possible(w, s, run)
            && After(w, s, run) == System(s.nodes[n := reaction.node], s.net + Outgoing(|s.nodes|, reaction.sent),
                s.jobs)
  {
    var run := [Fire(n, watch, now), Advance(|s.jobs|, now)];
    var event := Observe(w.hash, s.nodes[n].disk, watch.path, watch.removed, now);
    var s1 := Apply(w, s, run[0]);
    assert s1.jobs == s.jobs + [Job(n, Recording(event))];
    RemoveLast(s.jobs, Job(n, Recording(event)));
    Cons(w, s1, run[1], []);
    Cons(w, s, run[0], [run[1]]);
    assert run == [run[0]] + [run[1]];
  }

  /** What users do takes effect on one file of one node, and wakes its watcher. */
  lemma UsersTakeEffect(w: World, s: System, n: Peer, path: Path, content: Content, now: Time)
    requires Sized(w, s) && n < |s.nodes|
    ensures var edited := Apply(w, s, Edit(n, path, content, now));
            && edited.net == s.net && edited.jobs == s.jobs
            && (forall m :: 0 <= m < |s.nodes| && m != n ==> edited.nodes[m] == s.nodes[m])
            && edited.nodes[n].disk == s.nodes[n].disk[path := File(content, now)]
            && edited.nodes[n].records == s.nodes[n].records
            && edited.nodes[n].pending == s.nodes[n].pending + {Watch(path, false)}
    ensures path in s.nodes[n].disk ==>
              var deleted := Apply(w, s, Delete(n, path));
              && deleted.net == s.net && deleted.jobs == s.jobs
              && (forall m :: 0 <= m < |s.nodes| && m != n ==> deleted.nodes[m] == s.nodes[m])
              && deleted.nodes[n].disk == s.nodes[n].disk - {path}
              && deleted.nodes[n].records == s.nodes[n].records
              && deleted.nodes[n].pending == s.nodes[n].pending + {Watch(path, true)}
  {
  }

  /** A manual synchronisation, uninterrupted, announces and records the file as a firing watcher would. */
  lemma ManualSyncIsARun(w: World, s: System, n: Peer, path: Path, now: Time)
    requires Sized(w, s) && n < |s.nodes| && path in s.nodes[n].disk
    ensures var reaction := FireWatcher(w.hash, n, s.nodes[n], Watch(path, false), now);
            Goes(w, s, [SyncFile(n, path, now), Advance(|s.jobs|, now)],
                 System(s.nodes[n := reaction.node.(pending := s.nodes[n].pending)],
                        s.net + Outgoing(|s.nodes|, reaction.sent), s.jobs))
  {
    var event := Observe(w.hash, s.nodes[n].disk, path, false, now);
    var s1 := Apply(w, s, SyncFile(n, path, now));
    RemoveLast(s.jobs, Job(n, Recording(event)));
    Cons(w, s1, Advance(|s.jobs|, now), []);
    Cons(w, s, SyncFile(n, path, now), [Advance(|s.jobs|, now)] + []);
    assert [SyncFile(n, path, now)] + ([Advance(|s.jobs|, now)] + []) == [SyncFile(n, path, now), Advance(|s.jobs|,
        now)];
  }
}
