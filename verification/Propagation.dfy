/**
 Propagation of one version. One node, the origin, has written `content` to a watched
 path nobody else holds. However the mesh is interleaved from there, with arbitrary
 traffic on other paths and any mix of strategies, every node that still lacks the
 content has something under way that will bring it, so a state with no work left
 for the path has the same disk content and the same record on every node.
 */
module Propagation {
  import opened Prelude
  import opened GoTime
  import opened FileSync
  import opened Gossip
  import opened Work

  datatype Version = Version(origin: Peer, path: Path, content: Content)

  // ---- Work under way ----------------------------------------------------

  predicate Fits(packet: Packet, to: Peer, kind: Kind, path: Path) {
    packet.to == to && packet.msg.kind == kind && packet.msg.path == path
  }

  ghost predicate InFlight(s: System, to: Peer, kind: Kind, path: Path) {
    exists packet :: packet in s.net && Fits(packet, to, kind, path)
  }

  /** Node n's own request is on its way to the origin. */
  ghost predicate Asked(s: System, v: Version, n: Peer) {
    exists packet :: packet in s.net && Fits(packet, v.origin, Request, v.path) && packet.msg.from == n
  }

  /** Node n is fetching: it accepted an event and has not published its request yet. */
  ghost predicate Fetching(s: System, n: Peer, path: Path) {
    exists job :: job in s.jobs && job.owner == n && job.task.event.path == path && (job.task.Checked?
        || job.task.Wanted?)
  }

  /** Node n has announced the file and is about to record it. */
  ghost predicate AboutToRecord(s: System, n: Peer, path: Path) {
    exists job :: job in s.jobs && job.owner == n && job.task.event.path == path && job.task.Recording?
  }

  /** Something under way will bring the version to node n. */
  ghost predicate Coming(s: System, v: Version, n: Peer)
    requires v.origin < |s.nodes|
  {
    || Watch(v.path, false) in s.nodes[v.origin].pending
    || InFlight(s, n, Event, v.path)
    || InFlight(s, n, Response, v.path)
    || Asked(s, v, n)
    || Fetching(s, n, v.path)
  }

  // ---- The invariant -----------------------------------------------------

  /** Node n holds nothing but this version at the path, and recorded nothing else. */
  ghost predicate OnlyThisVersion(w: World, v: Version, node: Node) {
    && (v.path in node.disk ==> node.disk[v.path].content == v.content)
    && (v.path in node.records ==>
          && v.path in node.disk
          && node.records[v.path].checksum == w.hash(v.content)
          && node.records[v.path].size == |v.content|)
    && (Watch(v.path, false) in node.pending ==> v.path in node.disk)
    && Watch(v.path, true) !in node.pending
  }

  ghost predicate CarriesVersion(w: World, v: Version, nodes: nat, packet: Packet) {
    packet.msg.path == v.path ==>
      && packet.to < nodes && packet.msg.from < nodes && packet.msg.from != packet.to
      && (packet.msg.kind.Event? ==> packet.msg.checksum == w.hash(v.content) && packet.msg.size == |v.content|)
      && (packet.msg.kind.Response? ==> packet.msg.data == v.content)
  }

  ghost predicate WorksOnVersion(w: World, v: Version, nodes: seq<Node>, job: Job) {
    job.task.event.path == v.path ==>
      && job.owner < |nodes|
      && job.task.event.checksum == w.hash(v.content) && job.task.event.size == |v.content|
      && (job.task.Conflicted? ==> v.path in nodes[job.owner].records)
      && (job.task.Recording? ==> v.path in nodes[job.owner].disk)
  }

  ghost predicate Consistent(w: World, v: Version, s: System) {
    && Sized(w, s) && v.origin < |s.nodes| && v.path in s.nodes[v.origin].disk
    && (forall n :: 0 <= n < |s.nodes| ==> OnlyThisVersion(w, v, s.nodes[n]))
    && (forall packet :: packet in s.net ==> CarriesVersion(w, v, |s.nodes|, packet))
    && (forall job :: job in s.jobs ==> WorksOnVersion(w, v, s.nodes, job))
  }

  /** Node n holds the file, or it is coming. */
  ghost predicate Served(v: Version, s: System, n: Peer)
    requires n < |s.nodes| && v.origin < |s.nodes|
  {
    v.path in s.nodes[n].disk || Coming(s, v, n)
  }

  /** A file held without a record is about to be announced or recorded. */
  ghost predicate Reported(v: Version, s: System, n: Peer)
    requires n < |s.nodes|
  {
    && (v.path in s.nodes[n].disk ==>
          v.path in s.nodes[n].records || Watch(v.path, false) in s.nodes[n].pending || AboutToRecord(s, n, v.path))
  }

  /** The invariant, except that nodes in `unserved` and `unreported` still wait for this step to finish. */
  ghost predicate SpreadingBut(w: World, v: Version, s: System, unserved: set<Peer>, unreported: set<Peer>) {
    && Consistent(w, v, s)
    && (forall n :: 0 <= n < |s.nodes| && n !in unserved ==> Served(v, s, n))
    && (forall n :: 0 <= n < |s.nodes| && n !in unreported ==> Reported(v, s, n))
  }

  ghost predicate Spreading(w: World, v: Version, s: System) {
    SpreadingBut(w, v, s, {}, {})
  }

  /** No user edits or deletes the file again; re-announcing it is allowed. */
  predicate LeavesAlone(path: Path, step: Step) {
    (step.Edit? ==> step.path != path) && (step.Delete? ==> step.path != path)
  }

  // ---- Preservation ------------------------------------------------------

  /** The nodes whose supply hangs on the packet. */
  function Supplies(v: Version, packet: Packet): set<Peer> {
    if packet.msg.path != v.path then {}
    else match packet.msg.kind
    case Event => {packet.to}
    case Response => {packet.to}
    case Request => if packet.to == v.origin then {packet.msg.from} else {}
    case Other(_) => {}
  }

  function Feeds(v: Version, job: Job): set<Peer> {
    if job.task.event.path == v.path && (job.task.Checked? || job.task.Wanted?) then {job.owner} else {}
  }

  function Reports(v: Version, job: Job): set<Peer> {
    if job.task.event.path == v.path && job.task.Recording? then {job.owner} else {}
  }

  lemma StillComing(v: Version, s: System, s': System, n: Peer)
    requires v.origin < |s.nodes| == |s'.nodes|
    requires (forall k :: k in s.net ==> k in s'.net) && (forall j :: j in s.jobs ==> j in s'.jobs)
    requires Watch(v.path, false) in s.nodes[v.origin].pending ==> Watch(v.path, false) in s'.nodes[v.origin].pending
    ensures Coming(s, v, n) ==> Coming(s', v, n)
    ensures AboutToRecord(s, n, v.path) ==> AboutToRecord(s', n, v.path)
  {
  }

  lemma TakePacket(w: World, v: Version, s: System, i: nat)
    requires Spreading(w, v, s) && i < |s.net|
    ensures SpreadingBut(w, v, s.(net := RemoveAt(s.net, i)), Supplies(v, s.net[i]), {})
  {
    var s' := s.(net := RemoveAt(s.net, i));
    forall n | 0 <= n < |s.nodes| && n !in Supplies(v, s.net[i])
      ensures Served(v, s', n)
    {
      assert Served(v, s, n);
    }
    forall n | 0 <= n < |s.nodes|
      ensures Reported(v, s', n)
    {
      assert Reported(v, s, n);
    }
  }

  lemma TakeJob(w: World, v: Version, s: System, j: nat)
    requires Spreading(w, v, s) && j < |s.jobs|
    ensures SpreadingBut(w, v, s.(jobs := RemoveAt(s.jobs, j)), Feeds(v, s.jobs[j]), Reports(v, s.jobs[j]))
  {
    var s' := s.(jobs := RemoveAt(s.jobs, j));
    forall n | 0 <= n < |s.nodes| && n !in Feeds(v, s.jobs[j])
      ensures Served(v, s', n)
    {
      assert Served(v, s, n);
    }
    forall n | 0 <= n < |s.nodes| && n !in Reports(v, s.jobs[j])
      ensures Reported(v, s', n)
    {
      assert Reported(v, s, n);
    }
  }

  lemma SendSpreads(w: World, v: Version, s: System, msg: Message, unserved: set<Peer>, unreported: set<Peer>)
    requires SpreadingBut(w, v, s, unserved, unreported)
    requires msg.path == v.path ==>
               && msg.from < |s.nodes|
               && (msg.kind.Event? ==> msg.checksum == w.hash(v.content) && msg.size == |v.content|)
               && (msg.kind.Response? ==> msg.data == v.content)
    ensures SpreadingBut(w, v, Send(s, msg), unserved, unreported)
  {
    var s' := Send(s, msg);
    forall n | 0 <= n < |s.nodes|
      ensures Served(v, s, n) ==> Served(v, s', n)
      ensures Reported(v, s, n) ==> Reported(v, s', n)
    {
      StillComing(v, s, s', n);
    }
  }

  lemma SpawnSpreads(w: World, v: Version, s: System, n: Peer, task: Task, unserved: set<Peer>, unreported: set<Peer>)
    requires SpreadingBut(w, v, s, unserved, unreported)
    requires WorksOnVersion(w, v, s.nodes, Job(n, task))
    ensures SpreadingBut(w, v, Spawn(s, n, task), unserved, unreported)
  {
    var s' := Spawn(s, n, task);
    forall m | 0 <= m < |s.nodes|
      ensures Served(v, s, m) ==> Served(v, s', m)
      ensures Reported(v, s, m) ==> Reported(v, s', m)
    {
      StillComing(v, s, s', m);
    }
  }

  /** Nodes that turn out to be served and reported need no exemption. */
  lemma Settle(w: World, v: Version, s: System, unserved: set<Peer>, unreported: set<Peer>)
    requires SpreadingBut(w, v, s, unserved, unreported)
    requires forall n :: n in unserved && n < |s.nodes| ==> Served(v, s, n)
    requires forall n :: n in unreported && n < |s.nodes| ==> Reported(v, s, n)
    ensures Spreading(w, v, s)
  {
  }

  lemma ReplaceNode(w: World, v: Version, s: System, n: Peer, node: Node, unserved: set<Peer>, unreported: set<Peer>)
    requires SpreadingBut(w, v, s, unserved, unreported)
    requires n < |s.nodes| && AlikeAt(v.path, s.nodes[n], node)
    ensures SpreadingBut(w, v, s.(nodes := s.nodes[n := node]), unserved, unreported)
  {
    var s' := s.(nodes := s.nodes[n := node]);
    forall m | 0 <= m < |s.nodes|
      ensures Served(v, s, m) ==> Served(v, s', m)
      ensures Reported(v, s, m) ==> Reported(v, s', m)
    {
      StillComing(v, s, s', m);
    }
  }

  lemma AnnounceSpreads(w: World, v: Version, s: System, n: Peer, event: FileEvent, now: Time, unserved: set<Peer>,
          unreported: set<Peer>)
    requires SpreadingBut(w, v, s, unserved, unreported) && n < |s.nodes|
    requires event.path == v.path ==>
               v.path in s.nodes[n].disk && event.checksum == w.hash(v.content) && event.size == |v.content|
    ensures SpreadingBut(w, v, Announce(s, n, event, now), unserved, unreported)
    ensures event.path == v.path ==> Reported(v, Announce(s, n, event, now), n)
    ensures event.path == v.path && n == v.origin ==>
              forall m :: 0 <= m < |s.nodes| ==> Served(v, Announce(s, n, event, now), m)
  {
    var msg := EventMessage(n, event, now);
    SendSpreads(w, v, s, msg, unserved, unreported);
    SpawnSpreads(w, v, Send(s, msg), n, Recording(event), unserved, unreported);
    var s' := Announce(s, n, event, now);
    assert Job(n, Recording(event)) in s'.jobs;
    if event.path == v.path && n == v.origin {
      forall m | 0 <= m < |s.nodes|
        ensures Served(v, s', m)
      {
        if m != n {
          assert Packet(m, msg) in s'.net && Fits(Packet(m, msg), m, Event, v.path);
        }
      }
    }
  }

  lemma FireSpreads(w: World, v: Version, s: System, n: Peer, watch: Watch, now: Time)
    requires Spreading(w, v, s) && Enabled(s, Fire(n, watch, now))
    ensures Spreading(w, v, Apply(w, s, Fire(n, watch, now)))
  {
    var node := s.nodes[n].(pending := s.nodes[n].pending - {watch});
    var event := Observe(w.hash, s.nodes[n].disk, watch.path, watch.removed, now);
    if watch.path != v.path {
      ReplaceNode(w, v, s, n, node, {}, {});
      AnnounceSpreads(w, v, s.(nodes := s.nodes[n := node]), n, event, now, {}, {});
    } else {
      assert !watch.removed && v.path in s.nodes[n].disk;
      var drained := s.(nodes := s.nodes[n := node]);
      var unserved := if n == v.origin then Receivers(|s.nodes|, n) else {};
      forall m | 0 <= m < |s.nodes|
        ensures m !in unserved ==> Served(v, drained, m)
        ensures m != n ==> Reported(v, drained, m)
      {
        assert Served(v, s, m) && Reported(v, s, m);
      }
      assert SpreadingBut(w, v, drained, unserved, {n});
      AnnounceSpreads(w, v, drained, n, event, now, unserved, {n});
      Settle(w, v, Announce(drained, n, event, now), unserved, {n});
    }
  }

  lemma ReceiveSpreads(w: World, v: Version, s: System, i: nat, now: Time)
    requires Spreading(w, v, s) && IsFileInWatchedPaths(v.path)
    requires Enabled(s, Deliver(i, now))
    ensures Spreading(w, v, Apply(w, s, Deliver(i, now)))
  {
    var packet, rest := s.net[i], s.(net := RemoveAt(s.net, i));
    var n, msg, node := packet.to, packet.msg, s.nodes[packet.to];
    var unserved := Supplies(v, packet);
    var s' := Apply(w, s, Deliver(i, now));
    TakePacket(w, v, s, i);
    assert CarriesVersion(w, v, |s.nodes|, packet);
    if msg.from != n {
      match msg.kind
      case Event =>
        if ShouldSyncFile(node.records, EventOf(msg)) {
          SpawnSpreads(w, v, rest, n, Checked(EventOf(msg)), unserved, {});
          assert Job(n, Checked(EventOf(msg))) in s'.jobs;
        }
      case Request =>
        if msg.path in node.disk {
          var response := ResponseMessage(n, msg.path, node.disk[msg.path].content, now);
          SendSpreads(w, v, rest, response, unserved, {});
          if msg.path == v.path && msg.from < |s.nodes| {
            assert Packet(msg.from, response) in s'.net && Fits(Packet(msg.from, response), msg.from, Response, v.path);
          }
        }
      case Response =>
        WriteSpreads(w, v, rest, n, msg.path, msg.data, now, unserved);
      case Other(_) =>
    }
    Settle(w, v, s', unserved, {});
  }

  /** Writing the version, or any other path, keeps the invariant and serves the node. */
  lemma WriteSpreads(w: World, v: Version, s: System, n: Peer, path: Path, content: Content, now: Time,
          unserved: set<Peer>)
    requires SpreadingBut(w, v, s, unserved, {}) && n < |s.nodes|
    requires path == v.path ==> content == v.content
    ensures SpreadingBut(w, v, s.(nodes := s.nodes[n := Write(s.nodes[n], path, content, now)]), unserved, {})
  {
    if path != v.path {
      ReplaceNode(w, v, s, n, Write(s.nodes[n], path, content, now), unserved, {});
    } else {
      var s' := s.(nodes := s.nodes[n := Write(s.nodes[n], path, content, now)]);
      forall m | 0 <= m < |s.nodes|
        ensures Served(v, s, m) ==> Served(v, s', m)
        ensures Reported(v, s, m) ==> Reported(v, s', m)
      {
        StillComing(v, s, s', m);
      }
    }
  }

  lemma AdvanceSpreads(w: World, v: Version, s: System, j: nat, now: Time)
    requires Spreading(w, v, s) && Enabled(s, Advance(j, now))
    ensures Spreading(w, v, Apply(w, s, Advance(j, now)))
  {
    var job, rest := s.jobs[j], s.(jobs := RemoveAt(s.jobs, j));
    var n, node, event := job.owner, s.nodes[job.owner], job.task.event;
    var unserved, unreported := Feeds(v, job), Reports(v, job);
    var s' := Apply(w, s, Advance(j, now));
    TakeJob(w, v, s, j);
    assert WorksOnVersion(w, v, s.nodes, job);
    match job.task
    case Checked(_) =>
      var next := if HasConflict(node.records, event, now) then Conflicted(event) else Wanted(event);
      SpawnSpreads(w, v, rest, n, next, unserved, {});
      assert Job(n, next) in s'.jobs;
      Settle(w, v, s', unserved, {});
    case Conflicted(_) =>
      var (records, proceed) := ResolveConflict(w.strategies[n], node.records, event);
      ReplaceNode(w, v, rest, n, node.(records := records), {}, {});
      if proceed {
        SpawnSpreads(w, v, rest.(nodes := rest.nodes[n := node.(records := records)]), n, Wanted(event), {}, {});
      }
    case Wanted(_) =>
      var request := RequestMessage(n, event.path, now);
      SendSpreads(w, v, rest, request, unserved, {});
      if event.path == v.path && n != v.origin {
        assert Packet(v.origin, request) in s'.net && Fits(Packet(v.origin, request), v.origin, Request, v.path);
      }
      Settle(w, v, s', unserved, {});
    case Recording(_) =>
      RecordSpreads(w, v, rest, n, event, now, unreported);
      Settle(w, v, s', {}, unreported);
  }

  lemma RecordSpreads(w: World, v: Version, s: System, n: Peer, event: FileEvent, now: Time, unreported: set<Peer>)
    requires SpreadingBut(w, v, s, {}, unreported)
    requires WorksOnVersion(w, v, s.nodes, Job(n, Recording(event))) && n < |s.nodes|
    ensures var node := s.nodes[n].(records := s.nodes[n].records[event.path := RecordOf(event, now)]);
            SpreadingBut(w, v, s.(nodes := s.nodes[n := node]), {}, unreported)
  {
    var node := s.nodes[n].(records := s.nodes[n].records[event.path := RecordOf(event, now)]);
    if event.path != v.path {
      ReplaceNode(w, v, s, n, node, {}, unreported);
    } else {
      var s' := s.(nodes := s.nodes[n := node]);
      forall m | 0 <= m < |s.nodes|
        ensures Served(v, s, m) ==> Served(v, s', m)
        ensures Reported(v, s, m) ==> Reported(v, s', m)
      {
        StillComing(v, s, s', m);
      }
    }
  }

  lemma StepSpreads(w: World, v: Version, s: System, step: Step)
    requires Spreading(w, v, s) && IsFileInWatchedPaths(v.path)
    requires Enabled(s, step) && LeavesAlone(v.path, step)
    ensures Spreading(w, v, Apply(w, s, step))
  {
    match step
    case Edit(n, p, c, now) => WriteSpreads(w, v, s, n, p, c, now, {});
    case Delete(n, p) => ReplaceNode(w, v, s, n, FileSync.Remove(s.nodes[n], p), {}, {});
    case Fire(n, watch, now) => FireSpreads(w, v, s, n, watch, now);
    case SyncFile(n, p, now) => AnnounceSpreads(w, v, s, n, Observe(w.hash, s.nodes[n].disk, p, false, now), now, {},
        {});
    case Deliver(i, now) => ReceiveSpreads(w, v, s, i, now);
    case Advance(j, now) => AdvanceSpreads(w, v, s, j, now);
  }

  lemma {:induction false} RunSpreads(w: World, v: Version, s: System, run: seq<Step>)
    requires Spreading(w, v, s) && IsFileInWatchedPaths(v.path)
    requires Possible(w, s, run) && forall step :: step in run ==> LeavesAlone(v.path, step)
    ensures Spreading(w, v, After(w, s, run))
    decreases |run|
  {
    if run != [] {
      StepSpreads(w, v, s, run[0]);
      RunSpreads(w, v, Apply(w, s, run[0]), run[1..]);
    }
  }

  // ---- The theorems ------------------------------------------------------

  /** The start: the origin has just written the file, everyone else has neither file nor record. */
  ghost predicate Introduced(v: Version, s: System) {
    && v.origin < |s.nodes|
    && (forall n :: 0 <= n < |s.nodes| ==>
          && v.path !in s.nodes[n].records
          && Watch(v.path, true) !in s.nodes[n].pending
          && (if n == v.origin
              then v.path in s.nodes[n].disk && s.nodes[n].disk[v.path].content == v.content
                  && Watch(v.path, false) in s.nodes[n].pending
              else v.path !in s.nodes[n].disk && Watch(v.path, false) !in s.nodes[n].pending))
    && (forall packet :: packet in s.net ==> packet.msg.path != v.path)
    && (forall job :: job in s.jobs ==> job.task.event.path != v.path)
  }

  /** Every node has the content and a record of exactly this content. */
  ghost predicate Agreed(w: World, v: Version, s: System) {
    forall n :: 0 <= n < |s.nodes| ==>
      && v.path in s.nodes[n].disk && s.nodes[n].disk[v.path].content == v.content
      && v.path in s.nodes[n].records
      && s.nodes[n].records[v.path].checksum == w.hash(v.content)
      && s.nodes[n].records[v.path].size == |v.content|
  }

  /** In every reachable state a node without the content has it coming. */
  lemma LackingNodesAreServed(w: World, v: Version, s: System, run: seq<Step>, n: nat)
    requires Sized(w, s) && Introduced(v, s) && IsFileInWatchedPaths(v.path)
    requires Possible(w, s, run) && forall step :: step in run ==> LeavesAlone(v.path, step)
    requires n < |s.nodes|
    ensures var s' := After(w, s, run);
            && |s'.nodes| == |s.nodes|
            && (v.path !in s'.nodes[n].disk ==> n != v.origin && Coming(s', v, n))
  {
    assert Spreading(w, v, s);
    RunSpreads(w, v, s, run);
    assert Served(v, After(w, s, run), n);
  }

  /** In every reachable state without work for the path, all nodes agree. */
  lemma QuietMeansAgreed(w: World, v: Version, s: System, run: seq<Step>)
    requires Sized(w, s) && Introduced(v, s) && IsFileInWatchedPaths(v.path)
    requires Possible(w, s, run) && forall step :: step in run ==> LeavesAlone(v.path, step)
    requires Quiet(v.path, After(w, s, run))
    ensures Agreed(w, v, After(w, s, run))
  {
    assert Spreading(w, v, s);
    RunSpreads(w, v, s, run);
    QuietSpreadingAgrees(w, v, After(w, s, run));
  }

  lemma QuietSpreadingAgrees(w: World, v: Version, s: System)
    requires Spreading(w, v, s) && Quiet(v.path, s)
    ensures Agreed(w, v, s)
  {
    forall n | 0 <= n < |s.nodes|
      ensures v.path in s.nodes[n].disk && v.path in s.nodes[n].records
    {
      assert Served(v, s, n) && Reported(v, s, n);
    }
  }
}
