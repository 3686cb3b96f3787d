/**
 How much work a path still causes. Every message, goroutine and notification has a
 weight that pays for everything its handling can trigger, so handling it shrinks the
 total: this bounds the runs of the gossip protocol.
 */
module Work {
  import opened Prelude
  import opened GoTime
  import opened FileSync
  import opened Gossip

  /** Weights in a mesh of n nodes, from the last link of the echo chain backwards. */
  function PendingWeight(n: nat): nat {
    n + 2
  }

  function ResponseWeight(n: nat): nat {
    PendingWeight(n) + 1
  }

  function RequestWeight(n: nat): nat {
    n * ResponseWeight(n) + 1
  }

  function WantedWeight(n: nat): nat {
    n * RequestWeight(n) + 1
  }

  function TaskWeight(n: nat, task: Task): (weight: nat)
    ensures weight > 0
  {
    match task
    case Wanted(_) => WantedWeight(n)
    case Conflicted(_) => WantedWeight(n) + 1
    case Checked(_) => WantedWeight(n) + 2
    case Recording(_) => 1
  }

  /** An event may still be acted on where its addressee and checksum are `open`; elsewhere it is ignored. */
  function MessageWeight(n: nat, open: set<(Peer, string)>, to: Peer, kind: Kind, checksum: string): (weight: nat)
    ensures weight > 0
  {
    match kind
    case Event => if (to, checksum) in open then WantedWeight(n) + 3 else 1
    case Request => RequestWeight(n)
    case Response => ResponseWeight(n)
    case Other(_) => 1
  }

  function PacketWeight(n: nat, open: set<(Peer, string)>, path: Path, packet: Packet): nat {
    if packet.msg.path == path then MessageWeight(n, open, packet.to, packet.msg.kind, packet.msg.checksum) else 0
  }

  function JobWeight(n: nat, path: Path, job: Job): nat {
    if job.task.event.path == path then TaskWeight(n, job.task) else 0
  }

  function NodeWeight(n: nat, path: Path, node: Node): nat {
    (if Watch(path, false) in node.pending then PendingWeight(n) else 0) +
    (if Watch(path, true) in node.pending then PendingWeight(n) else 0)
  }

  function NetLoad(n: nat, open: set<(Peer, string)>, path: Path, net: seq<Packet>): nat {
    if net == [] then 0 else PacketWeight(n, open, path, net[0]) + NetLoad(n, open, path, net[1..])
  }

  function JobLoad(n: nat, path: Path, jobs: seq<Job>): nat {
    if jobs == [] then 0 else JobWeight(n, path, jobs[0]) + JobLoad(n, path, jobs[1..])
  }

  function NodeLoad(n: nat, path: Path, nodes: seq<Node>): nat {
    if nodes == [] then 0 else NodeWeight(n, path, nodes[0]) + NodeLoad(n, path, nodes[1..])
  }

  function Load(open: set<(Peer, string)>, path: Path, s: System): nat {
    var n := |s.nodes|;
    NetLoad(n, open, path, s.net) + JobLoad(n, path, s.jobs) + NodeLoad(n, path, s.nodes)
  }

  // ---- The loads are sums ------------------------------------------------

  lemma {:induction false} NetLoadConcat(n: nat, open: set<(Peer, string)>, path: Path, a: seq<Packet>, b: seq<Packet>)
    ensures NetLoad(n, open, path, a + b) == NetLoad(n, open, path, a) + NetLoad(n, open, path, b)
  {
    if a == [] {
      assert a + b == b;
    } else {
      NetLoadConcat(n, open, path, a[1..], b);
      assert (a + b)[1..] == a[1..] + b;
    }
  }

  lemma NetLoadRemove(n: nat, open: set<(Peer, string)>, path: Path, net: seq<Packet>, i: nat)
    requires i < |net|
    ensures NetLoad(n, open, path, net) == NetLoad(n, open, path, RemoveAt(net, i)) + PacketWeight(n, open, path,
        net[i])
  {
    NetLoadConcat(n, open, path, net[..i], net[i..]);
    NetLoadConcat(n, open, path, net[..i], net[i + 1..]);
    assert net == net[..i] + net[i..] && net[i..][1..] == net[i + 1..];
  }

  lemma {:induction false} JobLoadConcat(n: nat, path: Path, a: seq<Job>, b: seq<Job>)
    ensures JobLoad(n, path, a + b) == JobLoad(n, path, a) + JobLoad(n, path, b)
  {
    if a == [] {
      assert a + b == b;
    } else {
      JobLoadConcat(n, path, a[1..], b);
      assert (a + b)[1..] == a[1..] + b;
    }
  }

  lemma JobLoadRemove(n: nat, path: Path, jobs: seq<Job>, j: nat)
    requires j < |jobs|
    ensures JobLoad(n, path, jobs) == JobLoad(n, path, RemoveAt(jobs, j)) + JobWeight(n, path, jobs[j])
  {
    JobLoadConcat(n, path, jobs[..j], jobs[j..]);
    JobLoadConcat(n, path, jobs[..j], jobs[j + 1..]);
    assert jobs == jobs[..j] + jobs[j..] && jobs[j..][1..] == jobs[j + 1..];
  }

  lemma {:induction false} NodeLoadUpdate(n: nat, path: Path, nodes: seq<Node>, i: nat, node: Node)
    requires i < |nodes|
    ensures NodeLoad(n, path, nodes[i := node]) + NodeWeight(n, path, nodes[i])
            == NodeLoad(n, path, nodes) + NodeWeight(n, path, node)
  {
    if i == 0 {
      assert nodes[i := node][1..] == nodes[1..];
    } else {
      NodeLoadUpdate(n, path, nodes[1..], i - 1, node);
      assert nodes[i := node][1..] == nodes[1..][i - 1 := node];
    }
  }

  /** A broadcast weighs at most one message per node, each of them no heavier than `weight`. */
  lemma {:induction false} BroadcastLoad(n: nat, open: set<(Peer, string)>, path: Path, k: nat, msg: Message,
          weight: nat)
    requires forall to :: to in Receivers(k, msg.from) ==> MessageWeight(n, open, to, msg.kind, msg.checksum) <= weight
    ensures NetLoad(n, open, path, Broadcast(k, msg)) <= k * weight
    ensures msg.path != path ==> NetLoad(n, open, path, Broadcast(k, msg)) == 0
  {
    if k > 0 {
      BroadcastLoad(n, open, path, k - 1, msg, weight);
      var last := if k - 1 != msg.from then [Packet(k - 1, msg)] else [];
      NetLoadConcat(n, open, path, Broadcast(k - 1, msg), last);
      assert last != [] ==> last[1..] == [] && k - 1 in Receivers(k, msg.from);
      assert k * weight == (k - 1) * weight + weight;
    }
  }

  /** The nodes below n that a broadcast of `from` reaches. */
  function Receivers(n: nat, from: Peer): (receivers: set<Peer>)
    ensures forall to: nat :: to in receivers <==> to < n && to != from
  {
    if n == 0 then {} else Receivers(n - 1, from) + if n - 1 != from then {n - 1} else {}
  }

  // ---- Steps shrink the load ---------------------------------------------

  /** The step handles something that concerns the path. */
  predicate Touches(path: Path, s: System, step: Step)
    requires Enabled(s, step)
  {
    match step
    case Fire(_, watch, _) => watch.path == path
    case Deliver(i, _) => s.net[i].msg.path == path
    case Advance(j, _) => s.jobs[j].task.event.path == path
    case _ => false
  }

  /** No user touches the path, by editing, deleting or re-announcing it. */
  predicate HandsOff(path: Path, step: Step) {
    match step
    case Edit(_, p, _, _) => p != path
    case Delete(_, p) => p != path
    case SyncFile(_, p, _) => p != path
    case _ => true
  }

  /** An event is acted on only where it is open, and a new announcement is open nowhere. */
  ghost predicate ClosedFor(w: World, open: set<(Peer, string)>, path: Path, s: System, step: Step)
    requires Enabled(s, step)
  {
    match step
    case Fire(n, watch, now) =>
      watch.path == path ==>
        forall to :: to in Receivers(|s.nodes|, n) ==>
          (to, Observe(w.hash, s.nodes[n].disk, path, watch.removed, now).checksum) !in open
    case Deliver(i, _) =>
      var packet := s.net[i];
      packet.msg.kind.Event? && packet.msg.path == path && (packet.to, packet.msg.checksum) !in open ==>
        !ShouldSyncFile(s.nodes[packet.to].records, EventOf(packet.msg))
    case _ => true
  }

  lemma SendLoad(open: set<(Peer, string)>, path: Path, s: System, msg: Message, weight: nat)
    requires forall to :: to in Receivers(|s.nodes|, msg.from) ==>
        MessageWeight(|s.nodes|, open, to, msg.kind, msg.checksum) <= weight
    ensures Load(open, path, Send(s, msg)) <= Load(open, path, s) + |s.nodes| * weight
    ensures msg.path != path ==> Load(open, path, Send(s, msg)) == Load(open, path, s)
  {
    NetLoadConcat(|s.nodes|, open, path, s.net, Broadcast(|s.nodes|, msg));
    BroadcastLoad(|s.nodes|, open, path, |s.nodes|, msg, weight);
  }

  lemma SpawnLoad(open: set<(Peer, string)>, path: Path, s: System, n: Peer, task: Task)
    ensures Load(open, path, Spawn(s, n, task)) == Load(open, path, s) + JobWeight(|s.nodes|, path, Job(n, task))
  {
    JobLoadConcat(|s.nodes|, path, s.jobs, [Job(n, task)]);
  }

  /** A bound no broadcast message exceeds; used for messages about other paths. */
  function Heaviest(n: nat): nat {
    WantedWeight(n) + RequestWeight(n) + ResponseWeight(n) + 4
  }

  lemma FireLoad(w: World, open: set<(Peer, string)>, path: Path, s: System, n: Peer, watch: Watch, now: Time)
    requires Sized(w, s) && Enabled(s, Fire(n, watch, now)) && ClosedFor(w, open, path, s, Fire(n, watch, now))
    ensures var after := Load(open, path, Apply(w, s, Fire(n, watch, now)));
            if watch.path == path then after < Load(open, path, s) else after == Load(open, path, s)
  {
    var node := s.nodes[n].(pending := s.nodes[n].pending - {watch});
    var drained := s.(nodes := s.nodes[n := node]);
    var event := Observe(w.hash, s.nodes[n].disk, watch.path, watch.removed, now);
    NodeLoadUpdate(|s.nodes|, path, s.nodes, n, node);
    SendLoad(open, path, drained, EventMessage(n, event, now), if watch.path == path then 1 else Heaviest(|s.nodes|));
    SpawnLoad(open, path, Send(drained, EventMessage(n, event, now)), n, Recording(event));
  }

  /** An announcement that is acted on everywhere costs at most one fetch per node. */
  function AnnouncementWeight(n: nat): nat {
    n * (WantedWeight(n) + 3)
  }

  lemma FireLoadAtMost(w: World, open: set<(Peer, string)>, path: Path, s: System, n: Peer, watch: Watch, now: Time)
    requires Sized(w, s) && Enabled(s, Fire(n, watch, now)) && watch.path == path
    ensures Load(open, path, Apply(w, s, Fire(n, watch, now))) < Load(open, path, s) + AnnouncementWeight(|s.nodes|)
  {
    var node := s.nodes[n].(pending := s.nodes[n].pending - {watch});
    var drained := s.(nodes := s.nodes[n := node]);
    var event := Observe(w.hash, s.nodes[n].disk, watch.path, watch.removed, now);
    NodeLoadUpdate(|s.nodes|, path, s.nodes, n, node);
    SendLoad(open, path, drained, EventMessage(n, event, now), WantedWeight(|s.nodes|) + 3);
    SpawnLoad(open, path, Send(drained, EventMessage(n, event, now)), n, Recording(event));
  }

  lemma ReceiveLoad(w: World, open: set<(Peer, string)>, path: Path, s: System, i: nat, now: Time)
    requires Sized(w, s) && Enabled(s, Deliver(i, now)) && ClosedFor(w, open, path, s, Deliver(i, now))
    ensures var after := Load(open, path, Apply(w, s, Deliver(i, now)));
            if s.net[i].msg.path == path then after < Load(open, path, s) else after == Load(open, path, s)
  {
    var n, msg, rest := s.net[i].to, s.net[i].msg, s.(net := RemoveAt(s.net, i));
    NetLoadRemove(|s.nodes|, open, path, s.net, i);
    if msg.from != n {
      match msg.kind
      case Event => SpawnLoad(open, path, rest, n, Checked(EventOf(msg)));
      case Request =>
        if msg.path in s.nodes[n].disk {
          SendLoad(open, path, rest, ResponseMessage(n, msg.path, s.nodes[n].disk[msg.path].content, now),
              ResponseWeight(|s.nodes|));
        }
      case Response => NodeLoadUpdate(|s.nodes|, path, s.nodes, n, Write(s.nodes[n], msg.path, msg.data, now));
      case Other(_) =>
    }
  }

  /** Records weigh nothing. */
  lemma RecordsLoad(open: set<(Peer, string)>, path: Path, s: System, n: Peer, records: map<Path, Record>)
    requires n < |s.nodes|
    ensures Load(open, path, s.(nodes := s.nodes[n := s.nodes[n].(records := records)])) == Load(open, path, s)
  {
    NodeLoadUpdate(|s.nodes|, path, s.nodes, n, s.nodes[n].(records := records));
  }

  lemma AdvanceLoad(w: World, open: set<(Peer, string)>, path: Path, s: System, j: nat, now: Time)
    requires Sized(w, s) && Enabled(s, Advance(j, now))
    ensures var after := Load(open, path, Apply(w, s, Advance(j, now)));
            if s.jobs[j].task.event.path == path then after < Load(open, path, s) else after == Load(open, path, s)
  {
    var n, event, rest := s.jobs[j].owner, s.jobs[j].task.event, s.(jobs := RemoveAt(s.jobs, j));
    var node := s.nodes[n];
    JobLoadRemove(|s.nodes|, path, s.jobs, j);
    match s.jobs[j].task
    case Checked(_) =>
      SpawnLoad(open, path, rest, n, if HasConflict(node.records, event,
          now) then Conflicted(event) else Wanted(event));
    case Conflicted(_) =>
      var records := ResolveConflict(w.strategies[n], node.records, event).0;
      RecordsLoad(open, path, rest, n, records);
      SpawnLoad(open, path, rest.(nodes := s.nodes[n := node.(records := records)]), n, Wanted(event));
    case Wanted(_) =>
      SendLoad(open, path, rest, RequestMessage(n, event.path, now), RequestWeight(|s.nodes|));
    case Recording(_) =>
      RecordsLoad(open, path, rest, n, node.records[event.path := RecordOf(event, now)]);
  }

  /** Handling something about the path shrinks its load; anything else leaves the load alone. */
  lemma StepLoad(w: World, open: set<(Peer, string)>, path: Path, s: System, step: Step)
    requires Sized(w, s) && Enabled(s, step) && HandsOff(path, step) && ClosedFor(w, open, path, s, step)
    ensures var after := Load(open, path, Apply(w, s, step));
            if Touches(path, s, step) then after < Load(open, path, s) else after == Load(open, path, s)
  {
    match step
    case Edit(n, p, c, now) => NodeLoadUpdate(|s.nodes|, path, s.nodes, n, Write(s.nodes[n], p, c, now));
    case Delete(n, p) => NodeLoadUpdate(|s.nodes|, path, s.nodes, n, FileSync.Remove(s.nodes[n], p));
    case Fire(n, watch, now) => FireLoad(w, open, path, s, n, watch, now);
    case SyncFile(n, p, now) =>
      var event := Observe(w.hash, s.nodes[n].disk, p, false, now);
      SendLoad(open, path, s, EventMessage(n, event, now), Heaviest(|s.nodes|));
      SpawnLoad(open, path, Send(s, EventMessage(n, event, now)), n, Recording(event));
    case Deliver(i, now) => ReceiveLoad(w, open, path, s, i, now);
    case Advance(j, now) => AdvanceLoad(w, open, path, s, j, now);
  }

  /** How many steps of the run handle something about the path. */
  function Effort(w: World, path: Path, s: System, run: seq<Step>): nat
    requires Sized(w, s) && Possible(w, s, run)
    decreases |run|
  {
    if run == [] then 0
    else (if Touches(path, s, run[0]) then 1 else 0) + Effort(w, path, Apply(w, s, run[0]), run[1..])
  }

  // ---- Nothing left to do ------------------------------------------------

  /** No message, goroutine or notification concerns the path. */
  ghost predicate Quiet(path: Path, s: System) {
    && (forall packet :: packet in s.net ==> packet.msg.path != path)
    && (forall job :: job in s.jobs ==> job.task.event.path != path)
    && (forall n, removed :: 0 <= n < |s.nodes| ==> Watch(path, removed) !in s.nodes[n].pending)
  }

  /** Addressees of the path's packets and owners of its goroutines exist. */
  ghost predicate Addressed(path: Path, s: System) {
    && (forall packet :: packet in s.net ==> packet.msg.path == path ==> packet.to < |s.nodes|)
    && (forall job :: job in s.jobs ==> job.task.event.path == path ==> job.owner < |s.nodes|)
  }

  /** Unless the path is quiet, some step that handles it can be taken. */
  lemma NotQuietMoves(path: Path, s: System, now: Time) returns (step: Step)
    requires Addressed(path, s) && !Quiet(path, s)
    ensures Enabled(s, step) && Touches(path, s, step) && HandsOff(path, step)
  {
    if packet :| packet in s.net && packet.msg.path == path {
      var i :| 0 <= i < |s.net| && s.net[i] == packet;
      step := Deliver(i, now);
    } else if job :| job in s.jobs && job.task.event.path == path {
      var j :| 0 <= j < |s.jobs| && s.jobs[j] == job;
      step := Advance(j, now);
    } else {
      var n, removed :| 0 <= n < |s.nodes| && Watch(path, removed) in s.nodes[n].pending;
      step := Fire(n, Watch(path, removed), now);
    }
  }
}
